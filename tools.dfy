/** The three tool handlers of the Authn8 MCP server. Each is a function of its
    arguments and of what the client calls it makes would produce; it returns
    the reply and the sequence of client calls it made, in order. */
module Tools {
  import opened Wrappers
  import opened Text
  import opened Client

  /** A call from a handler into the client. */
  datatype ClientCall = ListAccountsCall | GetOtpCall(accountId: string) | GetTokenInfoCall

  /** What a handler hands back: a plain-text message, a structured payload
      (rendered as JSON by the handler), or a failure it lets propagate. */
  datatype Reply<P> = Message(text: string) | Payload(data: P) | Raised(failure: Failure)

  datatype ToolRun<P> = ToolRun(reply: Reply<P>, calls: seq<ClientCall>)

  // ---------------------------------------------------------------------------
  // list_accounts

  datatype AccountSummary = AccountSummary(id: string, name: string, issuer: string)

  const NoAccountsMessage: string := "No accounts are accessible with this token."

  function Summarize(a: Account): AccountSummary {
    AccountSummary(a.id, a.name, a.issuerDomain)
  }

  /** `accounts.map(acc => ({id, name, issuer}))`. */
  function Summaries(accounts: seq<Account>): (entries: seq<AccountSummary>)
    ensures |entries| == |accounts|
    ensures forall i :: 0 <= i < |accounts| ==>
      entries[i].id == accounts[i].id &&
      entries[i].name == accounts[i].name &&
      entries[i].issuer == accounts[i].issuerDomain
  {
    if accounts == [] then [] else [Summarize(accounts[0])] + Summaries(accounts[1..])
  }

  function Unsummarize(e: AccountSummary): Account {
    Account(e.id, e.name, e.issuer)
  }

  function Unsummaries(entries: seq<AccountSummary>): seq<Account> {
    if entries == [] then [] else [Unsummarize(entries[0])] + Unsummaries(entries[1..])
  }

  /** The listing loses nothing: the accounts can be read back from it. */
  lemma {:induction false} SummariesRoundTrip(accounts: seq<Account>)
    ensures Unsummaries(Summaries(accounts)) == accounts
  {
    if accounts != [] {
      SummariesRoundTrip(accounts[1..]);
      assert Summaries(accounts)[1..] == Summaries(accounts[1..]);
    }
  }

  /** `handleListAccounts`, given what `listAccounts` produced. */
  function HandleListAccounts(listed: Result<seq<Account>>): (run: ToolRun<seq<AccountSummary>>)
    ensures run.calls == [ListAccountsCall]
    ensures listed.Fail? ==> run.reply == Raised(listed.failure)
    ensures listed.Ok? && listed.value == [] ==> run.reply == Message(NoAccountsMessage)
    ensures listed.Ok? && listed.value != [] ==>
      run.reply.Payload? && run.reply.data != [] && Unsummaries(run.reply.data) == listed.value
  {
    match listed
    case Fail(e) => ToolRun(Raised(e), [ListAccountsCall])
    case Ok(accounts) =>
      if |accounts| == 0 then ToolRun(Message(NoAccountsMessage), [ListAccountsCall])
      else
        SummariesRoundTrip(accounts);
        ToolRun(Payload(Summaries(accounts)), [ListAccountsCall])
  }

  // ---------------------------------------------------------------------------
  // whoami

  /** The JSON object `whoami` returns; its keys are `business`, `token_name`,
      `scoped_groups`, `account_count` and `expires_at`. */
  datatype WhoamiPayload = WhoamiPayload(
    business: string,
    tokenName: string,
    scopedGroups: seq<string>,
    accountCount: int,
    expiresAt: string)

  /** `groups.map(g => g.name)`. */
  function GroupNames(groups: seq<Group>): (names: seq<string>)
    ensures |names| == |groups|
    ensures forall i :: 0 <= i < |groups| ==> names[i] == groups[i].name
  {
    if groups == [] then [] else [groups[0].name] + GroupNames(groups[1..])
  }

  /** `handleWhoami`, given what `getTokenInfo` produced. */
  function HandleWhoami(info: Result<TokenInfo>): (run: ToolRun<WhoamiPayload>)
    ensures run.calls == [GetTokenInfoCall]
    ensures info.Fail? ==> run.reply == Raised(info.failure)
    ensures info.Ok? ==>
      var t := info.value;
      && run.reply.Payload?
      && run.reply.data.business == t.businessName
      && run.reply.data.tokenName == t.tokenName
      && run.reply.data.accountCount == t.accountCount
      && run.reply.data.expiresAt == t.expiresAt
      && |run.reply.data.scopedGroups| == |t.scopedGroups|
      && forall i :: 0 <= i < |t.scopedGroups| ==> run.reply.data.scopedGroups[i] == t.scopedGroups[i].name
  {
    match info
    case Fail(e) => ToolRun(Raised(e), [GetTokenInfoCall])
    case Ok(t) =>
      ToolRun(Payload(WhoamiPayload(t.businessName, t.tokenName, GroupNames(t.scopedGroups), t.accountCount, t.expiresAt)),
              [GetTokenInfoCall])
  }

  // ---------------------------------------------------------------------------
  // get_otp

  datatype GetOtpArgs = GetOtpArgs(accountId: Option<string>, accountName: Option<string>)

  /** The JSON object returned with a code: the account's name and the code. */
  datatype OtpPayload = OtpPayload(account: string, code: string)

  const MissingReferenceMessage: string := "Error: Either account_id or account_name must be provided."

  function UnknownIdMessage(id: string): string {
    "Error: Account with ID \"" + id + "\" not found. Use list_accounts to see available accounts."
  }

  function CandidateLine(a: Account): string {
    "  - " + a.name + " (" + a.issuerDomain + ") - ID: " + a.id
  }

  function CandidateLines(accounts: seq<Account>): (lines: seq<string>)
    ensures |lines| == |accounts|
    ensures forall i :: 0 <= i < |accounts| ==> lines[i] == CandidateLine(accounts[i])
  {
    if accounts == [] then [] else [CandidateLine(accounts[0])] + CandidateLines(accounts[1..])
  }

  function AmbiguousMessage(name: string, candidates: seq<Account>): string {
    "Multiple accounts match \"" + name + "\". Please be more specific:\n" + Join(CandidateLines(candidates))
  }

  /** `accounts.find(a => a.id === id)`: the first account with that id. */
  function FindById(accounts: seq<Account>, id: string): (found: Option<Account>)
    ensures found.None? <==> forall i :: 0 <= i < |accounts| ==> accounts[i].id != id
    ensures found.Some? ==> exists k :: (0 <= k < |accounts| && accounts[k] == found.value &&
      found.value.id == id && forall j :: 0 <= j < k ==> accounts[j].id != id)
  {
    if accounts == [] then None
    else if accounts[0].id == id then Some(accounts[0])
    else
      var rest := FindById(accounts[1..], id);
      if rest.Some? then
        ghost var k :| 0 <= k < |accounts| - 1 && accounts[1..][k] == rest.value &&
          rest.value.id == id && forall j :: 0 <= j < k ==> accounts[1..][j].id != id;
        assert accounts[k + 1] == rest.value;
        rest
      else rest
  }

  /** The last step of `handleGetOtp`: one `getOtp` call for the resolved id. */
  function Deliver(id: string, accountName: string, otp: Result<OtpResponse>): ToolRun<OtpPayload> {
    match otp
    case Fail(e) => ToolRun(Raised(e), [ListAccountsCall, GetOtpCall(id)])
    case Ok(o) => ToolRun(Payload(OtpPayload(accountName, o.code)), [ListAccountsCall, GetOtpCall(id)])
  }

  /** `handleGetOtp`, given what `listAccounts` produced and what `getOtp`
      would produce for each id. */
  function HandleGetOtp(args: GetOtpArgs, listed: Result<seq<Account>>, otp: string -> Result<OtpResponse>)
    : (run: ToolRun<OtpPayload>)
    ensures run.calls == [] <==> !Truthy(args.accountId) && !Truthy(args.accountName)
    ensures run.calls != [] ==> run.calls[0] == ListAccountsCall && |run.calls| <= 2
    ensures run.reply.Payload? ==> |run.calls| == 2
  {
    if !Truthy(args.accountId) && !Truthy(args.accountName) then
      ToolRun(Message(MissingReferenceMessage), [])
    else if Truthy(args.accountId) then
      var id := args.accountId.value;
      match listed
      case Fail(e) => ToolRun(Raised(e), [ListAccountsCall])
      case Ok(accounts) =>
        match FindById(accounts, id)
        case None => ToolRun(Message(UnknownIdMessage(id)), [ListAccountsCall])
        case Some(account) => Deliver(id, account.name, otp(id))
    else
      var name := args.accountName.value;
      match FindAccountByName(name, listed)
      case Fail(e) => ToolRun(Raised(e), [ListAccountsCall])
      case Ok(Ambiguous(candidates)) => ToolRun(Message(AmbiguousMessage(name, candidates)), [ListAccountsCall])
      case Ok(Unique(account)) => Deliver(account.id, account.name, otp(account.id))
  }

  /** Without an id or a name the handler refuses at once and calls nothing. */
  lemma NoReferenceNoCalls(args: GetOtpArgs, listed: Result<seq<Account>>, otp: string -> Result<OtpResponse>)
    requires !Truthy(args.accountId) && !Truthy(args.accountName)
    ensures HandleGetOtp(args, listed, otp) == ToolRun(Message(MissingReferenceMessage), [])
  {
  }

  /** A given id wins: the name is never consulted. */
  lemma IdTakesPrecedence(
    args: GetOtpArgs, otherName: Option<string>, listed: Result<seq<Account>>, otp: string -> Result<OtpResponse>)
    requires Truthy(args.accountId)
    ensures HandleGetOtp(args, listed, otp) == HandleGetOtp(args.(accountName := otherName), listed, otp)
  {
  }

  /** An id that is not in the account list is reported, naming the id,
      and no code is requested. */
  lemma UnknownIdNeverFetches(
    args: GetOtpArgs, accounts: seq<Account>, otp: string -> Result<OtpResponse>)
    requires Truthy(args.accountId)
    requires forall i :: 0 <= i < |accounts| ==> accounts[i].id != args.accountId.value
    ensures var run := HandleGetOtp(args, Ok(accounts), otp);
      && run == ToolRun(Message(UnknownIdMessage(args.accountId.value)), [ListAccountsCall])
      && Contains(run.reply.text, args.accountId.value)
  {
    var id := args.accountId.value;
    ContainsInfix("Error: Account with ID \"", id, "\" not found. Use list_accounts to see available accounts.");
    assert "Error: Account with ID \"" + id + "\" not found. Use list_accounts to see available accounts."
        == UnknownIdMessage(id);
  }

  lemma CandidateLineNamesAccount(a: Account)
    ensures Contains(CandidateLine(a), a.name)
    ensures Contains(CandidateLine(a), a.issuerDomain)
    ensures Contains(CandidateLine(a), a.id)
  {
    ContainsInfix("  - ", a.name, " (" + a.issuerDomain + ") - ID: " + a.id);
    assert "  - " + a.name + (" (" + a.issuerDomain + ") - ID: " + a.id) == CandidateLine(a);
    ContainsInfix("  - " + a.name + " (", a.issuerDomain, ") - ID: " + a.id);
    assert "  - " + a.name + " (" + a.issuerDomain + (") - ID: " + a.id) == CandidateLine(a);
    ContainsInfix("  - " + a.name + " (" + a.issuerDomain + ") - ID: ", a.id, "");
    assert "  - " + a.name + " (" + a.issuerDomain + ") - ID: " + a.id + "" == CandidateLine(a);
  }

  /** The ambiguity message lists the name, issuer and id of every candidate. */
  lemma AmbiguousMessageListsCandidates(name: string, candidates: seq<Account>, a: Account)
    requires a in candidates
    ensures var m := AmbiguousMessage(name, candidates);
      Contains(m, a.name) && Contains(m, a.issuerDomain) && Contains(m, a.id)
  {
    var k :| 0 <= k < |candidates| && candidates[k] == a;
    var message := AmbiguousMessage(name, candidates);
    var head := "Multiple accounts match \"" + name + "\". Please be more specific:\n";
    var listing := Join(CandidateLines(candidates));
    JoinContainsEach(CandidateLines(candidates), k);
    ContainsInfix(head, listing, "");
    assert head + listing + "" == message;
    ContainsTransitive(message, listing, CandidateLine(a));
    CandidateLineNamesAccount(a);
    ContainsTransitive(message, CandidateLine(a), a.name);
    ContainsTransitive(message, CandidateLine(a), a.issuerDomain);
    ContainsTransitive(message, CandidateLine(a), a.id);
  }

  /** A name that matches several accounts is answered with the candidate
      list, every candidate named, and no code is requested. */
  lemma AmbiguousNameNeverFetches(
    args: GetOtpArgs, accounts: seq<Account>, otp: string -> Result<OtpResponse>)
    requires !Truthy(args.accountId) && Truthy(args.accountName)
    requires 2 <= |Matches(Lower(args.accountName.value), accounts)|
    ensures var run := HandleGetOtp(args, Ok(accounts), otp);
      && run.calls == [ListAccountsCall]
      && run.reply == Message(AmbiguousMessage(args.accountName.value, Matches(Lower(args.accountName.value), accounts)))
      && forall a :: a in Matches(Lower(args.accountName.value), accounts) ==>
           Contains(run.reply.text, a.name) && Contains(run.reply.text, a.issuerDomain) &&
           Contains(run.reply.text, a.id)
  {
    var name := args.accountName.value;
    var ms := Matches(Lower(name), accounts);
    forall a | a in ms
      ensures var m := AmbiguousMessage(name, ms);
        Contains(m, a.name) && Contains(m, a.issuerDomain) && Contains(m, a.id)
    {
      AmbiguousMessageListsCandidates(name, ms, a);
    }
  }

  /** A code is returned only for an account of the list that the arguments
      designate, after exactly one `getOtp` call with that account's id; it
      carries the account's name and the code. */
  lemma SuccessFetchesOnce(
    args: GetOtpArgs, accounts: seq<Account>, otp: string -> Result<OtpResponse>)
    requires HandleGetOtp(args, Ok(accounts), otp).reply.Payload?
    ensures exists a :: (a in accounts &&
      var run := HandleGetOtp(args, Ok(accounts), otp);
      && run.calls == [ListAccountsCall, GetOtpCall(a.id)]
      && otp(a.id).Ok?
      && run.reply.data == OtpPayload(a.name, otp(a.id).value.code)
      && (Truthy(args.accountId) ==> FindById(accounts, args.accountId.value) == Some(a))
      && (!Truthy(args.accountId) ==> Matches(Lower(args.accountName.value), accounts) == [a]))
  {
  }

  /** An id found in the list is delivered: `getOtp` is called once with that
      id, and its code is returned under the name of the first account with the
      id, or its failure propagates. */
  lemma KnownIdDelivers(
    args: GetOtpArgs, accounts: seq<Account>, otp: string -> Result<OtpResponse>, a: Account)
    requires Truthy(args.accountId) && FindById(accounts, args.accountId.value) == Some(a)
    ensures var id := args.accountId.value;
      var run := HandleGetOtp(args, Ok(accounts), otp);
      && run.calls == [ListAccountsCall, GetOtpCall(id)]
      && (otp(id).Ok? ==> run.reply == Payload(OtpPayload(a.name, otp(id).value.code)))
      && (otp(id).Fail? ==> run.reply == Raised(otp(id).failure))
  {
  }

  /** A name with exactly one match is delivered: `getOtp` is called once with
      that account's id, and its code is returned under the account's name, or
      its failure propagates. */
  lemma UniqueNameDelivers(
    args: GetOtpArgs, accounts: seq<Account>, otp: string -> Result<OtpResponse>, a: Account)
    requires !Truthy(args.accountId) && Truthy(args.accountName)
    requires Matches(Lower(args.accountName.value), accounts) == [a]
    ensures var run := HandleGetOtp(args, Ok(accounts), otp);
      && run.calls == [ListAccountsCall, GetOtpCall(a.id)]
      && (otp(a.id).Ok? ==> run.reply == Payload(OtpPayload(a.name, otp(a.id).value.code)))
      && (otp(a.id).Fail? ==> run.reply == Raised(otp(a.id).failure))
  {
  }

  /** A name that matches nothing raises the no-match error of
      `findAccountByName`, listing every account, and no code is requested. */
  lemma UnmatchedNameRaises(
    args: GetOtpArgs, accounts: seq<Account>, otp: string -> Result<OtpResponse>)
    requires !Truthy(args.accountId) && Truthy(args.accountName)
    requires Matches(Lower(args.accountName.value), accounts) == []
    ensures HandleGetOtp(args, Ok(accounts), otp)
      == ToolRun(Raised(Authn8Error(NoMatchMessage(args.accountName.value, accounts), None)), [ListAccountsCall])
  {
  }

  /** `getOtp` is called at most once, after the account list, and only with
      the id of an account in that list. */
  lemma OtpRequestedOnlyForListedAccount(
    args: GetOtpArgs, accounts: seq<Account>, otp: string -> Result<OtpResponse>)
    requires |HandleGetOtp(args, Ok(accounts), otp).calls| == 2
    ensures var run := HandleGetOtp(args, Ok(accounts), otp);
      && run.calls[0] == ListAccountsCall
      && run.calls[1].GetOtpCall?
      && exists a :: a in accounts && a.id == run.calls[1].accountId
  {
  }

  /** A failure of the client propagates unchanged. */
  lemma FailuresPropagate(args: GetOtpArgs, e: Failure, otp: string -> Result<OtpResponse>)
    requires Truthy(args.accountId) || Truthy(args.accountName)
    ensures HandleGetOtp(args, Fail(e), otp) == ToolRun(Raised(e), [ListAccountsCall])
  {
  }

  // ---------------------------------------------------------------------------
  // The two-account scenario: "Acme Bank" at acme.com and "Acme Shop" at
  // shop.acme.com.

  function AcmeAccounts(): seq<Account> {
    [Account("a1", "Acme Bank", "acme.com"), Account("a2", "Acme Shop", "shop.acme.com")]
  }

  lemma MatchesPair(lowerQuery: string, a: Account, b: Account)
    ensures Matches(lowerQuery, [a, b]) ==
      (if AccountMatches(lowerQuery, a) then [a] else []) + (if AccountMatches(lowerQuery, b) then [b] else [])
  {
  }

  lemma AcmeMatchesBoth()
    ensures Matches(Lower("acme"), AcmeAccounts()) == AcmeAccounts()
  {
    assert Lower("acme") == "acme";
    assert AccountMatches("acme", AcmeAccounts()[0]) by {
      assert Lower("Acme Bank") == "acme bank";
      assert OccursAt("acme bank", "acme", 0);
    }
    assert AccountMatches("acme", AcmeAccounts()[1]) by {
      assert Lower("Acme Shop") == "acme shop";
      assert OccursAt("acme shop", "acme", 0);
    }
    MatchesPair("acme", AcmeAccounts()[0], AcmeAccounts()[1]);
  }

  lemma BankMatchesFirst()
    ensures Matches(Lower("bank"), AcmeAccounts()) == [AcmeAccounts()[0]]
  {
    assert Lower("bank") == "bank";
    assert AccountMatches("bank", AcmeAccounts()[0]) by {
      assert Lower("Acme Bank") == "acme bank";
      assert OccursAt("acme bank", "bank", 5);
    }
    assert !AccountMatches("bank", AcmeAccounts()[1]) by {
      assert Lower("Acme Shop") == "acme shop";
      assert Lower("shop.acme.com") == "shop.acme.com";
      Absent("acme shop", "bank");
      Absent("shop.acme.com", "bank");
    }
    MatchesPair("bank", AcmeAccounts()[0], AcmeAccounts()[1]);
  }

  /** "acme" is ambiguous between both accounts; "bank" resolves to the first
      and returns its name with the code the service generated. */
  lemma AcmeScenario(otp: string -> Result<OtpResponse>)
    requires otp("a1").Ok?
    ensures var run := HandleGetOtp(GetOtpArgs(None, Some("acme")), Ok(AcmeAccounts()), otp);
      && run == ToolRun(Message(AmbiguousMessage("acme", AcmeAccounts())), [ListAccountsCall])
      && Contains(run.reply.text, "a1") && Contains(run.reply.text, "a2")
    ensures HandleGetOtp(GetOtpArgs(None, Some("bank")), Ok(AcmeAccounts()), otp)
      == ToolRun(Payload(OtpPayload("Acme Bank", otp("a1").value.code)), [ListAccountsCall, GetOtpCall("a1")])
  {
    AcmeMatchesBoth();
    BankMatchesFirst();
    AmbiguousMessageListsCandidates("acme", AcmeAccounts(), AcmeAccounts()[0]);
    AmbiguousMessageListsCandidates("acme", AcmeAccounts(), AcmeAccounts()[1]);
  }
}
