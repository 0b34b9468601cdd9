/** The API client of the Authn8 MCP server: the records the remote service
    returns, the policy that turns an HTTP outcome into an `Authn8Error`, the
    sixty-second cache of the account list, the name resolver and the
    re-labelling of start-up failures. */
module Client {
  import opened Wrappers
  import opened Text

  const DefaultApiUrl: string := "https://api.authn8.com"

  /** How long, in milliseconds, a fetched account list is reused. */
  const CacheTtlMs: int := 60 * 1000

  /** The process configuration: the API base URL and `AUTHN8_API_KEY`. The
      model accepts any base URL; ApiUrlFromEnvironment is how the server
      derives it from `AUTHN8_API_URL`. */
  datatype Config = Config(apiUrl: string, apiKey: Option<string>)

  /** `process.env.AUTHN8_API_URL || "https://api.authn8.com"`. */
  function ApiUrlFromEnvironment(env: Option<string>): (url: string)
    ensures url != ""
    ensures Truthy(env) ==> url == env.value
    ensures !Truthy(env) ==> url == DefaultApiUrl
  {
    if Truthy(env) then env.value else DefaultApiUrl
  }

  datatype Group = Group(id: string, name: string)

  datatype TokenInfo = TokenInfo(
    businessName: string,
    tokenName: string,
    scopedGroups: seq<Group>,
    accountCount: int,
    expiresAt: string)

  datatype Account = Account(id: string, name: string, issuerDomain: string)

  datatype AccountsResponse = AccountsResponse(accounts: seq<Account>)

  datatype OtpResponse = OtpResponse(name: string, code: string, length: int)

  /** What a call into the client can throw: an `Authn8Error`, with the HTTP
      status when there was one, or any other error (a failed connection),
      of which only the message matters. */
  datatype Failure =
    | Authn8Error(message: string, statusCode: Option<nat>)
    | OtherError(message: string)

  datatype Result<T> = Ok(value: T) | Fail(failure: Failure)

  /** What the remote service did with one request: answered with a status,
      an optional `Retry-After` header and a (parsed) body, or could not be
      reached at all. */
  datatype Transport<T> =
    | Responded(status: nat, retryAfter: Option<string>, body: T)
    | NetworkError(message: string)

  /** The outcome of `apiRequest` together with the number of HTTP requests
      it sent. */
  datatype Exchange<T> = Exchange(result: Result<T>, requests: nat)

  const MissingKeyMessage: string :=
    "AUTHN8_API_KEY environment variable is not set. Please set it to your PAT token from the Authn8 dashboard."
  // Written as two literals so that InvalidTokenIsDistinct can read its first character.
  const InvalidTokenMessage: string :=
    "Token is invalid or expired. " + "Please check your token in the Authn8 dashboard."
  const ForbiddenMessage: string :=
    "Token does not have permission to access this resource."
  const NotFoundMessage: string :=
    "Resource not found."
  const TryLaterHint: string :=
    "Please try again later."

  /** `response.ok`. */
  predicate IsOk(status: nat) {
    200 <= status <= 299
  }

  function RateLimitMessage(retryAfter: Option<string>): string {
    "Rate limited. " + (if Truthy(retryAfter) then "Retry after " + retryAfter.value + " seconds." else TryLaterHint)
  }

  function GenericMessage(status: nat): string {
    "API request failed with status " + Decimal(status)
  }

  /** The error thrown for a response that is not OK. */
  function StatusFailure(status: nat, retryAfter: Option<string>): (e: Failure)
    requires !IsOk(status)
    ensures e.Authn8Error? && e.statusCode == Some(status)
  {
    if status == 401 then Authn8Error(InvalidTokenMessage, Some(401))
    else if status == 403 then Authn8Error(ForbiddenMessage, Some(403))
    else if status == 404 then Authn8Error(NotFoundMessage, Some(404))
    else if status == 429 then Authn8Error(RateLimitMessage(retryAfter), Some(429))
    else Authn8Error(GenericMessage(status), Some(status))
  }

  /** `apiRequest`: no request at all without a key; otherwise one request,
      whose body is the result when the status is OK. */
  function ApiRequest<T>(config: Config, response: Transport<T>): (ex: Exchange<T>)
    ensures !Truthy(config.apiKey) ==> ex == Exchange(Fail(Authn8Error(MissingKeyMessage, None)), 0)
    ensures Truthy(config.apiKey) ==> ex.requests == 1
    ensures ex.result.Ok? <==> Truthy(config.apiKey) && response.Responded? && IsOk(response.status)
    ensures ex.result.Ok? ==> ex.result.value == response.body
    ensures Truthy(config.apiKey) && response.NetworkError? ==> ex.result == Fail(OtherError(response.message))
    ensures Truthy(config.apiKey) && response.Responded? && !IsOk(response.status) ==>
      ex.result == Fail(StatusFailure(response.status, response.retryAfter))
  {
    if !Truthy(config.apiKey) then
      Exchange(Fail(Authn8Error(MissingKeyMessage, None)), 0)
    else
      match response
      case NetworkError(m) => Exchange(Fail(OtherError(m)), 1)
      case Responded(status, retryAfter, body) =>
        if IsOk(status) then Exchange(Ok(body), 1)
        else Exchange(Fail(StatusFailure(status, retryAfter)), 1)
  }

  /** Without a key the outcome does not depend on the remote service. */
  lemma MissingKeyIgnoresResponse<T>(config: Config, r1: Transport<T>, r2: Transport<T>)
    requires !Truthy(config.apiKey)
    ensures ApiRequest(config, r1) == ApiRequest(config, r2)
    ensures ApiRequest(config, r1).requests == 0
    ensures ApiRequest(config, r1).result.failure.message == MissingKeyMessage
  {
  }

  /** Every status that is not OK is reported as an `Authn8Error` carrying
      that status, with the message of its class. */
  lemma StatusMapping<T>(config: Config, status: nat, retryAfter: Option<string>, body: T)
    requires Truthy(config.apiKey) && !IsOk(status)
    ensures var r := ApiRequest(config, Responded(status, retryAfter, body)).result;
      && r.Fail? && r.failure.Authn8Error? && r.failure.statusCode == Some(status)
      && (status == 401 ==> r.failure.message == InvalidTokenMessage)
      && (status == 403 ==> r.failure.message == ForbiddenMessage)
      && (status == 404 ==> r.failure.message == NotFoundMessage)
      && (status == 429 ==> r.failure.message == RateLimitMessage(retryAfter))
      && (status != 401 && status != 403 && status != 404 && status != 429 ==>
            r.failure.message == GenericMessage(status))
  {
  }

  /** A 429 names the `Retry-After` value when the header is present and
      asks to try later otherwise. */
  lemma RateLimitHint(retryAfter: Option<string>)
    ensures Truthy(retryAfter) ==> Contains(StatusFailure(429, retryAfter).message, retryAfter.value)
    ensures !Truthy(retryAfter) ==> Contains(StatusFailure(429, retryAfter).message, TryLaterHint)
  {
    if Truthy(retryAfter) {
      ContainsInfix("Rate limited. Retry after ", retryAfter.value, " seconds.");
      assert "Rate limited. Retry after " + retryAfter.value + " seconds."
          == "Rate limited. " + ("Retry after " + retryAfter.value + " seconds.");
    } else {
      ContainsInfix("Rate limited. ", TryLaterHint, "");
      assert "Rate limited. " + TryLaterHint + "" == RateLimitMessage(retryAfter);
    }
  }

  /** The generic message contains the status number, and two different
      statuses never share a generic message. */
  lemma GenericMessageNamesStatus(status: nat, other: nat)
    ensures Contains(GenericMessage(status), Decimal(status))
    ensures GenericMessage(status) == GenericMessage(other) ==> status == other
  {
    ContainsInfix("API request failed with status ", Decimal(status), "");
    assert "API request failed with status " + Decimal(status) + "" == GenericMessage(status);
    if GenericMessage(status) == GenericMessage(other) {
      var prefix := "API request failed with status ";
      assert GenericMessage(status)[|prefix|..] == Decimal(status);
      assert GenericMessage(other)[|prefix|..] == Decimal(other);
      DecimalInjective(status, other);
    }
  }

  /** The rejected-token message is not the message of any other status. */
  lemma InvalidTokenIsDistinct(status: nat, retryAfter: Option<string>)
    requires !IsOk(status) && status != 401
    ensures StatusFailure(status, retryAfter).message != InvalidTokenMessage
  {
    var m := StatusFailure(status, retryAfter).message;
    if status == 403 || status == 404 {
      assert |m| != |InvalidTokenMessage|;
    } else if status == 429 {
      assert m[0] == 'R' != InvalidTokenMessage[0];
    } else {
      assert m[0] == 'A' != InvalidTokenMessage[0];
    }
  }

  // ---------------------------------------------------------------------------
  // The account-list cache

  datatype CacheEntry = CacheEntry(accounts: seq<Account>, timestamp: int)

  /** The cache may be used at time `now`. */
  predicate IsFresh(cache: Option<CacheEntry>, now: int) {
    cache.Some? && now - cache.value.timestamp < CacheTtlMs
  }

  /** The module-level state of the client: its configuration and the one
      cache slot. `fetches` counts the requests sent to the accounts endpoint. */
  class AccountsClient {
    const config: Config
    var accountsCache: Option<CacheEntry>
    ghost var fetches: nat

    constructor (config: Config)
      ensures this.config == config
      ensures accountsCache == None && fetches == 0
    {
      this.config := config;
      accountsCache := None;
      fetches := 0;
    }

    /** `listAccounts`. The clock is read twice: `now` for the freshness test
        and `completedAt` for the new entry's timestamp, after the response
        has arrived; `response` is what the service answers if asked. */
    method ListAccounts(now: int, response: Transport<AccountsResponse>, completedAt: int)
      returns (r: Result<seq<Account>>)
      modifies this
      ensures IsFresh(old(accountsCache), now) ==>
        r == Ok(old(accountsCache).value.accounts) &&
        accountsCache == old(accountsCache) && fetches == old(fetches)
      ensures !IsFresh(old(accountsCache), now) ==>
        var ex := ApiRequest(config, response);
        && fetches == old(fetches) + ex.requests
        && (ex.result.Ok? ==>
              accountsCache == Some(CacheEntry(ex.result.value.accounts, completedAt)) &&
              r == Ok(ex.result.value.accounts))
        && (ex.result.Fail? ==> accountsCache == old(accountsCache) && r == Fail(ex.result.failure))
      ensures r.Ok? ==> accountsCache.Some? && r.value == accountsCache.value.accounts
    {
      if IsFresh(accountsCache, now) {
        return Ok(accountsCache.value.accounts);
      }
      var ex := ApiRequest(config, response);
      fetches := fetches + ex.requests;
      match ex.result {
        case Fail(e) =>
          r := Fail(e);
        case Ok(body) =>
          accountsCache := Some(CacheEntry(body.accounts, completedAt));
          r := Ok(body.accounts);
      }
    }
  }

  /** Two listings: the first, on an empty cache, fetches; the second, less
      than a TTL after the first completed, is answered from the cache with
      the same accounts and sends no request. */
  method ListTwiceWithinTtl(
    client: AccountsClient, t0: int, response: Transport<AccountsResponse>, t1: int,
    t2: int, ignored: Transport<AccountsResponse>, t3: int)
    returns (first: Result<seq<Account>>, second: Result<seq<Account>>)
    requires client.accountsCache == None
    requires Truthy(client.config.apiKey) && response.Responded? && IsOk(response.status)
    requires t2 - t1 < CacheTtlMs
    modifies client
    ensures client.fetches == old(client.fetches) + 1
    ensures first == second == Ok(response.body.accounts)
  {
    first := client.ListAccounts(t0, response, t1);
    second := client.ListAccounts(t2, ignored, t3);
  }

  // ---------------------------------------------------------------------------
  // Resolving an account by name

  /** The filter `findAccountByName` applies, for the already lower-cased query. */
  predicate AccountMatches(lowerQuery: string, a: Account) {
    Contains(Lower(a.name), lowerQuery) || Contains(Lower(a.issuerDomain), lowerQuery)
  }

  /** `accounts.filter(...)`: the matching accounts, in list order. */
  function Matches(lowerQuery: string, accounts: seq<Account>): (ms: seq<Account>)
    ensures |ms| <= |accounts|
    ensures forall a :: a in ms <==> a in accounts && AccountMatches(lowerQuery, a)
  {
    if accounts == [] then
      []
    else
      var head := if AccountMatches(lowerQuery, accounts[0]) then [accounts[0]] else [];
      head + Matches(lowerQuery, accounts[1..])
  }

  /** Filtering commutes with concatenation, so the original order is kept. */
  lemma {:induction false} MatchesConcat(lowerQuery: string, xs: seq<Account>, ys: seq<Account>)
    ensures Matches(lowerQuery, xs + ys) == Matches(lowerQuery, xs) + Matches(lowerQuery, ys)
  {
    if xs != [] {
      assert (xs + ys)[1..] == xs[1..] + ys;
      MatchesConcat(lowerQuery, xs[1..], ys);
    } else {
      assert xs + ys == ys;
    }
  }

  /** An empty query is contained in every name and so matches every account. */
  lemma {:induction false} EmptyQueryMatchesAll(accounts: seq<Account>)
    ensures Matches(Lower(""), accounts) == accounts
  {
    if accounts != [] {
      EmptyContained(Lower(accounts[0].name));
      EmptyQueryMatchesAll(accounts[1..]);
    }
  }

  lemma AcmeCorpContainsAcme()
    ensures Contains(Lower("acme corp"), Lower("ACME"))
  {
    assert Lower("acme corp") == "acme corp";
    assert Lower("ACME") == "acme";
    assert "acme corp"[0..4] == "acme";
    assert OccursAt("acme corp", "acme", 0);
  }

  /** The query "ACME" selects an account named "acme corp". */
  lemma UpperQueryMatchesLowerName(a: Account)
    requires a.name == "acme corp"
    ensures AccountMatches(Lower("ACME"), a)
  {
    AcmeCorpContainsAcme();
  }

  datatype NameMatch = Unique(account: Account) | Ambiguous(matches: seq<Account>)

  function AvailableLine(a: Account): string {
    "  - " + a.name + " (" + a.issuerDomain + ")"
  }

  function AvailableLines(accounts: seq<Account>): (lines: seq<string>)
    ensures |lines| == |accounts|
    ensures forall i :: 0 <= i < |accounts| ==> lines[i] == AvailableLine(accounts[i])
  {
    if accounts == [] then [] else [AvailableLine(accounts[0])] + AvailableLines(accounts[1..])
  }

  function NoMatchMessage(name: string, accounts: seq<Account>): string {
    "No account found matching \"" + name + "\". Available accounts:\n" + Join(AvailableLines(accounts))
  }

  /** `findAccountByName`, given what `listAccounts` produced. */
  function FindAccountByName(name: string, listed: Result<seq<Account>>): (r: Result<NameMatch>)
    ensures listed.Fail? ==> r == Fail(listed.failure)
    ensures listed.Ok? ==>
      var ms := Matches(Lower(name), listed.value);
      && (r.Fail? <==> ms == [])
      && (r.Fail? ==> r.failure == Authn8Error(NoMatchMessage(name, listed.value), None))
      && (r.Ok? && r.value.Unique? <==> |ms| == 1)
      && (r.Ok? && r.value.Unique? ==> r.value.account == ms[0])
      && (r.Ok? && r.value.Ambiguous? ==> r.value.matches == ms && 2 <= |ms|)
  {
    match listed
    case Fail(e) => Fail(e)
    case Ok(accounts) =>
      var ms := Matches(Lower(name), accounts);
      if |ms| == 0 then Fail(Authn8Error(NoMatchMessage(name, accounts), None))
      else if |ms| == 1 then Ok(Unique(ms[0]))
      else Ok(Ambiguous(ms))
  }

  lemma AvailableLineNamesAccount(a: Account)
    ensures Contains(AvailableLine(a), a.name) && Contains(AvailableLine(a), a.issuerDomain)
  {
    ContainsInfix("  - ", a.name, " (" + a.issuerDomain + ")");
    assert "  - " + a.name + (" (" + a.issuerDomain + ")") == AvailableLine(a);
    ContainsInfix("  - " + a.name + " (", a.issuerDomain, ")");
  }

  /** When nothing matches, the error enumerates every known account. */
  lemma NoMatchNamesEveryAccount(name: string, accounts: seq<Account>, a: Account)
    requires a in accounts
    ensures Contains(NoMatchMessage(name, accounts), AvailableLine(a))
    ensures Contains(NoMatchMessage(name, accounts), a.name)
    ensures Contains(NoMatchMessage(name, accounts), a.issuerDomain)
  {
    var k :| 0 <= k < |accounts| && accounts[k] == a;
    var message := NoMatchMessage(name, accounts);
    var head := "No account found matching \"" + name + "\". Available accounts:\n";
    var listing := Join(AvailableLines(accounts));
    JoinContainsEach(AvailableLines(accounts), k);
    ContainsInfix(head, listing, "");
    assert head + listing + "" == message;
    ContainsTransitive(message, listing, AvailableLine(a));
    AvailableLineNamesAccount(a);
    ContainsTransitive(message, AvailableLine(a), a.name);
    ContainsTransitive(message, AvailableLine(a), a.issuerDomain);
  }

  /** Every unique or ambiguous result is drawn from the snapshot and matches
      the query; an ambiguous result is never empty. */
  lemma ResolutionSound(name: string, accounts: seq<Account>)
    ensures var r := FindAccountByName(name, Ok(accounts));
      && (r.Ok? && r.value.Unique? ==>
            r.value.account in accounts && AccountMatches(Lower(name), r.value.account))
      && (r.Ok? && r.value.Ambiguous? ==>
            2 <= |r.value.matches| &&
            forall a :: a in r.value.matches ==> a in accounts && AccountMatches(Lower(name), a))
  {
  }

  // ---------------------------------------------------------------------------
  // Start-up validation

  function ConnectFailureMessage(apiUrl: string, detail: string): string {
    "Failed to connect to Authn8 API. Please check AUTHN8_API_URL (" + apiUrl + "). Error: " + detail
  }

  /** `validateToken`: `getTokenInfo`, with every failure that is not an
      `Authn8Error` re-thrown as one that names the API URL. */
  function ValidateToken(config: Config, response: Transport<TokenInfo>): (r: Result<TokenInfo>)
    ensures r.Fail? ==> r.failure.Authn8Error?
    ensures var got := ApiRequest(config, response).result;
      && (got.Ok? ==> r == got)
      && (got.Fail? && got.failure.Authn8Error? ==> r == got)
      && (got.Fail? && got.failure.OtherError? ==>
            r == Fail(Authn8Error(ConnectFailureMessage(config.apiUrl, got.failure.message), None)))
  {
    match ApiRequest(config, response).result
    case Ok(info) => Ok(info)
    case Fail(Authn8Error(m, code)) => Fail(Authn8Error(m, code))
    case Fail(OtherError(m)) => Fail(Authn8Error(ConnectFailureMessage(config.apiUrl, m), None))
  }

  /** A failure to connect is reported with the API URL and the original message. */
  lemma ConnectFailureNamesUrl(config: Config, detail: string)
    requires Truthy(config.apiKey)
    ensures var r := ValidateToken(config, NetworkError(detail));
      && r.Fail? && r.failure.statusCode == None
      && Contains(r.failure.message, config.apiUrl)
      && Contains(r.failure.message, detail)
  {
    var m := ConnectFailureMessage(config.apiUrl, detail);
    ContainsInfix("Failed to connect to Authn8 API. Please check AUTHN8_API_URL (", config.apiUrl, "). Error: " + detail);
    assert "Failed to connect to Authn8 API. Please check AUTHN8_API_URL (" + config.apiUrl + ("). Error: " + detail) == m;
    ContainsInfix("Failed to connect to Authn8 API. Please check AUTHN8_API_URL (" + config.apiUrl + "). Error: ", detail, "");
    assert "Failed to connect to Authn8 API. Please check AUTHN8_API_URL (" + config.apiUrl + "). Error: " + detail + "" == m;
  }

  /** A rejected token stops start-up with the rejected-token error, and a
      missing key with the missing-key error, both unchanged. */
  lemma StartupRejections(config: Config, retryAfter: Option<string>, body: TokenInfo)
    ensures Truthy(config.apiKey) ==>
      ValidateToken(config, Responded(401, retryAfter, body)) == Fail(Authn8Error(InvalidTokenMessage, Some(401)))
    ensures !Truthy(config.apiKey) ==>
      ValidateToken(config, Responded(401, retryAfter, body)) == Fail(Authn8Error(MissingKeyMessage, None))
  {
  }
}
