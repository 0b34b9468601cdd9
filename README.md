# Authn8 MCP server: account resolution and request decisions, in Dafny

This project models the decision logic of the Authn8 MCP server. The server gives an
automated agent three tools (`list_accounts`, `get_otp`, `whoami`) over a remote
two-factor-authentication service. The model covers:

- **The API client** (`Client`, from `src/client.ts`):
  - `apiRequest` checks the API key before any request and fails with an `Authn8Error`
    when it is missing. An answered request with a non-OK status also fails with an
    `Authn8Error`: statuses 401/403/404/429 have their own messages, the 429 message
    includes the `Retry-After` hint, and any other status gets a generic message with
    the status number. A request that never reaches the service fails with the other
    kind of error (`OtherError`), which `validateToken` re-labels.
  - `listAccounts` uses one cache slot with a 60 000 ms lifetime. It is the class
    `AccountsClient`, whose `accountsCache` field the method reads and replaces as a
    whole. A ghost counter `fetches` counts the requests sent to the accounts endpoint.
  - `findAccountByName` filters case-insensitively on name or issuer domain and keeps
    list order. It then returns a single account, an ambiguous set of at least two, or
    an error listing every account.
  - `validateToken` passes an `Authn8Error` through unchanged. Any other failure becomes
    an `Authn8Error` that names the API base URL.
- **The tool handlers** (`Tools`, from `src/tools.ts`): `handleListAccounts`,
  `handleGetOtp` and `handleWhoami` are pure functions. Each takes its arguments and the
  outcome of the client calls it may make. Each returns its reply and the ordered list
  of client calls it made (`ToolRun`). That list is how the model states "no remote call
  is made" or "`getOtp` is called once, with this id".
- **String helpers** (`Text`): JavaScript truthiness of an optional string, ASCII
  lower-casing, `includes`, `join("\n")` and the decimal text of a number.

Modelling choices:
- The remote service is an input. A `Transport<T>` is either a response (status,
  optional `Retry-After`, parsed body) or a network error.
- `apiRequest` returns an `Exchange`: the result plus the number of HTTP requests it sent.
- Every optional string JavaScript tests for truthiness is an `Option<string>`, where `""` counts
  as absent: `AUTHN8_API_KEY`, `AUTHN8_API_URL`, the `Retry-After` header and the two
  `get_otp` arguments.
- `listAccounts` reads the clock twice. It compares the time on line 101 with the
  cached timestamp, and it stores the time read on line 110, after the response has
  arrived. The model takes these two readings as two parameters, `now` and `completedAt`.
- The JSON replies are modelled as structured records (`AccountSummary`, `OtpPayload`,
  `WhoamiPayload`). The plain-text replies and error messages are modelled character
  for character.

## Model

| member | source | states |
|---|---|---|
| `Client.ApiUrlFromEnvironment` | src/client.ts:1 | The base URL is the environment value when that value is non-empty, and `https://api.authn8.com` otherwise. It is never empty. JavaScript truthiness of an optional string is `Text.Truthy`: defined and not `""`. |
| `Client.ApiRequest` | src/client.ts:42-93 | Without a key: the missing-key error and zero requests. With a key: exactly one request. The result is OK iff the service answered with a 2xx status, and the value is then the response body. A request that never reaches the service fails with `OtherError` carrying the fetch error's message. A non-OK answer fails with the `StatusFailure` of its status and `Retry-After` header. |
| `Client.MissingKeyIgnoresResponse` | src/client.ts:46-50 | Without a key, the outcome does not depend on the service's answer. No request is made, and the message is the missing-key text. |
| `Client.StatusFailure` | src/client.ts:63-89 | Every non-OK status gives an `Authn8Error` whose `statusCode` is that status. |
| `Client.StatusMapping` | src/client.ts:63-89 | Each non-OK answer fails with the status attached. 401 gives the invalid-token message, 403 the permission message, 404 "Resource not found.", 429 the rate-limit message, and any other status the generic message. |
| `Client.RateLimitHint` | src/client.ts:79-85 | A 429 message (`Client.RateLimitMessage`) contains the `Retry-After` value when the header is non-empty. Otherwise it contains "Please try again later.". |
| `Client.GenericMessageNamesStatus` | src/client.ts:86-89 | The generic message (`Client.GenericMessage`) contains the decimal text of the status. Two different statuses never share a generic message. |
| `Client.InvalidTokenIsDistinct` | src/client.ts:64-89 | No status other than 401 produces the invalid-token message. |
| `Client.AccountsClient.constructor` | src/client.ts:39 | A new client has an empty cache and has made no fetch. |
| `Client.AccountsClient.ListAccounts` | src/client.ts:99-114 | If the cache is fresh (`Client.IsFresh`: an entry exists and `now - timestamp < 60000`), it returns the cached list unchanged, with no fetch and no change of state. Otherwise it calls `apiRequest` once. On success the cache becomes `(fetched list, completedAt)` and that list is returned. On failure the cache is untouched and the error propagates. Any list it returns is the cache's list. |
| `Client.ListTwiceWithinTtl` | src/client.ts:99-114 | From an empty cache, with a key and a 2xx answer to the first listing, a second listing less than the TTL after the first completed sends no request: one request in total, and both return the fetched accounts. |
| `Client.Matches` | src/client.ts:126-130 | An account is in the match set iff it is in the list and its lower-cased name or lower-cased issuer domain contains the lower-cased query. That test is `Client.AccountMatches`, and "contains" is `Text.Contains`, the `includes` of client.ts:128-129: the part occurs at some index. |
| `Client.MatchesConcat` | src/client.ts:126-130 | Filtering distributes over concatenation, so matches keep the original list order. |
| `Client.EmptyQueryMatchesAll` | src/client.ts:124-130 | An empty query matches every account. The source does not special-case it. |
| `Client.UpperQueryMatchesLowerName` | src/client.ts:124-129 | The query "ACME" matches an account named "acme corp". |
| `Client.FindAccountByName` | src/client.ts:120-143 | A listing failure propagates. Zero matches gives the no-match error, which has no status. Exactly one match gives that account. More than one gives the full ordered match set, which has at least two accounts. |
| `Client.NoMatchNamesEveryAccount` | src/client.ts:132-136 | The no-match error (`Client.NoMatchMessage`) contains the line, name and issuer domain of every account in the snapshot. |
| `Client.ResolutionSound` | src/client.ts:126-142 | A single or ambiguous result holds only accounts from the snapshot that match the query. An ambiguous set is never empty and has at least two accounts. |
| `Client.ValidateToken` | src/client.ts:145-156 | Every failure it reports is an `Authn8Error`. An `Authn8Error` (and success) passes through unchanged. Any other failure becomes an `Authn8Error` with the connect-failure message for the configured URL. |
| `Client.ConnectFailureNamesUrl` | src/client.ts:152-154 | A network failure at start-up is reported without a status, with a message (`Client.ConnectFailureMessage`) that contains the API base URL and the original error text. |
| `Client.StartupRejections` | src/client.ts:145-151 | A rejected token (401) yields the invalid-token error with status 401. A missing key yields the missing-key error. Both come back unchanged. |
| `Text.Lower` | src/client.ts:124-129 | Lower-casing keeps the length. It leaves no upper-case ASCII letter, keeps every other character and maps each upper-case letter to its lower-case letter. |
| `Text.JoinContainsEach` | src/client.ts:134 | Every line of a `join("\n")` (`Text.Join`: the lines separated by newlines) occurs in the joined text. |
| `Text.Decimal` | src/client.ts:87 | The text of a status inside the template is non-empty and made of digits only. It starts with `0` only for the number 0, so it has no leading zero. |
| `Text.DecimalValueOfDecimal` | src/client.ts:87 | The decimal text used in the generic message reads back as the status it was made from. |
| `Tools.Summaries` | src/tools.ts:55-59 | There is one `{id, name, issuer}` entry per account, in order, with each field copied from the account. |
| `Tools.SummariesRoundTrip` | src/tools.ts:55-59 | The account list can be recovered exactly from the summaries. |
| `Tools.HandleListAccounts` | src/tools.ts:39-69 | It calls `listAccounts` once. A failure propagates. An empty list gives "No accounts are accessible with this token.". Otherwise it returns a non-empty listing from which the accounts are recovered exactly. |
| `Tools.GroupNames` | src/tools.ts:158 | Each scoped group is reported by its name, in order. |
| `Tools.HandleWhoami` | src/tools.ts:145-168 | It calls `getTokenInfo` once. A failure propagates. Otherwise business, token name, account count and expiry are copied, and the groups are reported as their names in order. |
| `Tools.FindById` | src/tools.ts:95 | The result is none iff no account has the id. Otherwise it is the first account with that id. |
| `Tools.HandleGetOtp` | src/tools.ts:71-143 | It makes no client call iff neither argument is truthy. Otherwise the first call is `listAccounts` and there are at most two calls. A returned code always follows two calls. Each outcome is pinned down by the lemmas below: no reference, unknown id, known id, no match, one match, several matches and a failed listing. The last step, `getOtp` and the reply of tools.ts:126-142, is `Tools.Deliver`. |
| `Tools.NoReferenceNoCalls` | src/tools.ts:77-86 | With neither `account_id` nor `account_name` truthy, the reply is the "Either account_id or account_name must be provided." error and no client call is made. |
| `Tools.IdTakesPrecedence` | src/tools.ts:91-107 | With a truthy `account_id`, the outcome does not depend on `account_name`. |
| `Tools.UnknownIdNeverFetches` | src/tools.ts:94-105 | An id absent from the list gives the not-found message (`Tools.UnknownIdMessage`), which contains the id. Only `listAccounts` is called. |
| `Tools.AmbiguousMessageListsCandidates` | src/tools.ts:111-120 | The ambiguity message (`Tools.AmbiguousMessage`) contains the name, issuer domain and id of every candidate. |
| `Tools.AmbiguousNameNeverFetches` | src/tools.ts:108-120 | A name matching two or more accounts gives exactly the "Multiple accounts match …" message built from the match set, and no other account. That message names every candidate's name, issuer and id. Only `listAccounts` is called. |
| `Tools.SuccessFetchesOnce` | src/tools.ts:88-142 | A returned code belongs to an account from the list: the first account with the given id, or the single name match. `getOtp` was called exactly once, with that id, after the listing. The payload is the account's name with `otp.code`, and the code length is not included. |
| `Tools.KnownIdDelivers` | src/tools.ts:91-142 | With a truthy id and a first account with that id in the list, the calls are `listAccounts` then `getOtp(id)`. If `getOtp` succeeds, the reply is that account's name with the code. If it fails, the failure propagates. |
| `Tools.UniqueNameDelivers` | src/tools.ts:107-142 | With no id and a name that matches exactly one account, the calls are `listAccounts` then `getOtp` with that account's id. If `getOtp` succeeds, the reply is the account's name with the code. If it fails, the failure propagates. |
| `Tools.UnmatchedNameRaises` | src/tools.ts:107-109 | With no id and a name that matches nothing, the no-match `Authn8Error` of `findAccountByName` (no status, every account listed) propagates after the listing. No code is requested. |
| `Tools.OtpRequestedOnlyForListedAccount` | src/tools.ts:91-126 | Whenever `getOtp` is called, it is called once, after `listAccounts`, with the id of an account in the list. |
| `Tools.FailuresPropagate` | src/tools.ts:94-109 | A `listAccounts` failure escapes the handler unchanged, after that single call. |
| `Tools.AcmeScenario` | src/tools.ts:71-143 | With "Acme Bank"/acme.com (a1) and "Acme Shop"/shop.acme.com (a2): the query "acme" gives the ambiguity message naming a1 and a2 with no `getOtp` call. The query "bank" gives `{account: "Acme Bank", code}` after `getOtp("a1")`. |

## Left out

- The HTTP transport is not modelled: `fetch`, URL construction, request headers and `response.json()`. The service's answer, parsed body included, is a `Transport` input. A body that fails to parse is therefore not modelled.
- `getTokenInfo` and `getOtp` (src/client.ts:95-97, 116-118) are `apiRequest` on their endpoint. The handlers receive their outcomes as parameters (`info`, and `otp` per account id).
- The handlers receive the result of `listAccounts` as a parameter. No method composes the cache object with the handlers.
- `Date.now()` is not modelled. Its two readings in `listAccounts` are parameters.
- `JSON.stringify(..., null, 2)` text is not modelled. The payloads are records, so their whitespace and quoting are not captured.
- `Text.Lower`: lower-cases only the ASCII letters A-Z, whereas `toLowerCase` applies full Unicode case mapping.
- The zod input schemas and the `.uuid()` check on `account_id` run inside a library that is not part of this model.
- Nothing from `src/index.ts` is modelled:
  - server construction, tool registration and the stdio transport;
  - the start-up banner, `formatDate` and `process.exit`;
  - the per-tool `try/catch` that turns a propagated failure (`Raised`) into an `Error: …` text.
- Concurrent tool calls and the interleaving of their awaits are not modelled. Each operation runs as one sequential step.
- `OtherError` keeps only the message of a non-`Authn8Error` failure, which is the only part `validateToken` reads.
- HTTP statuses are natural numbers, and "OK" means 200-299, as `response.ok` does.
