# Verified model of vire-portal

vire-portal is the web front end of an investment service. This project models its most
intricate parts in Dafny 4.11 and proves properties of the model, over every input and every run:

- the in-memory **OAuth 2.1 authorization server**: client, session, code and refresh-token
  stores, each with a time to live and a table on vire-server that is written and read through
  (`Types`, `Stores`, `CodeSingleUse`, `Transparency`, `Handlers`, `History`, `Provenance`,
  `Sequential`, `OneShot`).
  It implements sections 4.1.2, 4.1.3 and 6 of RFC 6749, section 4.6 of RFC 7636 and section 3
  of RFC 7591;
- the **response cache** and the **API proxy** that uses it (`ResponseCache`, `CacheRuns`, `Proxy`);
- the **remote log store** (`LogStore`);
- **JWT** minting and the three validators, over base64url (`Base64`, `Jwt`);
- the **path templates** of catalog tools (`PathTemplate`, `TemplateCapture`);
- the browser's **single-flight data store** (`SingleFlight`);
- the dashboard's anomaly filter and breadth summary (`Charts`) and **money formatting** (`Money`).

`dafny verify dfyconfig.toml` checks everything.

## How it is modelled

State that the portal updates in place is a class whose methods follow the code step by step and
are proved against functions on values; the properties are then proved about those functions.
The clock, random values, SHA-256, HMAC, JSON and the outcome of each network call are parameters:
an `up`, `read`, `first` or `second` flag says whether a backend call goes through.

Interleavings are sequences of actions. An action is one stretch that the code runs under a lock
(or between two `await`s), with everything nondeterministic as its parameters, so "for every
sequence of actions" is "for every interleaving". An action that is not enabled changes nothing.

Four granularities occur. `CodeSingleUse` and `CacheRuns` split single calls where the code gives
up its lock; `Provenance` interleaves handlers at every store call, with a fallible backend and
restarts; `LogStore` and `SingleFlight` interleave whole critical sections with senders and
callbacks; `Sequential`, `OneShot` and `Proxy` run one handler call at a time. `Sequential` shows
that the handlers, as the class runs them, with cleanups and restarts between them, are among the
runs of `Provenance`, and `OneShot` builds on its runs.

## What the code does that its comments do not say

- `evictOldest` is described as removing the entry with the lowest index, but it never removes the
  empty key. `SetKeepsLimitExactlyWhen` gives the exact condition under which the size limit holds.
- Cache keys are built by joining user, method and URI with colons. The proxy is mounted at
  `/api/`. For URIs that begin with that, keys tell users apart exactly when no user id contains
  `:GET:/api/` after its first character; counting URIs that spell it with percent signs, too, it
  is enough that none contains `:GET:/` there. The results take what all URIs begin with as a
  parameter (`KeysAreInjective`, `AmbiguousExactlyWhenShared`).
- A forced refresh that is answered from the cache clears nothing; only requests that vire-server
  completes do. `HitsReplayTheSameRequest` is stated accordingly.
- `send` can split a buffer into several requests, but no drained buffer is ever larger than fifty
  entries, so it never does. A buffer that cannot be encoded, or whose request cannot be built, is
  dropped whole without a request (`OneRequestPerBuffer`, `EveryEntryIsInOnePlace`).
- Replacing path parameters one after another is simultaneous substitution, for all brace-free
  names and values, exactly in the templates that have no brace pair with only text and complete
  placeholders, at least one of them, in it (`AtOnceExactlyWhenCaptureFree`). In `{a{b}` nothing
  goes wrong; in `{a{b}{c}d}` filling `b` and `c` makes a new placeholder. The same templates are
  those in which the order of distinctly named parameters never matters
  (`OrderNeverMattersExactlyWhenCaptureFree`).
- The MCP and cookie validators ignore an expiry that is absent, zero or negative. The portal's
  validator refuses tokens whose expiry is absent or zero, and compares every other expiry, also a
  negative one, with the clock (`ValidatorsAgree`, `PortalIsStricter`).
- Spending a record erases it locally whatever becomes of the backend call. When that call fails,
  the record stays at the backend and can be spent again: a refresh token or a session at once, a
  code after a restart (`LostIsSpentAgain`). Otherwise everything is spent once
  (`EverythingIsSpentOnce`).

## Model

| member | source | states |
|---|---|---|
| Stores.ClientStore.Put | internal/auth/store.go:38-48 | the client is held locally under its id and, when the save goes through, in the remote table |
| Stores.ClientStore.Get | internal/auth/store.go:51-74 | the local record wins, else the backend's is returned and kept under its own id; errors and misses give nothing |
| Stores.SessionStore.Put | internal/auth/session.go:42-52 | write-through of a session |
| Stores.SessionStore.Get | internal/auth/session.go:55-84 | read-through of a session; only until ten minutes after its creation, though an expired one is still cached |
| Stores.SessionStore.Delete | internal/auth/session.go:87-97 | the session goes locally and, when the call goes through, remotely |
| Stores.SessionStore.GetByClientId | internal/auth/session.go:103-118 | whatever the order of the map walk, a newest unexpired session of the client, or none if there is none |
| Stores.NewestIsUnique | internal/auth/session.go:103-118 | with distinct creation times the walk order cannot change the answer |
| Stores.SessionStore.Cleanup | internal/auth/session.go:146-155 | exactly the unexpired sessions remain |
| Stores.CodeStore.Put | internal/auth/store.go:113-123 | write-through of a code |
| Stores.CodeStore.Get | internal/auth/store.go:126-155 | read-through of a code until its expiry |
| Stores.CodeStore.MarkUsed | internal/auth/store.go:158-170 | the used flag is set on the local copy, if any, and remotely when the call goes through |
| Stores.CodeStore.ClaimLocked | internal/auth/store.go:200-214 | under the lock: the code is handed out and marked used exactly when held, unexpired and unused |
| Stores.CodeStore.AdoptAndClaim | internal/auth/store.go:190-214 | after relocking, a copy cached meanwhile wins over the fetched one |
| Stores.CodeStore.ConsumeCode | internal/auth/store.go:175-223 | the whole undisturbed call, including the backend's used mark |
| Stores.CodeStore.Cleanup | internal/auth/store.go:233-242 | exactly the unexpired codes remain |
| Stores.TokenStore.Put | internal/auth/store.go:271-281 | write-through of a refresh token |
| Stores.TokenStore.Get | internal/auth/store.go:284-313 | read-through of a refresh token until its expiry |
| Stores.TokenStore.Delete | internal/auth/store.go:316-326 | the token goes locally and, when the call goes through, remotely |
| Stores.TokenStore.Cleanup | internal/auth/store.go:336-345 | exactly the unexpired tokens remain |
| CodeSingleUse.StepKeepsInv | internal/auth/store.go:113-242 | every critical section keeps: a handed-out code is held and used, or past its expiry |
| CodeSingleUse.CodesAreSingleUse | internal/auth/store.go:172-223 | in every interleaving, with any backend failures, no code is returned by two calls of ConsumeCode |
| CodeSingleUse.RefetchedCodeIsRefused | internal/auth/store.go:175-242 | a handed-out code that was swept and is fetched again as unused is refused, because it has expired |
| CodeSingleUse.ExpiryMustBeReportedFaithfully | internal/auth/store.go:190-213 | with a backend that postpones the expiry, a code is handed out twice: the one assumption is needed |
| Transparency.CoupledAfter | internal/auth/store.go:38-223 | local copies stay among the remote rows, and the rows are what a plain map would hold |
| Transparency.RestartsAreTransparent | internal/auth/store.go:38-326 | with a working backend the four stores answer every sequence of operations, restarts and cleanups as plain maps answer the operations alone |
| Transparency.NewestAmongLive | internal/auth/session.go:103-118 | the newest-session scan cannot tell whether expired sessions were removed |
| Transparency.CleanupIsUnobservable | internal/auth/store.go:233-345 | without a backend and with a clock that never runs backwards, cleanups inserted anywhere leave the same answers possible |
| Handlers.OAuthServer.HandleRegister | internal/auth/dcr.go:31-73 | redirect URIs are required, defaults are filled in, and the new client is stored |
| Handlers.OAuthServer.HandleAuthorize | internal/auth/authorize.go:96-141 | validation in the code's order, then the creation of a session |
| Handlers.OAuthServer.CreateAuthSession | internal/auth/authorize.go:169-210 | lookup or auto-registration of the client, redirect URI check, default scope, new session |
| Handlers.OAuthServer.CompleteAuthorization | internal/auth/server.go:56-89 | an unexpired session is traded for a code that copies its client, redirect URI, challenge and scope |
| Handlers.OAuthServer.HandleAuthCodeGrant | internal/auth/token.go:33-95 | the code is consumed first; client, redirect URI and verifier must match before tokens are issued |
| Handlers.OAuthServer.HandleRefreshTokenGrant | internal/auth/token.go:97-149 | the token must be live and the client's; it is deleted before the next one is stored |
| Pkce.OnlyCollidingVerifiersPass | internal/auth/pkce.go:10-20 | a verifier passes another verifier's challenge exactly when their hashes are equal |
| History.FindLineage | internal/auth/token.go:117-138 | every grant has a chain of rotations ending at a code exchange |
| History.LineageKeepsSubject | internal/auth/token.go:66-138 | rotation keeps user, client and scope, in refresh and access tokens |
| History.Trace | internal/auth/token.go:33-149 | in a well-formed history every grant goes back to one code that was marked used when it was exchanged, one session, one authorize request and one client record |
| Provenance.AuthorizeKeeps | internal/auth/authorize.go:169-210 | every step of registration, authorize and login completion keeps all held records on record |
| Provenance.TokenKeeps | internal/auth/token.go:33-149 | every step of the token endpoint keeps all held records on record |
| Provenance.EveryGrantHasProvenance | internal/auth/token.go:33-149 | in every run, interleaved at store calls, with a fallible backend and restarts, every token traces back to a matching exchange and an S256 authorize request whose redirect URI its client record listed |
| Provenance.EveryHeldTokenWasGranted | internal/auth/store.go:271-313 | whatever refresh token a store holds was granted in the run |
| Sequential.CallIsARun | internal/auth/token.go:33-149 | one call of any handler, with any network outcomes, or a cleanup or a restart, is a short run of the interleaved server and leaves only records of the run in the remote tables |
| Sequential.CallsAreARun | internal/auth/server.go:56-89 | any sequence of handler calls, cleanups and restarts is a run of the interleaved server |
| Sequential.HandlersGrantWithProvenance | internal/auth/server.go:32-52 | so every token the handlers grant, with or without a backend, has its provenance |
| Sequential.ChainsAreBounded | internal/auth/token.go:78-138 | with or without a backend, for any network outcomes and any clock readings, one for each call: the k-th token of a chain is granted within 10 minutes + 5 minutes + k times 7 days of its session, and its access token lasts exactly one hour |
| OneShot.CallIsFair | internal/auth/token.go:33-149 | a call of any handler spends only what a store or the backend holds, and what it spends stays held exactly when the backend has it and the call that should erase or mark it there fails |
| OneShot.FairStep | internal/auth/server.go:56-89 | an outcome that spends what is held, and lets nothing spent come back, keeps the ledger |
| OneShot.EverythingIsSpentOnce | internal/auth/token.go:97-149 | one handler at a time, with or without a backend, with cleanups and restarts, any clock and random values that do not repeat: while nothing spent is lost at the backend, a session yields at most one code, a code at most one first token, and a refresh token string is redeemed at most once |
| OneShot.NoBackendLosesNothing | internal/auth/store.go:316-326 | without a backend nothing spent is ever lost, so there the above holds of every run |
| OneShot.LostIsSpentAgain | internal/auth/store.go:316-326 | the condition is exact: after any call that loses what it spends, the run can go on so that the same session, code or refresh token is spent a second time |
| OneShot.SameRoot | internal/auth/token.go:117-138 | of two rotation chains from one code, one is the tail of the other |
| OneShot.OneLiveTokenPerCode | internal/auth/token.go:97-149 | in such runs, at any moment, a code has at most one descendant refresh token that a store or the backend holds |
| CacheQueue.KeepMembers | internal/cache/cache.go:99-108 | invalidation keeps exactly the entries whose key does not match |
| ResponseCache.RepresentsIsDistinct | internal/cache/cache.go:27-33 | the queue a cache stands for has no key twice |
| ResponseCache.Cache.Peek | internal/cache/cache.go:51-57 | the read section returns the key's slot, or nothing if it has none |
| ResponseCache.Cache.DropIfExpired | internal/cache/cache.go:61-65 | the second section removes the key's current entry only if that one is expired |
| ResponseCache.Cache.Get | internal/cache/cache.go:50-70 | a hit exactly while unexpired; an expired entry goes |
| ResponseCache.Cache.Set | internal/cache/cache.go:73-96 | the key's slot moves to or enters the end of the queue, evicting the head when full |
| ResponseCache.Cache.EvictOldest | internal/cache/cache.go:111-125 | whatever the order of the map walk, exactly the head of the queue goes, unless its key is empty |
| ResponseCache.Cache.InvalidatePrefix | internal/cache/cache.go:99-108 | all entries whose key contains the path go, the others keep their order |
| CacheRuns.StepKeeps | internal/cache/cache.go:50-125 | every section keeps the queue duplicate-free, ordered by expiry, within its limit and in agreement with the log |
| CacheRuns.SizeIsBounded | internal/cache/cache.go:84-95 | in every run with non-empty keys the size is at most max(1, maxEntries) |
| CacheRuns.SetKeepsLimitExactlyWhen | internal/cache/cache.go:84-125 | for any key, one Set keeps the limit exactly when the key was held, there was room, or the oldest key is not empty |
| CacheRuns.HitsAreTheLatestWrite | internal/cache/cache.go:50-108 | in every interleaving a hit is the last value set for its key before the read, at most one TTL old, not invalidated in between |
| CacheRuns.EvictionSparesTheLiving | internal/cache/cache.go:90-125 | only the head is evicted, and a live head only when every entry is live |
| CacheRuns.RelockSparesTheLiving | internal/cache/cache.go:59-67 | in every interleaving the second section of Get removes only its own key, and only if expired by then |
| Proxy.KeysAreInjective | internal/cache/cache.go:45-47 | for any methods and for URIs with any common beginning, such as `/api/`, a key determines user, method and URI, unless one user id reads like the other one followed by a method and that beginning |
| Proxy.AmbiguousUsersCollide | internal/cache/cache.go:45-47 | every such user id shares a key, for each of its URIs, with a shorter, non-empty user id and a URI with the common beginning |
| Proxy.AmbiguousExactlyWhenShared | internal/cache/cache.go:45-47 | so the condition is exact: a user id is ambiguous if and only if one of its requests has the key of a request of a shorter user id |
| Proxy.AmbiguousHasColon | internal/cache/cache.go:45-47 | a user id without a colon is unambiguous |
| Proxy.Server.HandleApiProxy | internal/server/routes.go:123-221 | internal paths are refused, hits are replayed, failures are 503 or 502, answers are relayed after they have been learned from |
| Proxy.Server.Learn | internal/server/routes.go:189-211 | successful signed-in GET answers of cacheable size are stored; forced refreshes and writes clear their path |
| Proxy.HitsReplayTheSameRequest | internal/server/routes.go:135-211 | over every run of requests whose URIs have a common beginning, such as `/api/`, and whose user ids are unambiguous for it, a hit replays the response fetched for the same user and URI, at most one TTL ago, with no completed signed-in write or forced refresh since whose path occurs in the key |
| LogStore.HttpLogStore.Store | internal/client/log_store.go:65-85 | an open store accepts the entry and drains at fifty; a closed one refuses |
| LogStore.HttpLogStore.TimerFlush | internal/client/log_store.go:108-116 | drains unless closed |
| LogStore.HttpLogStore.FlushLocked | internal/client/log_store.go:119-126 | a non-empty buffer is handed over whole |
| LogStore.HttpLogStore.Close | internal/client/log_store.go:165-177 | closes, empties the buffer and leaves its content to send |
| LogStore.HttpLogStore.Send | internal/client/log_store.go:129-162 | one request for each batch of the input, in order, without the batches that cannot be encoded or whose request cannot be built |
| LogStore.BatchesAreFull | internal/client/log_store.go:130-135 | the batches are non-empty, of at most 500 entries, all but the last full, and concatenate to the input |
| LogStore.NothingIsLost | internal/client/log_store.go:65-177 | in every interleaving drained buffers then the buffer are the accepted sequence; the buffer stays below fifty and is empty once closed |
| LogStore.ClosedForGood | internal/client/log_store.go:165-177 | after a close nothing more is accepted, drained or buffered |
| LogStore.OneRequestPerBuffer | internal/client/log_store.go:118-162 | every drained buffer is gone through whole, as one batch, at most once, and exactly once when its sender has run: posted in one request if a request can be made for it, and dropped otherwise |
| LogStore.EveryEntryIsInOnePlace | internal/client/log_store.go:65-177 | every accepted entry is in exactly one of the requests made, the batches dropped because no request could be made, the buffers waiting, and the buffer under the lock |
| Base64.DecodeEncode | internal/auth/server.go:96-117 | base64url decoding undoes encoding, for every byte string |
| Base64.EncodeIsInjective | internal/auth/pkce.go:16-20 | different byte strings have different encodings |
| Base64.EncodeAlphabet | internal/auth/server.go:96-117 | an encoding uses only the 64 symbols, so no dot |
| Jwt.MintedTokenOpens | internal/auth/server.go:93-120 | a minted token has exactly three parts and opens, with its secret, to its claims |
| Jwt.AccessTokensAreAccepted | internal/auth/server.go:93-120 | minted at any time, an access token is read back as it was minted, by the MCP and cookie validators until its expiry or if that is not positive, by the portal's until its expiry if that is not zero |
| Jwt.LoopbackTokensAreAccepted | internal/mcp/get_page.go:99-127 | the same for loopback tokens, which last thirty seconds |
| Jwt.ValidatorsAgree | internal/mcp/handler.go:345-385 | on every token: what the MCP or the portal validator accepts, the cookie reader accepts with the same subject; the MCP validator refuses more exactly for its own mistyped fields, the portal's exactly for its own and for an expiry that is absent, zero or past |
| Jwt.PortalIsStricter | internal/handlers/auth.go:34-77 | on well-typed tokens the MCP and cookie validators agree, and the portal's differs from them exactly on tokens whose expiry is zero, or negative and past |
| PathEscape.UnescapeEscape | internal/mcp/catalog.go:157 | unescaping an escaped argument gives it back |
| PathEscape.EscapeIsClean | internal/mcp/catalog.go:157 | an escaped argument has no brace, slash or question mark |
| PathTemplate.ReplaceIsSimultaneous | internal/mcp/catalog.go:157 | one ReplaceAll is the simultaneous substitution of one name |
| PathTemplate.ExpandIsSimultaneous | internal/mcp/catalog.go:146-157 | on templates in which no brace pair encloses only text and placeholders, replacing parameters in sequence fills all placeholders at once |
| TemplateCapture.CapturedGoesWrong | internal/mcp/catalog.go:157 | for every other template there are distinctly named parameters for which replacing in sequence fills a placeholder that the template does not have |
| TemplateCapture.AtOnceExactlyWhenCaptureFree | internal/mcp/catalog.go:146-157 | so sequential replacement is simultaneous substitution, for all brace-free names and values, exactly on the former templates |
| PathTemplate.OrderDoesNotMatter | internal/mcp/catalog.go:146-157 | on the former templates the order of distinctly named parameters does not matter |
| TemplateCapture.CapturedOrderMatters | internal/mcp/catalog.go:146-157 | every other template has distinctly named parameters that give different paths in two orders |
| TemplateCapture.OrderNeverMattersExactlyWhenCaptureFree | internal/mcp/catalog.go:146-157 | so the order of distinctly named parameters never matters exactly on the former templates |
| PathTemplate.SlashesAreKept | internal/mcp/catalog.go:157 | replacing slash-free names by slash-free values keeps the number of slashes, however the braces are nested |
| PathTemplate.ExpandPath | internal/mcp/catalog.go:142-157 | the first required path parameter without a value is reported, otherwise the parameters are replaced in sequence, which fills the template at once when nothing is captured |
| PathTemplate.FilledPathIsFaithful | internal/mcp/catalog.go:142-157 | a filled path has the template's slashes when the names filled in have none, and each value in it unescapes to its argument |
| SingleFlight.VireStore.Fetch | pages/static/common.js:127-152 | cached response, join, or a new request registered as in flight |
| SingleFlight.VireStore.OnResponse | pages/static/common.js:141-147 | a good response is cached for the TTL and the request is no longer in flight |
| SingleFlight.VireStore.OnError | pages/static/common.js:147-150 | a failed request is no longer in flight and caches nothing |
| SingleFlight.VireStore.Invalidate | pages/static/common.js:156-162 | exactly the cached URLs with the prefix go |
| SingleFlight.OneRequestPerUrl | pages/static/common.js:127-152 | in every interleaving a URL is in flight exactly when one request for it is outstanding, never two |
| SingleFlight.CallersGetTheirResponse | pages/static/common.js:127-152 | every caller gets the result of a request for its own URL; a hit is a good response less than one TTL old |
| SingleFlight.WaitingEndsWithItsRequest | pages/static/common.js:134-138 | a waiting caller is only ever given the result of the request it joined |
| Anomalies.FilterAnomalies | pages/static/common.js:562-579 | the loop computes the held-back sequence |
| Anomalies.OutputIsCalm | pages/static/common.js:562-579 | every output value is within half of a positive predecessor; length, dates and first point are kept |
| Anomalies.UnchangedExactlyWhenCalm | pages/static/common.js:562-579 | the filter changes nothing exactly when there is no jump |
| Anomalies.FilteringTwiceIsFilteringOnce | pages/static/common.js:562-579 | the filter is idempotent |
| Anomalies.GrowthIsBounded | pages/static/common.js:562-579 | from a positive start a the i-th value is between a·0.5^i and a·1.5^i |
| Breadth.ComputeBreadth | pages/static/common.js:931-969 | nothing without active holdings, else the counts, weights, mean score, label and today's change of the active holdings |
| Breadth.Accumulate | pages/static/common.js:934-950 | the loop's accumulators are the sums over the active holdings |
| Breadth.BreadthAddsUp | pages/static/common.js:931-969 | the three counts of the summary add up to the active holdings and its three percentages to 100 |
| Breadth.ScoreIsBetween | pages/static/common.js:951 | the score of the summary lies between any bounds on the active trend scores |
| Breadth.BreadthSegments | pages/static/common.js:970-994 | one segment for each active holding, sorted by status then ticker; per status their weights add up to the summary's weight |
| Money.SplitRounding | internal/vire/common/format.go:17-22 | rounding the fraction separately and carrying at 100 cents is rounding the amount half-up |
| Money.GroupsOfThree | internal/vire/common/format.go:25-33 | a first group of one to three digits, every later group of exactly three |
| Money.Separate | internal/vire/common/format.go:24-33 | the loop joins exactly those groups with commas |
| Money.FormatMoney | internal/vire/common/format.go:12-39 | sign exactly for negative amounts, dollar sign, grouped dollars, two-digit cents of the rounded amount |
| Money.FormatMoneyWithCurrency | internal/vire/common/format.go:71-99 | the same with the currency's symbol |
| Money.FormattedMoneyReadsBack | internal/vire/common/format.go:12-99 | for every amount the text reads back as the amount rounded half-up to cents, with its sign |

## Left out

- HTTP plumbing, cookies, templates, redirects and response writing: only the effect of each handler on the stores and its decision are modelled.
- The redirect URL that `CompleteAuthorization` builds: string assembly after the stores have changed.
- `GET /authorize` with a logged-in user is an authorize followed by a completion; the two are separate calls in the model.
- The backend fallback of `GetByClientID`: only its caching of the session occurs, as the step `FindSession` of `Provenance`.
- Stores.SessionStore.GetByClientId: models the local scan, not the backend call after an empty scan.
- Transparency.RestartsAreTransparent: excludes the newest-session scan, which answers from local sessions first.
- Concurrent completions of one session or concurrent refreshes of one token: the code composes separate store calls, so one-shot use is claimed one handler at a time.
- Whether vire-server takes a request of the log store: a batch counts as posted once its request is made.
- Several portal instances sharing one backend: this depends on vire-server.
- The record fields `AuthSession.UserID` and the log output of the stores: nothing reads them.
- Wrap-around of the 64-bit insertion index of the cache.
- The configuration error and the request-building error of the API proxy.
- Percent-encoded paths in cache invalidation: results speak of the literal path string and the literal key.
- JSON, SHA-256, HMAC and random number generation: parameters; JSON's case-insensitive field names and number ranges are not modelled.
- Resolving parameter values, query strings and request bodies of catalog tools, and `ValidateCatalog`: they would only add easy members.
- PathTemplate.ExpandIsSimultaneous: stated for parameter names without braces; a name with braces is not the name of any placeholder.
- Locale collation of tickers is a ranking parameter of `BreadthSegments`; the library sort is an insertion sort.
- Floating-point rounding: amounts, weights and chart values are reals. `FormatMoney` takes amounts up to the largest 64-bit integer, which every double below 2^63 meets.
- Upper-casing of non-ASCII currency codes.
- Configuration, seeding, page handlers, MCP transport and tool registration, charts and the remaining browser code: wrappers over libraries or easy properties.
