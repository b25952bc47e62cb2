# TestFlow test management: the request-handling rules in Dafny

TestFlow is a Next.js web application for QA teams. It keeps projects, test cases with
their steps, test suites, test executions and defects in PostgreSQL. It caches some
listings in a Redis-compatible key-value store and rate-limits some routes through the same
store. Users sign in with a JWT kept in a cookie. Their role decides what they may do:
`admin`, `test-lead`, `tester` or `read-only`.

This project models the rules that surround the database and cache calls:

- the string sanitisers and validators of `lib/security.tsx`;
- the session, role and gate logic of `lib/auth.ts`, `lib/api-middleware.ts` and `proxy.ts`;
- the TTL cache of `lib/redis.ts` and the fixed-window rate limiter of `lib/rate-limit.ts`;
- the API route handlers for test cases (list, create, bulk), executions, defects, test
  suites, projects, analytics, registration and sign-in;
- the client-side rules of the sidebar, the test-case table and the virtual test list.

It proves their properties. The modules follow the source files one to one. A few shared
modules hold what several files use:

- `Types`: the enumerations of `lib/types.ts`, `Option` and `Result`;
- `Json`: JSON values and the `NextResponse.json` response;
- `Text`: JavaScript `trim`, character removal, case mapping and number rendering;
- `SqlQuery`: the `$n` placeholder query builder;
- `Store`: the tables the handlers write;
- `Handler`: what the route handlers share.

How the state is represented:

- **Cache and rate limiter.** Each is a class over a map with an abstract clock in seconds.
  The cache's `available` flag says whether the store answers. Each rate-limit call takes
  the number of its store commands that are answered before one throws.
- **Database.** A class holding one `Table` object per written table. Each table has its
  own id sequence.
- **Listing SELECTs.** These, with their joins and aggregates, go to an uninterpreted
  `engine` that answers a query or fails, and every query put to it is logged.
- **Cryptography and the session cookie.** bcrypt hashing and checking, and JWT signing and
  verification, are function parameters. The response's cookie store is a `CookieJar` object.

## Model

| member | source | states |
|---|---|---|
| Security.SanitizeHtmlChar | lib/security.tsx:4-9 | a single character passes through the six replacements to exactly its own entity; later replacements never touch an entity an earlier one produced |
| Security.SanitizeHtmlConcat | lib/security.tsx:2-10 | escaping a concatenation is the concatenation of the escapings |
| Security.SanitizeHtmlIsEscapeEach | lib/security.tsx:2-10 | the chain of six global replacements, `&` first, equals escaping every character independently (the reference definition) |
| Security.SanitizeHtmlHasNoMarkup | lib/security.tsx:5-9 | the output holds no raw `<`, `>`, `"`, `'` or `/` |
| Security.SanitizeHtmlAmpersands | lib/security.tsx:3-9 | every `&` in the output begins one of the six entities |
| Security.UnescapeEntity | lib/security.tsx:4-9 | decoding an entity followed by any text gives the escaped character followed by the decoding of that text |
| Security.SanitizeHtmlRoundTrip | lib/security.tsx:2-10 | decoding the escaped text gives the input back |
| Security.SanitizeHtmlInjective | lib/security.tsx:2-10 | distinct inputs never escape to the same output |
| Security.SanitizeHtmlPlain | lib/security.tsx:2-10 | escaping never shortens, and text without `& < > " ' /` is returned unchanged |
| Security.SanitizeInput | lib/security.tsx:13-16 | no `;`, `'`, `"` or backslash remains in the output |
| Security.SanitizeInputKeeps | lib/security.tsx:13-16 | every other character is kept as often as it occurs, and the removal works piecewise, so order is kept |
| Security.SanitizeInputIdempotent | lib/security.tsx:13-16 | sanitising twice equals sanitising once |
| Security.EmailMatchesPattern | lib/security.tsx:19-22 | the computed test accepts exactly the strings the pattern `^[^\s@]+@[^\s@]+\.[^\s@]+$` matches: one `@`, no white space, a non-empty local part, and a dot in the domain that is neither first nor last |
| Security.ValidEmailIsTrimmed | lib/security.tsx:19-22 | a valid address has no outer white space, so trimming it changes nothing |
| Security.BrokenMembers | lib/security.tsx:31-42 | the reported rules are exactly the ones the password breaks, at most as many as were checked |
| Security.BrokenRules | lib/security.tsx:31-42 | the broken rules come in check order, each once, and a broken first rule is reported first |
| Security.NoBrokenRules | lib/security.tsx:44-47 | no rule is reported exactly when the password meets all four |
| Security.ReportRule | lib/security.tsx:31-42 | one check appends the rule's message exactly when the password breaks the rule |
| Security.IsValidPassword | lib/security.tsx:25-48 | the errors are the messages of the broken rules in the order length, uppercase, lowercase, digit; `valid` holds iff every rule is met; a password shorter than 8 reports the length rule first |
| Security.MissingMessagesCount | lib/security.tsx:51-67 | at most one error per field, and none exactly when no field is absent, falsy or blank |
| Security.ValidateRequired | lib/security.tsx:51-67 | the loop yields one message per missing field, in field order; `valid` holds iff no field is missing; the error count is at most the number of fields |
| Text.Trim | lib/security.tsx:21 | the result is the input with its leading and trailing white space cut off: an infix with only white space around it, that neither starts nor ends with white space, and the input itself when it holds none |
| Text.Remove | app/api/test-cases/route.ts:168 | `replace(/[..]/g, "")` leaves no removed character, keeps text without one unchanged and never lengthens |
| Text.RemoveCounts | app/api/test-cases/route.ts:168 | every character outside the removed set survives as often as it occurs |
| Text.SanitizeText | app/api/test-cases/route.ts:168 | the route sanitiser's output holds no angle bracket and is no longer than its input |
| Text.SanitizeTextKeeps | app/api/test-cases/route.ts:168 | every character of the trimmed text other than `<` and `>` survives as often as it occurs |
| Text.SanitizeTextOrder | app/api/test-cases/route.ts:168 | the sanitiser works piece by piece on the trimmed text, so what survives keeps its order |
| Text.SanitizeOptional | app/api/test-cases/route.ts:169 | an absent value stays null, an empty result becomes null, any other result is the plain sanitiser's |
| Text.TrimOptional | app/api/projects/route.ts:117 | an absent value or a blank one becomes null, anything else is trimmed |
| Text.ToLower | app/api/auth/login/route.ts:21 | same length, each letter lower-cased in place |
| Text.ParseNatToString | app/api/analytics/route.ts:112 | `parseInt` of a rendered count gives the count back |
| Text.JoinInjective | app/api/test-cases/route.ts:29 | joining parts that hold no separator loses nothing: equal joins mean equal parts |
| Types.ParseRole | lib/types.ts:6 | a role is recognised exactly by its name |
| Types.RoleNameRoundTrip | lib/types.ts:6 | parsing a role's name gives the role back, so roles have distinct names |
| Types.ParsePriority | lib/types.ts:37 | a priority is recognised exactly by its name |
| Types.ParseExecutionStatus | lib/types.ts:74 | an execution status is recognised exactly by its name |
| Json.OrNull | app/api/defects/route.ts:74-75 | an absent body field is bound as NULL, a present one as itself |
| Json.TextOrNull | app/api/defects/route.ts:74-80 | an absent text column is JSON null, a present one the string itself |
| Json.Default | app/api/defects/route.ts:57 | a destructuring default applies only when the field is absent |
| Json.ErrorResponse | lib/api-middleware.ts:19 | `{ error: message }` with the given status and no other key |
| Json.ReadCount | app/api/analytics/route.ts:112-113 | a missing, null or empty count reads as 0; a number or a digit string reads as its value |
| Json.Cell | app/api/analytics/route.ts:112 | `rows[0]?.column` is absent without a first row or without that column |
| Json.RowsJson | app/api/defects/route.ts:45 | the result rows become a JSON array of the same length, row by row |
| Cache.Visible | lib/redis.ts:23-30 | `get` sees a stored value until its expiry and nothing afterwards |
| Cache.Stored | lib/redis.ts:32-38 | `set` with a positive ttl stores the value with that expiry; a non-positive ttl is an error that `set` swallows |
| Cache.WithoutPrefix | lib/redis.ts:48-57 | exactly the keys matching `prefix*` are gone, and every other entry is kept as it was |
| Cache.SetThenGet | lib/redis.ts:23-38 | after `set(k, v, t)`, `get(k)` returns v until t seconds have passed and null afterwards; other keys read as before |
| Cache.DelPatternReads | lib/redis.ts:48-57 | after `delPattern`, matching keys read as null and every other read is unchanged |
| Cache.DelPatternIdempotent | lib/redis.ts:48-57 | invalidating twice is invalidating once, and with no matching key nothing changes |
| Cache.RedisCache.constructor | lib/redis.ts:6-19 | an empty store at the given time, answering or not |
| Cache.RedisCache.Get | lib/redis.ts:23-30 | the live value, or null when the store does not answer |
| Cache.RedisCache.Set | lib/redis.ts:32-38 | stores as `Stored` says when the store answers, otherwise changes nothing |
| Cache.RedisCache.Del | lib/redis.ts:40-46 | removes only the key when the store answers, otherwise changes nothing |
| Cache.RedisCache.DelPattern | lib/redis.ts:48-57 | removes exactly the matching keys when the store answers, otherwise changes nothing |
| RateLimit.Key | lib/rate-limit.ts:19 | the key is `rate_limit:` followed by the identifier |
| RateLimit.KeyInjective | lib/rate-limit.ts:19 | different identifiers never share a counter |
| RateLimit.Live | lib/rate-limit.ts:22 | an expired counter is absent from the store |
| RateLimit.Incremented | lib/rate-limit.ts:22 | `INCR` adds one and keeps the expiry; an absent key starts at 1 with no expiry |
| RateLimit.Remaining | lib/rate-limit.ts:29 | `max(0, limit - count)`: never negative, never above the limit |
| RateLimit.RateLimiter.constructor | lib/rate-limit.ts:15-22 | no counters yet at the given time |
| RateLimit.Step | lib/rate-limit.ts:19-35 | one call increments only its own counter, gives a counter at 1 the window's expiry, and admits iff the new count is at most the limit |
| RateLimit.FailOpen | lib/rate-limit.ts:36-40 | on a store error the call is admitted with the full allowance |
| RateLimit.Run | lib/rate-limit.ts:15-41 | a series of calls yields one outcome per call |
| RateLimit.RunWithinWindow | lib/rate-limit.ts:22-33 | inside a live window whose count stands at c, the i-th further call is admitted iff c + i + 1 is at most the limit |
| RateLimit.FreshWindow | lib/rate-limit.ts:22-33 | from no live counter, calls 1..limit inside the window pass and every later call in it is refused |
| RateLimit.WindowRestarts | lib/rate-limit.ts:22-26 | after the window expires the next call counts 1, gets a fresh window, and passes with any positive limit |
| RateLimit.SixthAuthAttemptRefused | lib/rate-limit.ts:9 | under the auth config, five quick calls pass and the sixth is refused |
| RateLimit.RateLimiter.Incr | lib/rate-limit.ts:22 | the key's counter becomes `Incremented` of its live value; nothing else changes |
| RateLimit.RateLimiter.Expire | lib/rate-limit.ts:25 | the key keeps its count and now expires after the given seconds |
| RateLimit.RateLimiter.Ttl | lib/rate-limit.ts:28 | the seconds left on the key |
| RateLimit.RateLimiter.RateLimit | lib/rate-limit.ts:15-41 | the counters and outcome are those of `Call` for the number of store commands answered: `Step` when all are, otherwise fail-open with the changes the answered commands made; every counter has been incremented |
| RateLimit.Call | lib/rate-limit.ts:21-40 | no command answered leaves the counters alone and fails open; all answered is `Step`; only the caller's counter changes; a refusal only comes from a fully answered call, and any other outcome is fail-open |
| RateLimit.ExpireFailureStrands | lib/rate-limit.ts:22-26 | when EXPIRE throws after the INCR that started a counter, the call is admitted and the counter stays at 1 with no window |
| RateLimit.RunWithoutWindow | lib/rate-limit.ts:22-32 | a counter without a window never resets: at any later times the i-th further call is admitted iff count + i + 1 is at most the limit |
| RateLimit.ExpireFailureLocksOut | lib/rate-limit.ts:22-39 | after such a stranded counter, the identifier gets limit - 1 more calls and is refused from then on, however much time passes |
| RateLimit.RateLimitAsWritten | lib/rate-limit.ts:1 | as written, every call takes the error path and fails open |
| RateLimit.AsWrittenNeverRefuses | lib/rate-limit.ts:1 | as written, call limit + 1 in one window is admitted, while the intended limiter refuses it |
| Auth.TokenClaims | lib/auth.ts:29-41 | the signed claims carry exactly the user's id, email, full name and role, and the token expires when the cookie does (7 days) |
| Auth.VerifyToken | lib/auth.ts:44-51 | any verification error becomes null; success yields the claims |
| Auth.GetCurrentUser | lib/auth.ts:54-73 | no cookie, an empty cookie or a failed verification gives null; otherwise the claims' id, email, full name and role |
| Auth.SessionRoundTrip | lib/auth.ts:29-73 | a token minted for a user and accepted by the verifier makes that user the current user |
| Auth.HasRole | lib/auth.ts:94-97 | false without a user; otherwise true iff the user's role name is among the allowed roles |
| Auth.NoRoleImpliesAnother | lib/auth.ts:96 | allowing one role admits that role and no other |
| Auth.CookieJar.constructor | lib/auth.ts:76-85 | no session cookie yet; `secure` follows the production flag |
| Auth.CookieJar.TokenValue | lib/auth.ts:56 | the next request presents a token iff the cookie is set |
| Auth.CookieJar.SetAuthCookie | lib/auth.ts:76-85 | the `token` cookie holds the value, HTTP-only, secure in production, lax, max-age 604800 s, path `/` |
| Auth.CookieJar.ClearAuthCookie | lib/auth.ts:88-91 | the `token` cookie is gone |
| Middleware.Authorize | lib/api-middleware.ts:14-40 | no user gives 401; `requireAuth` admits any user; `requireRole` admits a user with an allowed role and gives 403 to anyone else |
| Middleware.RequireAuth | lib/api-middleware.ts:14-27 | no user gives 401 without running the handler; otherwise the handler's response for that user, unchanged |
| Middleware.WrappersFollowGate | lib/api-middleware.ts:14-40 | both wrappers are the gate followed by the handler: signed out gives 401 (never 403), a wrong role 403, an allowed role the handler's own response |
| Middleware.GateMonotone | lib/api-middleware.ts:30-37 | widening the allowed roles never turns an admitted caller away |
| Middleware.RequireAuthAsWritten | lib/api-middleware.ts:14-27 | as declared (`async`), `requireAuth(handler)` is a promise, not a handler; it resolves to the intended wrapper |
| Middleware.RequireRoleAsWritten | lib/api-middleware.ts:29-39 | `requireRole(roles)(handler)` returns `requireAuth(...)`, so it too is a promise resolving to the role-checking wrapper |
| Proxy.Gate | proxy.ts:5-33 | public paths continue; otherwise no token redirects to /login, a failing token redirects and deletes the cookie, a valid one continues |
| Proxy.GateAgreesWithCurrentUser | proxy.ts:16-32 | off the public paths, a page is served exactly when the API would see a signed-in user |
| Proxy.PublicIsExact | proxy.ts:9-11 | only `/login`, `/register` and `/` are public: `/login/x` is not |
| Handler.Listing | app/api/defects/route.ts:43-48 | a listing answers 200 with exactly the one key holding the rows, or 500 when the query threw |
| Handler.Served | app/api/test-suites/route.ts:18-21 | a read-through handler serves the live cached value only when it is truthy |
| Handler.Cached | app/api/test-suites/route.ts:18-21 | what the handler reads from the cache object is always a truthy value |
| Handler.ServedAfterStore | app/api/test-suites/route.ts:18-35 | a value just stored is served until its ttl runs out, and not at all once its family is invalidated |
| Handler.CountersSurviveInvalidation | app/api/executions/route.ts:102-103 | no invalidated family is a prefix of a rate-limit key, so invalidation never resets a limiter |
| Handler.SanitisedHasNoAngles | app/api/test-cases/route.ts:168-169 | sanitised titles, names and descriptions never hold an angle bracket |
| Handler.SanitizeTextKeepsClean | app/api/test-cases/route.ts:168 | already-clean text passes the sanitiser unchanged |
| Store.Ids | app/api/test-cases/bulk/route.ts:18 | the ids of the rows, in table order |
| Store.Keep | app/api/test-cases/bulk/route.ts:17-18 | a delete never adds rows |
| Store.KeepMembers | app/api/test-cases/bulk/route.ts:17-18 | a row survives `DELETE ... WHERE id = ANY(ids)` iff it was there and its id is not listed |
| Store.KeepBelow | app/api/test-cases/bulk/route.ts:17-18 | deleting never introduces an id |
| Store.KeepAscending | app/api/test-cases/bulk/route.ts:17-18 | deleting keeps the ids ascending |
| Store.Apply | app/api/test-cases/bulk/route.ts:25-51 | an update keeps every row in place with its id, rewrites the listed rows and leaves the others as they were |
| Store.Table.Insert | app/api/test-cases/route.ts:172-182 | the row is appended with the next id, which is above every existing id |
| Store.Table.DeleteWhere | app/api/test-cases/bulk/route.ts:17-18 | the rows become `Keep` of the old rows; the id sequence is unchanged |
| Store.Table.UpdateWhere | app/api/test-cases/bulk/route.ts:25-51 | the rows become `Apply` of the old rows; the id sequence is unchanged |
| Store.Table.First | app/api/auth/register/route.ts:42-45 | a lookup finds a matching row, or none exists |
| Store.FirstOf | app/api/auth/login/route.ts:23-29 | the first row of a `WHERE` lookup matches and is in the table; none is found iff no row matches |
| Store.Database.Select | app/api/defects/route.ts:43 | the query is logged and answered by the engine, or fails when the database is down |
| SqlQuery.QueryBuilder.constructor | app/api/test-cases/route.ts:36-49 | the base SELECT, no values, `paramIndex` 1 |
| SqlQuery.QueryBuilder.Append | app/api/test-cases/route.ts:81 | `query += text` leaves the values and the index alone |
| SqlQuery.QueryBuilder.Bind | app/api/test-cases/route.ts:51-55 | a clause with placeholder `$paramIndex`, its value pushed, the index advanced, and every placeholder still bound |
| SqlQuery.QueryBuilder.BindSearch | app/api/test-cases/route.ts:69-73 | the search clause uses one placeholder twice and binds one value |
| SqlQuery.QueryBuilder.AddFilter | app/api/test-cases/route.ts:51-79 | a filter's clause with the next placeholder and its value |
| SqlQuery.QueryBuilder.AddOptional | app/api/test-cases/route.ts:51-55 | a filter turned on extends the clauses and values by exactly that filter; one turned off changes nothing |
| SqlQuery.QueryBuilder.Build | app/api/test-cases/route.ts:84 | the query handed to the driver uses exactly the placeholders `$1 .. $n` for its n values |
| SqlQuery.NumberedRange | app/api/test-cases/route.ts:48-81 | placeholders numbered in steps of 0 or 1 are exactly `$1 .. $n` |
| SqlQuery.WellNumberedBinds | app/api/test-cases/route.ts:48-82 | every placeholder used has a value and every value has a placeholder |
| SqlQuery.ClausesNumbered | app/api/test-cases/route.ts:51-79 | the filters' clauses use `$1 .. $k`, one number per filter, in order |
| SqlQuery.Filtered | app/api/test-cases/route.ts:51-79 | one value per filter |
| SqlQuery.FilteredNumbered | app/api/test-cases/route.ts:51-79 | a SELECT followed by filter clauses is well numbered |
| SqlQuery.ThenNumbered | app/api/test-cases/route.ts:81-82 | a clause on the next placeholder keeps a query well numbered |
| SqlQuery.EqualsIf | app/api/defects/route.ts:29-39 | a query-string value turns on at most one filter |
| SqlQuery.Present | app/api/defects/route.ts:29-39 | the bound values are at most the parameters |
| SqlQuery.EqualsBindPresent | app/api/defects/route.ts:29-39 | two equality filters bind exactly the non-empty parameters, in the order the handler checks them |
| TestCasesRoute.Offset | app/api/test-cases/route.ts:18-20 | offset is (page - 1) * limit, and 0 without a page parameter |
| TestCasesRoute.Filters | app/api/test-cases/route.ts:51-79 | at most five filters |
| TestCasesRoute.SearchIf | app/api/test-cases/route.ts:69-73 | a search term turns on at most one filter |
| TestCasesRoute.AddFilters | app/api/test-cases/route.ts:51-79 | the builder gains exactly the request's filter clauses and their values |
| TestCasesRoute.AddPaging | app/api/test-cases/route.ts:81-82 | LIMIT and OFFSET on the next two placeholders give the page query |
| TestCasesRoute.BuildListQuery | app/api/test-cases/route.ts:36-84 | the built page query is the request's `ListQuery` |
| TestCasesRoute.BuildCountQuery | app/api/test-cases/route.ts:87-121 | the built count query is the request's `CountQuery` |
| TestCasesRoute.QueriesAgree | app/api/test-cases/route.ts:48-121 | both queries are well numbered; the count query has the page query's clauses and values, and LIMIT and OFFSET take the page query's last two placeholders |
| TestCasesRoute.FilterChoice | app/api/test-cases/route.ts:51-79 | a filter applies iff its parameter is a non-empty string; the search term is bound wrapped in `%`; with no filter only limit and offset are bound |
| TestCasesRoute.TotalPages | app/api/test-cases/route.ts:130 | the page count is null exactly for a zero limit |
| TestCasesRoute.TotalPagesCover | app/api/test-cases/route.ts:130 | `ceil(total / limit)` pages cover every row and the last page is not empty |
| TestCasesRoute.RowOnPage | app/api/test-cases/route.ts:18-130 | row i is on page i / limit + 1, within that page's offset window, and that page exists |
| TestCasesRoute.PageBody | app/api/test-cases/route.ts:124-132 | the body has exactly `testCases` and `pagination`, and `testCases` is the rows |
| TestCasesRoute.HitBody | app/api/test-cases/route.ts:31-32 | a cached page is served with `fromCache` true and every other field as cached |
| TestCasesRoute.HitBodyAsWritten | app/api/test-cases/route.ts:31-32 | as written, the whole cached page is nested under `testCases` |
| TestCasesRoute.HitShape | app/api/test-cases/route.ts:31-132 | as written, `testCases` is an array on a miss and an object on the following hit; the corrected hit gives the same rows and pagination |
| TestCasesRoute.CacheKeyAsWrittenCollides | app/api/test-cases/route.ts:29 | as written, no project and project "null" share a key although their queries differ |
| TestCasesRoute.KeyPart | app/api/test-cases/route.ts:29 | every key part is non-empty |
| TestCasesRoute.CacheKey | app/api/test-cases/route.ts:29 | every key lies in the `testcases:` family |
| TestCasesRoute.KeyPartHead | app/api/test-cases/route.ts:29 | a part starts with `-` exactly when its parameter turns nothing on |
| TestCasesRoute.KeyPartSplit | app/api/test-cases/route.ts:29 | the first part determines what it encodes and where the rest begins |
| TestCasesRoute.KeyPartsInjective | app/api/test-cases/route.ts:29 | equal keys encode equal effective parameters |
| TestCasesRoute.CacheKeySound | app/api/test-cases/route.ts:29-33 | two requests with the same key run the same queries and report the same page and limit |
| TestCasesRoute.FiltersOfEffective | app/api/test-cases/route.ts:51-79 | the filters depend only on what the parameters turn on |
| TestCasesRoute.PageResult | app/api/test-cases/route.ts:84-132 | a miss yields a page iff both queries succeed, and the page is built from their rows |
| TestCasesRoute.QueriesRun | app/api/test-cases/route.ts:84-121 | the page query runs first, and the count query only after it succeeds |
| TestCasesRoute.LoadPage | app/api/test-cases/route.ts:35-137 | a miss logs the queries it runs; on success it stores the page for ten minutes and answers it; a failing query gives 500 and stores nothing |
| TestCasesRoute.ListTestCases | app/api/test-cases/route.ts:8-142 | 401 without a user; the caller's counter then moves as one rate-limit call says and the limiter's clock stays, so a series of requests follows the limiter's window; 429 before the cache is read; a hit answers the cached page and runs no query; a miss behaves as `LoadPage` under the corrected key |
| TestCasesRoute.CheckNewTestCase | app/api/test-cases/route.ts:149-169 | refused with 400 iff the project id or title is missing; otherwise the sanitised title and description, the creator, and the defaults Medium, Functional and no tags |
| TestCasesRoute.StepRows | app/api/test-cases/route.ts:187-195 | one step row per input step, numbered 1..n in the order given |
| TestCasesRoute.Numbered | app/api/test-cases/route.ts:188-194 | the inserted step records get consecutive ids |
| TestCasesRoute.InsertSteps | app/api/test-cases/route.ts:187-195 | the loop appends exactly the numbered step rows and reports success, or, when an insert throws, exactly the rows before it and reports failure |
| TestCasesRoute.CreateTestCase | app/api/test-cases/route.ts:145-205 | 401/403 from the gate, then 400, then 500 when the database is down, each changing nothing; otherwise the row is inserted; if every step insert succeeds, all steps are stored, `testcases:*` is invalidated and the answer is 201; if a step insert throws, the row and the earlier steps stay, the cache is untouched and the answer is 500; stored titles stay free of angle brackets |
| ExecutionsRoute.Filters | app/api/executions/route.ts:31-47 | at most three filters |
| ExecutionsRoute.BuildListQuery | app/api/executions/route.ts:16-50 | the built query is the request's `ListQuery` |
| ExecutionsRoute.AddFilters | app/api/executions/route.ts:31-47 | the builder gains exactly the request's filter clauses and their values |
| ExecutionsRoute.ListQueryNumbered | app/api/executions/route.ts:28-50 | the query is well numbered and LIMIT takes the last placeholder with the limit as the last value |
| ExecutionsRoute.ListQueryBinds | app/api/executions/route.ts:14-50 | the values are the non-empty test case, project and status parameters, in that order, then the limit |
| ExecutionsRoute.ListExecutions | app/api/executions/route.ts:8-59 | the gate's refusal changes nothing; otherwise the query is logged and its rows answered, or 500 |
| ExecutionsRoute.StatusOf | app/api/executions/route.ts:80-81 | a status is accepted iff it names one of Pass, Fail, Blocked, Skipped |
| ExecutionsRoute.CheckNewExecution | app/api/executions/route.ts:73-94 | 400 for a missing test case id or status, then 400 for an unknown status; otherwise executed by the caller with sanitised comments |
| ExecutionsRoute.AfterRecordReads | app/api/executions/route.ts:102-103 | after a recorded run no analytics or test-case listing is served from the cache, and every other key reads as before |
| ExecutionsRoute.CreateExecution | app/api/executions/route.ts:62-110 | gate, then the caller's counter moves as one rate-limit call says with the clock kept, then 429 before the body is read, then validation, each changing nothing else; otherwise the run is inserted with the next id, both families invalidated, 201 |
| DefectsRoute.Filters | app/api/defects/route.ts:29-39 | at most two filters |
| DefectsRoute.BuildListQuery | app/api/defects/route.ts:12-41 | the built query is the request's `ListQuery` |
| DefectsRoute.ListQueryBinds | app/api/defects/route.ts:26-41 | well numbered; values are the non-empty project and status, in that order; the query ends ordering by creation time |
| DefectsRoute.ListDefects | app/api/defects/route.ts:6-50 | the gate's refusal changes nothing; otherwise the query is logged and its rows answered, or 500 |
| DefectsRoute.CheckNewDefect | app/api/defects/route.ts:57-75 | refused with 400 iff the test case id or title is missing; otherwise sanitised title and description, created by the caller, severity Medium by default |
| DefectsRoute.CreateDefect | app/api/defects/route.ts:53-85 | gate, 400, 500 each change nothing; otherwise the row is inserted and answered with 201 |
| TestSuitesRoute.SuitesKey | app/api/test-suites/route.ts:17 | the key lies in the `testsuites:` family |
| TestSuitesRoute.SuitesKeyInjective | app/api/test-suites/route.ts:17 | distinct projects never share an entry |
| TestSuitesRoute.SuitesQuery | app/api/test-suites/route.ts:23-32 | well numbered, binding only the project id |
| TestSuitesRoute.HitResponse | app/api/test-suites/route.ts:20 | a hit answers 200 with exactly the cached list and `fromCache` true |
| TestSuitesRoute.ReadThroughRepeats | app/api/test-suites/route.ts:17-65 | within half an hour of a miss a read is served from the cache with the same list; after a create it is not |
| TestSuitesRoute.ListSuites | app/api/test-suites/route.ts:7-42 | 401, then 400 without a project, then a hit with no query, else the query is run, its rows answered and stored for 1800 s |
| TestSuitesRoute.CheckNewSuite | app/api/test-suites/route.ts:49-56 | refused with 400 iff the project id or name is missing; otherwise sanitised name and description, created by the caller |
| TestSuitesRoute.CreateSuite | app/api/test-suites/route.ts:45-72 | gate, 400, 500 each change nothing; otherwise the row is inserted, `testsuites:*` invalidated, 201 |
| ProjectsRoute.VisibleProjects | app/api/projects/route.ts:15-51 | never more projects than exist |
| ProjectsRoute.VisibleExactly | app/api/projects/route.ts:15-51 | a project is listed iff it exists and the caller is an admin or a member of it |
| ProjectsRoute.VisibleNewestFirst | app/api/projects/route.ts:30-49 | the list runs newest first with no project twice |
| ProjectsRoute.AdminSeesAll | app/api/projects/route.ts:15-31 | an admin sees every project |
| ProjectsRoute.AdminCount | app/api/projects/route.ts:15-31 | an admin's list is as long as the table |
| ProjectsRoute.TestCaseCount | app/api/projects/route.ts:56-76 | a failing count query gives 0; otherwise the count column read with missing as 0 |
| ProjectsRoute.CreatorName | app/api/projects/route.ts:27-29 | the creator's name comes from a user with that id, and null when there is none |
| ProjectsRoute.ProjectFieldsJson | app/api/projects/route.ts:126-141 | the project object carries its own id |
| ProjectsRoute.ListedJson | app/api/projects/route.ts:64-67 | a listed project carries its id and its test case count |
| ProjectsRoute.WithCounts | app/api/projects/route.ts:56-76 | one entry per visible project, in order |
| ProjectsRoute.ListProjects | app/api/projects/route.ts:6-88 | 401 without a user; a failing project query still answers 200 with an empty list and the schema message; otherwise exactly the visible projects with counts |
| ProjectsRoute.ListedProjectsSeen | app/api/projects/route.ts:15-76 | every listed project is one the caller sees, with its own id and a count of 0 when its query fails |
| ProjectsRoute.CheckNewProject | app/api/projects/route.ts:104-117 | refused with 400 iff the name is missing; otherwise sanitised name and description, trimmed version, status `active` by default, created by the caller |
| ProjectsRoute.CreateProject | app/api/projects/route.ts:101-147 | gate and 400 change nothing; a failing insert gives 500 with the error message; otherwise the project is inserted, the creator added as member unless that insert fails, 201 |
| ProjectsRoute.CreatorSeesProject | app/api/projects/route.ts:129-139 | once the creator is a member the new project is in their list; an admin sees it even without the membership |
| BulkRoute.Field | app/api/test-cases/bulk/route.ts:22 | `data?.key` is present iff data is an object holding key |
| BulkRoute.IdSet | app/api/test-cases/bulk/route.ts:18 | `ANY(ids)` matches exactly the numbers the list holds |
| BulkRoute.ParseBulk | app/api/test-cases/bulk/route.ts:12-56 | 400 for a bad format, then for an unknown operation, then for the operation's missing field; an accepted request names a known operation, its listed ids and the field's value as its operand |
| BulkRoute.UpdateTouchesOnlyListed | app/api/test-cases/bulk/route.ts:21-52 | an update keeps every row in place; a listed row gets the operation's column and the update time and keeps every other column; an unlisted row is untouched |
| BulkRoute.RunBulk | app/api/test-cases/bulk/route.ts:1-66 | gate, 400 and 500 change neither rows nor cache; otherwise the rows are deleted or updated, `testcases:*` invalidated, 200 naming the operation |
| RegisterRoute.RoleOf | app/api/auth/register/route.ts:12-40 | a known role is kept as given; anything else, absence included, becomes tester |
| RegisterRoute.CheckRegistration | app/api/auth/register/route.ts:14-40 | 400 in the order required fields, email format, password length; accepted iff all pass; the email stored trimmed and lower-cased, the name sanitised, the role as `RoleOf` |
| RegisterRoute.UserJson | app/api/auth/register/route.ts:72-78 | exactly id, email, full_name and role: never the password hash |
| RegisterRoute.AddKeepsUnique | app/api/auth/register/route.ts:42-59 | adding an account whose email no row has keeps the emails unique |
| RegisterRoute.Register | app/api/auth/register/route.ts:9-86 | 400s, 500 and 409 leave users and cookies unchanged; otherwise the account is enrolled; unique emails stay unique |
| RegisterRoute.Enrol | app/api/auth/register/route.ts:53-78 | the account is stored with the hashed password, the session cookie is set for it, and the answer is 201 with the user |
| LoginRoute.LoginOutcome | app/api/auth/login/route.ts:14-48 | 400 without email or password; otherwise accepted iff the first account under the normalised email verifies the password, and every refusal is 401 "Invalid credentials"; an accepted user has a matching stored account |
| LoginRoute.RefusalsAlike | app/api/auth/login/route.ts:29-48 | an unknown email and a wrong password get the same answer |
| LoginRoute.FirstOfAppended | app/api/auth/login/route.ts:23-27 | a lookup finds an appended account when no earlier one matches |
| LoginRoute.RegisterThenLogin | app/api/auth/login/route.ts:14-48 | signing up and then signing in with the same email and password yields the new account |
| LoginRoute.Login | app/api/auth/login/route.ts:9-75 | 400, 500 and 401 leave the cookie alone; otherwise the session cookie is set and the answer is 200 with the user |
| Analytics.Percent | app/api/analytics/route.ts:112-120 | 0 for a zero whole; otherwise the integer nearest 100 * part / whole, halves up |
| Analytics.PercentBounds | app/api/analytics/route.ts:112-120 | a share of a whole lies in 0..100, and the whole of it is 100 |
| Analytics.Compute | app/api/analytics/route.ts:111-165 | the reported totals, passes and pending are the ones the pass rate and coverage are computed from; trends and per-tester lists default to empty |
| Analytics.RatesAreBounded | app/api/analytics/route.ts:112-120 | with consistent counts, pass rate and coverage lie in 0..100 |
| Analytics.EmptyResultsReadAsZero | app/api/analytics/route.ts:112-164 | empty aggregate results give all-zero figures and empty lists |
| Analytics.ExampleFigures | app/api/analytics/route.ts:112-120 | 10 tests with 4 pending and 6 executions with 4 passes give coverage 60 and pass rate 67 |
| Analytics.AnalyticsGet | app/api/analytics/route.ts:6-184 | 401, then 400 without a project, then 500 with the database message, else 200 with the computed figures |
| Analytics.MissingProjectIgnoresStore | app/api/analytics/route.ts:14-16 | without a project id the answer is 400 whatever the database holds |
| Sidebar.ForRole | components/layout/sidebar.tsx:45-46 | never more links than the list has |
| Sidebar.ForRoleMembers | components/layout/sidebar.tsx:46 | a link is shown iff the user's role is among its roles |
| Sidebar.VisibleNavigation | components/layout/sidebar.tsx:30-46 | nothing without a user; otherwise the links for the user's role |
| Sidebar.ForRoleSuffixes | components/layout/sidebar.tsx:11-23 | which of the last links each role is shown |
| Sidebar.LinksPerRole | components/layout/sidebar.tsx:11-23 | admins see all six links, test leads and testers all but Users, read-only users all but Test Execution and Users |
| Sidebar.ActiveMeansSegment | components/layout/sidebar.tsx:48 | a link is active only on its own path or below it as a path segment: `/projects-x` does not activate `/projects` |
| Sidebar.ReplaceFirst | components/layout/sidebar.tsx:75 | only the first occurrence is replaced, and nothing without one |
| Sidebar.RoleLabels | components/layout/sidebar.tsx:75 | the captions are admin, test lead, tester and read only |
| Sidebar.ReplaceFirstCounts | components/layout/sidebar.tsx:75 | one dash fewer and one space more |
| Sidebar.AvatarInitial | components/layout/sidebar.tsx:71 | the first character upper-cased, empty for an empty name |
| TestCaseTable.ToggleAll | components/test-cases/test-case-table.tsx:31-42 | clear when every row is selected, otherwise exactly the row ids in list order |
| TestCaseTable.Without | components/test-cases/test-case-table.tsx:46 | filtering never lengthens |
| TestCaseTable.WithoutSpec | components/test-cases/test-case-table.tsx:46 | every occurrence of the id is dropped and every other id kept |
| TestCaseTable.WithoutConcat | components/test-cases/test-case-table.tsx:46 | filtering keeps the order of what survives |
| TestCaseTable.ToggleSelect | components/test-cases/test-case-table.tsx:44-50 | a selected id is filtered out, an unselected one appended |
| TestCaseTable.ToggleSelectFlips | components/test-cases/test-case-table.tsx:44-50 | toggling flips the id's membership and no other's |
| TestCaseTable.ToggleSelectTwice | components/test-cases/test-case-table.tsx:44-50 | selecting an unselected row and deselecting it restores the selection exactly |
| TestCaseTable.ToggleAllTwice | components/test-cases/test-case-table.tsx:31-42 | from a partial selection toggleAll selects every row, and again clears |
| TestCaseTable.PriorityColor | components/test-cases/test-case-table.tsx:52-65 | Critical is destructive, High default, Low outline, anything else secondary, each iff |
| VirtualList.ComputeWindow | components/test-cases/virtual-test-list.tsx:38-43 | the start row holds the scroll offset, the end is at most n and at most 15 rows on, and the offset is the start row's top |
| VirtualList.Slice | components/test-cases/virtual-test-list.tsx:45 | `slice` is empty past the end or for an empty range, otherwise the clipped subsequence |
| VirtualList.VisibleRowsCoverViewport | components/test-cases/virtual-test-list.tsx:38-47 | at most 15 rows are rendered, each in place, none when scrolled past the end, and every row overlapping the viewport is among them |
| VirtualList.Select | components/test-cases/virtual-test-list.tsx:57-68 | the id is in the new set iff checked; every other id is unchanged |
| VirtualList.Ids | components/test-cases/virtual-test-list.tsx:53 | the set of the rows' ids |
| VirtualList.SelectAll | components/test-cases/virtual-test-list.tsx:49-55 | empty when the sizes match, otherwise exactly the rows' ids |
| VirtualList.DistinctIdsCount | components/test-cases/virtual-test-list.tsx:50-76 | distinct rows give as many ids as rows |
| VirtualList.SelectAllThenHeader | components/test-cases/virtual-test-list.tsx:49-76 | with distinct ids, select-all from short of a full selection checks the header, and again clears |
| VirtualList.VirtualTestList.constructor | components/test-cases/virtual-test-list.tsx:23-32 | the rows, role and selection given, scrolled to the top |
| VirtualList.VirtualTestList.HandleScroll | components/test-cases/virtual-test-list.tsx:34-36 | the scroll offset is set and the selection kept |
| VirtualList.VirtualTestList.HandleSelect | components/test-cases/virtual-test-list.tsx:57-68 | the selection becomes `Select` of the old one; the scroll offset is kept |
| VirtualList.VirtualTestList.HandleSelectAll | components/test-cases/virtual-test-list.tsx:49-55 | the selection becomes `SelectAll` of the old one; the scroll offset is kept |

## Left out

- SQL execution: listing SELECTs with their joins (`created_by_name`, `assigned_to_name`, `steps_count` and the like) and the analytics aggregate queries are answered by an uninterpreted engine or taken as inputs. Their contents are not modelled.
- Column defaults and `RETURNING *` columns the handlers do not set: `created_at`, `updated_at` on insert, and the test case `status` default. Cascading deletes of steps on a bulk delete are not modelled either.
- Ordering by `created_at DESC` is modelled as newest insertion first, using the ascending table ids.
- bcrypt hashing and comparison, and JWT signing and verification, are function parameters. The JWT secret, the `HS256` header and the library's expiry check are outside the model.
- Request parsing: a body that is not JSON, and a string field that holds a non-string so that `.trim()` throws, are not modelled.
- BulkRoute.IdSet: only numeric entries of `test_case_ids` are modelled as ids, and any other entry matches no row. PostgreSQL would coerce a digit string such as "5" to id 5. It would reject a non-numeric entry with an error, which the route's catch (app/api/test-cases/bulk/route.ts:62-64) answers with 500. Neither is captured.
- The projects route's outer `catch` (status 500 with "Internal server error: ...") is not modelled. Every failure is handled by the inner catch.
- The per-project count queries run under `Promise.all`. They are modelled in list order: they only read, so order does not change the answer. Races between concurrent requests on the shared counters and cache are left out.
- Json.ReadCount: reads only null, a missing column, a non-negative number or an all-digit string, the values a COUNT column yields. `parseInt`'s leading-digit prefix ("12abc" gives 12) and leading white space (" 7" gives 7) are not modelled and read as 0.
- `CreateProject`'s `memberAdded` input says whether the member insert succeeds, which the model cannot decide.
- The analytics route reads no cache. `CACHE_DURATION.ANALYTICS` and `PROJECT_METADATA` are constants nobody uses, while a recorded execution still invalidates `analytics:*`.
- Floating point: `Math.round` and `Math.ceil` are modelled as exact integer round-half-up and ceiling division. `parseInt` of a non-numeric string (NaN) is out of scope, so `page` and `limit` arrive as integers or absent. A zero limit gives a null page count. The exact rounding differs from JavaScript on real inputs: with 29 passes out of 200 executions, JavaScript computes `(29 / 200) * 100` as `14.499999999999998` and `Math.round` gives 14, while `Analytics.Percent` gives 15.
- TestCasesRoute.PageBody: `total` is read with `Json.Count` (the first row's cell through `Json.ReadCount`), so a missing first row or a null cell reads as 0. The route (app/api/test-cases/route.ts:121) has no `?.`: an empty result would throw and answer 500, and a null cell would give NaN, sent as null. A `COUNT(*)` query yields neither.
- Strings are sequences of characters. JavaScript's UTF-16 lengths and `toLowerCase`/`toUpperCase` beyond ASCII are not modelled.
- `trim()` and `\s` use the ECMAScript white-space set as listed in `Text.IsSpace`.
- The cache holds JSON values. Serialisation by the store client is left out.
- Clocks are abstract seconds. The rate limiter's `reset` is `(now + ttl) * 1000`, with `now` in seconds rather than `Date.now()` milliseconds.
- Only prefix globs `p*` are modelled for `delPattern`, the only pattern shape the routes pass.
- `getRedis` reading environment variables is the `available` flag. Lazy creation of the client singleton is left out.
- `proxy.ts`'s `config.matcher` is a framework path pattern. Paths it excludes never reach the gate.
- The sidebar caption's CSS `capitalize` is presentation: `RoleLabel` gives the text before styling. The theme toggle and logout button are left out.
- `VirtualList.TotalHeight`, `VirtualList.CanEdit` and `VirtualList.HeaderChecked` are plain definitions (`n * 80`, admin or test-lead, size equals n and n > 0), without contracts of their own.
- `TestCaseTable.AllSelected` is a plain definition used by `ToggleAll` and `ToggleAllTwice`.
- UI rendering (JSX), the analytics charts, project cards, filters, forms and the auth context are left out. So are the users and logout routes, which only call the database or clear the cookie.

## Findings

| source | as written | input that shows it | evidently intended | confidence | as-written member | corrected member |
|---|---|---|---|---|---|---|
| app/api/test-cases/route.ts:31-32 | a cache hit answers `{ testCases: <cached page>, fromCache: true }`; the cached value is the whole `{ testCases, pagination }` object | any listing requested twice within ten minutes: the second answer's `testCases` is an object, not the row array | answer the cached page itself, marked `fromCache` | high (not executed) | TestCasesRoute.HitShape | TestCasesRoute.HitBody |
| app/api/test-cases/route.ts:29 | the cache key joins the raw parameter values with `:`, printing a missing one as `null` | `project_id` absent and `project_id=null` share the key `testcases:null:...` but run different queries, so one is answered with the other's page | a key from which the request's filters, page and limit can be recovered | high (not executed) | TestCasesRoute.CacheKeyAsWrittenCollides | TestCasesRoute.CacheKeySound |
| lib/rate-limit.ts:1 | imports `redis` from `./redis`, which exports only `cache` and `CACHE_DURATION`, so every `redis.incr` throws inside the `try` | the 101st GET /api/test-cases by one user within the window is still admitted (or call limit + 1 under any config) | count calls in the store and refuse the call past the limit | high (not executed) | RateLimit.AsWrittenNeverRefuses | RateLimit.RateLimiter.RateLimit |
| lib/api-middleware.ts:14 | `requireAuth` is declared `async`, so `requireAuth(handler)` returns a promise of the wrapper; `requireRole` returns that promise too | `export const GET = requireAuth(...)` in app/api/projects/route.ts exports a promise where the framework expects a request handler, so no request reaches the gate | declare `requireAuth` without `async`, so it returns the wrapper | high (not executed) | Middleware.RequireAuthAsWritten | Middleware.RequireAuth |
