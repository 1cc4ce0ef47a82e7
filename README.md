# Rate limiting and request guards of a Next.js API backend, in Dafny

This project models the request-guarding core of a Next.js backend template:

- the in-process window store (`MemoryStore`), a table from a key to a hit
  count and the instant its window ends;
- the limiter that `createRateLimiter` builds around one store, and its
  answer for each request: allow (`null`) or a denial with a status, an
  `{error}` body and four rate-limit header values;
- the composition layer: API limiters with their defaults, the
  `withRateLimit` handler wrapper, and the tiered limiter that sends each
  call to the anonymous, authenticated or admin limiter;
- the error classifier `handleApiError` and its `ApiError` helpers;
- the schema-validation outcome of `validateSchema` and `withValidation`;
- the authentication guards `authenticateUser`, `requireAuth` and
  `requireAdmin`, and the bearer-token extraction `getTokenFromRequest`.

Time is an explicit `now: int` in milliseconds. Key and skip callbacks, the
schema parse, token verification, the user lookup and route handlers are
function parameters (oracles). Each module follows one source file, except
`Http` and `Fields`, which hold what several of them share:

| file | module | source |
|---|---|---|
| http.dfy | `Http` | request/response values, `headers.get(x) \|\| fallback`, `Math.ceil(ms / 1000)` |
| fields.dfy | `Fields` | the last-wins `reduce` into a field map (lib/errorHandler.js, lib/validation.js) |
| window_store.dfy | `WindowStore` | middleware/rateLimiter.js, class `MemoryStore` |
| rate_limiter.dfy | `RateLimiter` | middleware/rateLimiter.js, `createRateLimiter` |
| api_rate_limiter.dfy | `ApiRateLimiter` | lib/rateLimiter.js |
| error_handler.dfy | `ErrorHandler` | lib/errorHandler.js |
| validation.dfy | `Validation` | lib/validation.js |
| jwt.dfy | `Jwt` | lib/jwt.js, `getTokenFromRequest` |
| auth.dfy | `Auth` | middleware/auth.js |

The store is a class whose `store` field the methods `Increment` and
`Cleanup` reassign. Their contracts tie the new table to the pure functions
`Bump` and `Live`, and the lemmas about the store's behaviour are proved
about those functions. In the same way, `Limiter.Check` is tied to the pure
decision `Limit`. `TieredLimiter.Check` may modify only the store of the tier
that `TierOf(role)` selects.

### Behaviour worth knowing

- `get` reads an absent key as `{count: 0, resetTime: now}`, and
  `increment` then keeps that reset time
  (middleware/rateLimiter.js:25-26, 46-50). So a key's first window ends
  at the very instant of its first hit. A second hit in the same
  millisecond counts 2. A hit one millisecond later restarts the window
  with count 1 (`FreshKeySuccessiveMilliseconds`). The three-call test
  (tests/middleware/rateLimiter.test.js:39-45) therefore sees the third
  call denied exactly when all three calls share one millisecond
  (`ThreeCallsInOneMillisecond`, `ThirdDeniedOnlyInOneMillisecond`).
- Cleanup deletes records whose window has ended. The next increment of a
  key returns the same count either way (`CleanupKeepsCounts`). But a key
  whose record was deleted comes back as a fresh key, with a window ending
  at `now` instead of `now + windowMs` (`CleanupShortensReopenedWindow`),
  so the counts after that next one can differ: with `max` 1, a cleanup can
  turn a denial into an allow (`CleanupCanChangeLaterCounts`).
- `Retry-After` is `ceil((resetTime - now) / 1000)`, with no floor at 0.
  It is non-negative when the window length is non-negative
  (`DenialContents`).
- No path-based gate picks a limiter per route: middleware.js only sets a
  version header and logs. That gate is not part of this model.

## Model

| member | source | states |
|---|---|---|
| `Http.CeilSeconds` | middleware/rateLimiter.js:124-125 | `Math.ceil(ms / 1000)` is the least whole number of seconds covering `ms`, negative inputs included; it is non-negative for non-negative `ms` |
| `WindowStore.MemoryStore.constructor` | middleware/rateLimiter.js:11-12 | a new store holds an empty table |
| `WindowStore.MemoryStore.Get` | middleware/rateLimiter.js:24-29 | returns the stored record of a present key, or `{count 0, resetTime now}` for an absent key, and changes nothing |
| `WindowStore.MemoryStore.Increment` | middleware/rateLimiter.js:32-52 | the new table is one `Bump` of the old one; the returned count is the stored count; counts stay at least 1 |
| `WindowStore.MemoryStore.Cleanup` | middleware/rateLimiter.js:55-62 | the new table is `Live(old table, now)`; the loop deletes expired entries one at a time |
| `WindowStore.HitAfterExpiry` | middleware/rateLimiter.js:37-43 | strictly past `resetTime`, a hit stores `{1, now + windowMs}` |
| `WindowStore.HitWithinWindow` | middleware/rateLimiter.js:46-51 | up to and including `resetTime`, a hit stores `count + 1` and keeps `resetTime` |
| `WindowStore.HitOnAbsentKey` | middleware/rateLimiter.js:24-51 | an absent key's first hit stores `{1, now}`, not `{1, now + windowMs}` |
| `WindowStore.BumpTouchesOnlyItsKey` | middleware/rateLimiter.js:38-50 | `increment(k)` stores a record for `k`; every other key is present and holds the same record before and after |
| `WindowStore.HitEndsNoEarlierThanNow` | middleware/rateLimiter.js:37-51 | with `windowMs >= 0`, the stored reset time is never before `now` |
| `WindowStore.LiveKeepsExactlyUnexpired` | middleware/rateLimiter.js:55-62 | cleanup keeps exactly the records with `resetTime >= now`, unchanged, and removes the rest |
| `WindowStore.LiveAtLaterInstant` | middleware/rateLimiter.js:55-62 | a cleanup followed by one no earlier equals the later cleanup alone |
| `WindowStore.CleanupKeepsCounts` | middleware/rateLimiter.js:24-62 | a cleanup at `t <= now` does not change the count the next increment returns |
| `WindowStore.CleanupShortensReopenedWindow` | middleware/rateLimiter.js:24-62 | for every record expired before the cleanup instant, a later hit stores `{1, now + windowMs}` on the uncleaned table but `{1, now}` once cleanup has deleted it |
| `WindowStore.CleanupCanChangeLaterCounts` | middleware/rateLimiter.js:24-62 | a record expired at 0, hit at 1 and 2, counts 1, 2 without a cleanup and 1, 1 after a cleanup at 1 |
| `WindowStore.CountsWithinWindow` | middleware/rateLimiter.js:32-52 | hits no later than the window's end return `count + 1, count + 2, ...` in order |
| `WindowStore.CountsFromFreshKey` | middleware/rateLimiter.js:24-52 | for a fresh key, n hits no later than the first one return 1, 2, ..., n |
| `WindowStore.FreshKeySuccessiveMilliseconds` | middleware/rateLimiter.js:24-52 | a fresh key hit at t, t+1, t+2 returns 1, 1, 2 |
| `RateLimiter.DefaultKey` | middleware/rateLimiter.js:78-85 | the default key is `x-forwarded-for`, else `x-real-ip`, else `"unknown-ip"`; it is never empty |
| `RateLimiter.ResolveDefaults` | middleware/rateLimiter.js:68-89 | with no options the policy is 60000 ms, 60 requests, the standard message, status 429, identifier `standard`, the default key and no request skipped |
| `RateLimiter.ResolveOverrides` | middleware/rateLimiter.js:68-89 | every option the caller sets replaces its default in the policy |
| `RateLimiter.Limiter.constructor` | middleware/rateLimiter.js:68-89 | the limiter's policy is `Resolve(options)`; with no `store` option it gets a fresh, empty store of its own, otherwise the given store |
| `RateLimiter.Limiter.Check` | middleware/rateLimiter.js:91-133 | the answer and the new table are those of `Limit` on the old table |
| `RateLimiter.SkippedRequestIsAllowed` | middleware/rateLimiter.js:93-95 | a skipped request is allowed and the table is untouched |
| `RateLimiter.DeniedIffOverMax` | middleware/rateLimiter.js:98-132 | otherwise the table takes exactly one increment of the request's key, and the call denies if and only if the new count exceeds `max` |
| `RateLimiter.DenialContents` | middleware/rateLimiter.js:107-129 | a denial has status `statusCode`, body `{error: message}`, limit `max`, remaining 0, reset `ceil(resetTime / 1000)` and Retry-After `ceil((resetTime - now) / 1000)`, which is at least 0 when `windowMs >= 0` |
| `RateLimiter.FirstRequestAllowed` | middleware/rateLimiter.js:98-132 | the first request for a fresh key is allowed whenever `max >= 1` |
| `RateLimiter.ZeroMaxDeniesEverything` | middleware/rateLimiter.js:101-129 | with `max <= 0`, every request that is not skipped is denied |
| `RateLimiter.ThreeCallsInOneMillisecond` | tests/middleware/rateLimiter.test.js:24-49 | with `windowMs 1000, max 2`, three calls in one millisecond from one address give allow, allow, then 429 with the configured message |
| `RateLimiter.ThirdDeniedOnlyInOneMillisecond` | middleware/rateLimiter.js:24-52 | for any limiter of two requests per window (window at least 1 ms), three successive calls from a fresh key deny the third if and only if all three fall in the same millisecond |
| `RateLimiter.ThirdCallAfterTheWindow` | middleware/rateLimiter.js:36-43 | the same limiter allows a third call made more than 1000 ms after the first two |
| `RateLimiter.AlwaysSkipAlwaysAllows` | middleware/rateLimiter.js:93-95 | a limiter whose skip predicate always holds answers `null` to every call of any sequence and leaves the table unchanged |
| `RateLimiter.PreconfiguredLimiters` | middleware/rateLimiter.js:137-156 | the standard limiter allows 60, the strict one 10 (with its own message), the API one 120, per 60000 ms |
| `ApiRateLimiter.CreateApiRateLimiter` | lib/rateLimiter.js:11-21 | the wrapped limiter's policy is `Resolve(ApiOptions(options))`; its store is the given `store`, or a fresh, empty one when none is given |
| `ApiRateLimiter.ApiOptionsDefaults` | lib/rateLimiter.js:12-16 | an API limiter defaults to 60000 ms and 60 requests; the caller's `windowMs` and `max` win, and its message, status, identifier, key generator, skip predicate and store pass through unchanged |
| `ApiRateLimiter.RateLimitedHandler.constructor` | lib/rateLimiter.js:29-30 | `withRateLimit` builds an API limiter from its options, using the given `store` or else a fresh, empty one, and keeps the handler |
| `ApiRateLimiter.RateLimitedHandler.Handle` | lib/rateLimiter.js:32-41 | the limiter runs once on its store, and the answer is its denial or else `handler(request, args)` |
| `ApiRateLimiter.DenialShortCircuits` | lib/rateLimiter.js:34-37 | a denial is returned unchanged, and the handler plays no part in it |
| `ApiRateLimiter.AllowedReachesHandler` | lib/rateLimiter.js:40 | an allowed request gets exactly the handler's answer |
| `ApiRateLimiter.TierOf` | lib/rateLimiter.js:86-94 | role `"admin"` selects the admin tier; any other non-empty role selects the authenticated tier; a null, absent or empty role selects the anonymous tier |
| `ApiRateLimiter.TierPolicy` | lib/rateLimiter.js:49-84 | top-level `windowMs`/`max` beat the tier's own; a caller key generator replaces the default tier key; the identifier is always the tier's name |
| `ApiRateLimiter.DefaultTiers` | lib/rateLimiter.js:51-53 | the default tiers allow 30, 100 and 300 requests per 60000 ms |
| `ApiRateLimiter.TierKeysDisjoint` | lib/rateLimiter.js:62-83 | the default keys of two different tiers differ for any two requests |
| `ApiRateLimiter.TierStoreOption` | lib/rateLimiter.js:54-84 | a top-level `store` is shared by all three tiers; otherwise a tier uses the store in its own configuration, if any |
| `ApiRateLimiter.TierIsolation` | lib/rateLimiter.js:49-94 | with anonymous max 2 and admin max 5, three same-millisecond calls deny the third anonymous call and allow all three admin calls |
| `ApiRateLimiter.TieredLimiter.constructor` | lib/rateLimiter.js:59-84 | each tier's policy is the merged tier configuration; a tier whose merged options carry a `store` uses that store (so a top-level `store` is shared by all three); any other tier gets a fresh, empty store that no other tier uses |
| `ApiRateLimiter.TieredLimiter.Check` | lib/rateLimiter.js:86-94 | exactly the selected tier's limiter runs; only its store may change, and every store not shared with it is unchanged |
| `ApiRateLimiter.PreconfiguredApiLimiters` | lib/rateLimiter.js:98-113 | the strict, standard and generous API limiters allow 10, 60 and 200 requests per 60000 ms |
| `Fields.Collect` | lib/errorHandler.js:43-46 | the folded map's keys are exactly the pairs' paths |
| `Fields.CollectLastWins` | lib/validation.js:19-23 | a path maps to the message of the last pair carrying it |
| `ErrorHandler.HandleApiError` | lib/errorHandler.js:21-105 | every response body has `success: false`, and no rate-limit headers |
| `ErrorHandler.ApiErrorResponse` | lib/errorHandler.js:23-38 | an `ApiError` gives its own status and message; `validationErrors` appears only when `errors` is set |
| `ErrorHandler.ValidationErrorResponse` | lib/errorHandler.js:42-61 | a validation error gives 400 and `Validation failed`; the field map's keys are exactly the sub-errors' paths, and each maps to the last message on its path |
| `ErrorHandler.DuplicateKeyResponse` | lib/errorHandler.js:65-83 | a duplicate-key error gives 409 and `Duplicate value: <v> for field: <f>`, where `f` is the first key-pattern key and `v` its value |
| `ErrorHandler.UnhandledErrorResponse` | lib/errorHandler.js:87-104 | any other error gives 500; message and stack are shown only in development, otherwise `Internal server error` |
| `ErrorHandler.ValidationBeatsDuplicateKey` | lib/errorHandler.js:42-65 | the name test comes before the code test |
| `ErrorHandler.NotFoundErrorResponse` | lib/errorHandler.js:112-114 | `createNotFoundError`'s error, once handled, is 404 with `<entity> not found`, `Resource not found` by default |
| `ErrorHandler.BadRequestErrorResponse` | lib/errorHandler.js:122-124 | `createBadRequestError`'s error, once handled, is 400 with the message (`Bad request` by default) and the given field errors |
| `ErrorHandler.UnauthorizedErrorResponse` | lib/errorHandler.js:131-133 | `createUnauthorizedError`'s error, once handled, is 401 with the message, `Authentication required` by default |
| `ErrorHandler.ForbiddenErrorResponse` | lib/errorHandler.js:140-142 | `createForbiddenError`'s error, once handled, is 403 with the message, `Access denied` by default |
| `ErrorHandler.ConflictErrorResponse` | lib/errorHandler.js:149-151 | `createConflictError`'s error, once handled, is 409 with the message, `Resource conflict` by default |
| `Validation.JoinIsLeftFold` | lib/validation.js:20 | `path.join('.')` of a non-empty path is the left fold that starts from the first segment and appends `"."` and each further segment in order |
| `Validation.ValidateSchema` | lib/validation.js:9-39 | `success` holds exactly when the parse succeeded; `data` is null exactly when `success` is false; `errors` is null exactly when `success` is true |
| `Validation.ParsedData` | lib/validation.js:11-16 | a successful parse gives `{true, parsed, null}` |
| `Validation.SchemaFailureErrors` | lib/validation.js:18-29 | a schema failure maps exactly the dot-joined issue paths, each to the message of the last issue on that path |
| `Validation.OtherFailureErrors` | lib/validation.js:33-37 | any other failure gives `{_general: 'Validation failed'}` |
| `Validation.WithValidation` | lib/validation.js:46-66 | `withValidation`'s handler answers the inner handler's response on the parsed value when the body reads and validates, and a 400 error response otherwise |
| `Validation.UnreadableBody` | lib/validation.js:47-66 | in `withValidation`, an unreadable body gives 400 `Invalid request body` whatever the schema and handler |
| `Validation.RejectedBody` | lib/validation.js:50-60 | in `withValidation`, a body that fails validation gives 400 `Validation failed` with the field errors, and the handler plays no part in it |
| `Validation.AcceptedBody` | lib/validation.js:62 | in `withValidation`, a valid body reaches the handler with the parsed value |
| `Jwt.GetTokenFromRequest` | lib/jwt.js:34-42 | a token exists exactly when the header starts with the case-sensitive `"Bearer "`; the header is then `"Bearer " + token`, and the token is 7 characters shorter |
| `Jwt.BearerRoundTrip` | lib/jwt.js:37-39 | the result is `t` if and only if the header is `"Bearer " + t` |
| `Jwt.NoHeaderNoToken` | lib/jwt.js:35-41 | a missing or empty header gives no token |
| `Jwt.PrefixExamples` | lib/jwt.js:37-38 | `"bearer x"` and `"Bearerx"` give no token; `"Bearer "` gives the empty token |
| `Auth.AuthenticateUser` | middleware/auth.js:9-36 | a user is returned exactly when the token is non-empty, it verifies, the lookup finds the user, and the user is active; the user returned is the one found |
| `Auth.NoTokenNoUser` | middleware/auth.js:11-15 | no token, or an empty one, gives null, whatever the verifier and the lookup say |
| `Auth.BarePrefixRefused` | middleware/auth.js:11-15 | the header `"Bearer "` alone is refused |
| `Auth.UnverifiedTokenRefused` | middleware/auth.js:18-21 | a token that fails verification gives null, whatever the lookup says |
| `Auth.FailedLookupRefused` | middleware/auth.js:32-35 | a lookup that throws gives null, not an error |
| `Auth.RequireAuth` | middleware/auth.js:42-53 | 401 exactly when `authenticateUser` gives null, otherwise continue |
| `Auth.RequireAdmin` | middleware/auth.js:59-77 | 401 when authentication fails, which takes precedence; 403 exactly for an authenticated user whose role is not `admin`; continue exactly for an admin |
| `Auth.AdminImpliesAuthenticated` | middleware/auth.js:42-77 | every request that `requireAdmin` lets through, `requireAuth` lets through too |

## Left out

- The periodic cleanup timer and its `unref` (middleware/rateLimiter.js:14-20). `Cleanup` is an explicitly called method. It visits keys in an arbitrary order, not insertion order; the result does not depend on the order.
- Environment-variable defaults (`RATE_LIMIT_*`, `NODE_ENV`). `windowMs` and `max` are configuration values, and `isDev` is a parameter of `HandleApiError`.
- Logging (`logger.warn`, `logger.error`, `console.*`) and the `source` and `identifier` labels. They only feed the log.
- The clock: the source reads `Date.now()` up to four times per request. The model uses one reading, `now`, per call.
- Header values are modelled as the integers they render. The decimal strings that `String(...)` produces are not modelled.
- `Response.json`, `URL` parsing and the async/promise wrappers. `checkRateLimit` is the limiter it forwards to.
- A handler that throws synchronously inside `withValidation` would be answered as an invalid body. The model's handlers always return.
- JavaScript numbers are doubles. The model uses unbounded integers, which agree with doubles up to 2^53 ms.
- An option explicitly set to `undefined` beats an earlier value in an object spread. The model treats it as absent.
- Non-string user roles.
- Header values are taken as already normalised: a Fetch `Headers` object trims surrounding whitespace, so values such as `"Bearer "` or `" "` that the lemmas use stand for what `headers.get` returns, not for raw header bytes.
- Errors the handler itself would throw (a duplicate-key error without `keyPattern`, a validation error without `errors`). Key values and issue-path segments are taken as already-rendered strings.
- `ApiError`'s `isOperational` flag and captured stack, which no response shows.
- Token signing and verification, the user model, the database connection and the schemas. These are oracles passed to `Auth` and `Validation`.
- middleware.js, route handlers, UI pages and scripts. These are plumbing outside the guards modelled here.
- Concurrency. The store is used by one JavaScript thread, and every operation runs to completion.
