/** `createRateLimiter` of middleware/rateLimiter.js: a policy wrapped around
    one window store. Each request is either allowed (`None`, the source's
    `null`) or denied with a response carrying the configured status and
    message and four rate-limit header values. */
module RateLimiter {
  import opened Http
  import opened WindowStore

  /** A resolved configuration; the key and skip callbacks are arbitrary
      functions of the request. */
  datatype Policy = Policy(
    windowMs: int,
    max: int,
    message: string,
    statusCode: int,
    keyGenerator: Request -> string,
    skip: Request -> bool,
    identifier: string)

  /** The options object a caller passes; `None` is an absent (undefined)
      property, which the destructuring replaces with its default. */
  datatype Options = Options(
    windowMs: Option<int>,
    max: Option<int>,
    message: Option<string>,
    statusCode: Option<int>,
    keyGenerator: Option<Request -> string>,
    skip: Option<Request -> bool>,
    store: Option<MemoryStore>,
    identifier: Option<string>)

  /** The empty options object `{}`. */
  function NoOptions(): Options {
    Options(None, None, None, None, None, None, None, None)
  }

  const DefaultWindowMs := 60 * 1000
  const DefaultMax := 60
  const DefaultMessage := "Too many requests, please try again later."
  const DefaultStatusCode := 429

  /** The default key: `x-forwarded-for`, else `x-real-ip`, else a sentinel. */
  function DefaultKey(req: Request): (key: string)
    ensures Present(req, "x-forwarded-for") ==> key == req.headers["x-forwarded-for"]
    ensures !Present(req, "x-forwarded-for") && Present(req, "x-real-ip") ==> key == req.headers["x-real-ip"]
    ensures !Present(req, "x-forwarded-for") && !Present(req, "x-real-ip") ==> key == "unknown-ip"
    ensures key != ""
  {
    HeaderOr(req, "x-forwarded-for", HeaderOr(req, "x-real-ip", "unknown-ip"))
  }

  /** The default skip predicate: no request is skipped. */
  function NeverSkip(req: Request): bool {
    false
  }

  /** The option destructuring with its defaults. */
  function Resolve(o: Options): Policy
  {
    Policy(
      o.windowMs.GetOr(DefaultWindowMs),
      o.max.GetOr(DefaultMax),
      o.message.GetOr(DefaultMessage),
      o.statusCode.GetOr(DefaultStatusCode),
      o.keyGenerator.GetOr(DefaultKey),
      o.skip.GetOr(NeverSkip),
      o.identifier.GetOr("standard"))
  }

  /** With no options: one minute, 60 requests, the standard message, 429,
      the default key, no request skipped, identifier `standard`. */
  lemma ResolveDefaults(req: Request)
    ensures var p := Resolve(NoOptions());
      && p.windowMs == 60000 && p.max == 60
      && p.message == "Too many requests, please try again later."
      && p.statusCode == 429 && p.identifier == "standard"
      && p.keyGenerator(req) == DefaultKey(req) && !p.skip(req)
  {
  }

  /** Every option the caller sets replaces its default. */
  lemma ResolveOverrides(o: Options, req: Request)
    ensures o.windowMs.Some? ==> Resolve(o).windowMs == o.windowMs.value
    ensures o.max.Some? ==> Resolve(o).max == o.max.value
    ensures o.message.Some? ==> Resolve(o).message == o.message.value
    ensures o.statusCode.Some? ==> Resolve(o).statusCode == o.statusCode.value
    ensures o.identifier.Some? ==> Resolve(o).identifier == o.identifier.value
    ensures o.keyGenerator.Some? ==> Resolve(o).keyGenerator(req) == o.keyGenerator.value(req)
    ensures o.skip.Some? ==> Resolve(o).skip(req) == o.skip.value(req)
  {
  }

  /** The denial response for a window ending at `resetTime`, built at `now`. */
  function Denial(p: Policy, resetTime: int, now: int): Response {
    Response(
      p.statusCode,
      ErrorBody(p.message),
      RateLimitHeaders(p.max, 0, CeilSeconds(resetTime), CeilSeconds(resetTime - now)))
  }

  /** The outcome of one limiter call: its answer and the store table after it. */
  datatype Outcome = Outcome(response: Option<Response>, table: Table)

  /** One call of the returned `rateLimiter` at instant `now`: skip, derive the
      key, increment, read the reset time back, compare with `max`. */
  function Limit(p: Policy, m: Table, req: Request, now: int): Outcome {
    if p.skip(req) then Outcome(None, m)
    else
      var key := p.keyGenerator(req);
      var m' := Bump(m, key, now, p.windowMs);
      var count := m'[key].count;
      var resetTime := Lookup(m', key, now).resetTime;
      if count > p.max then Outcome(Some(Denial(p, resetTime, now)), m')
      else Outcome(None, m')
  }

  /** The function `createRateLimiter` returns, with the store it closes over. */
  class Limiter {
    const policy: Policy
    const store: MemoryStore

    /** `createRateLimiter(options)`: without a `store` option each limiter
        gets a store of its own. */
    constructor (options: Options)
      ensures policy == Resolve(options)
      ensures options.store.Some? ==> store == options.store.value
      ensures options.store.None? ==> fresh(store) && store.store == map[]
    {
      policy := Resolve(options);
      if options.store.Some? {
        store := options.store.value;
      } else {
        store := new MemoryStore();
      }
    }

    /** `rateLimiter(request)` at instant `now`. */
    method Check(req: Request, now: int) returns (r: Option<Response>)
      modifies store
      ensures Outcome(r, store.store) == Limit(policy, old(store.store), req, now)
    {
      if policy.skip(req) {
        return None;
      }
      var key := policy.keyGenerator(req);
      var count := store.Increment(key, policy.windowMs, now);
      var rec := store.Get(key, now);
      if count > policy.max {
        r := Some(Denial(policy, rec.resetTime, now));
      } else {
        r := None;
      }
    }
  }

  // ---------------------------------------------------------------------
  // Properties of one limiter call

  /** A skipped request is allowed and leaves the table untouched. */
  lemma SkippedRequestIsAllowed(p: Policy, m: Table, req: Request, now: int)
    requires p.skip(req)
    ensures Limit(p, m, req, now) == Outcome(None, m)
  {
  }

  /** Otherwise the table takes exactly one `increment` of the request's key,
      and the request is denied exactly when the new count exceeds `max`. */
  lemma DeniedIffOverMax(p: Policy, m: Table, req: Request, now: int)
    requires !p.skip(req)
    ensures Limit(p, m, req, now).table == Bump(m, p.keyGenerator(req), now, p.windowMs)
    ensures Limit(p, m, req, now).response.Some? <==>
      Hit(m, p.keyGenerator(req), now, p.windowMs).count > p.max
  {
  }

  /** A denial carries the configured status and message, the limit, a zero
      remainder, the reset instant in seconds and the seconds left until it;
      the last is never negative when the window length is not. */
  lemma DenialContents(p: Policy, m: Table, req: Request, now: int)
    requires !p.skip(req)
    requires Limit(p, m, req, now).response.Some?
    ensures var resp := Limit(p, m, req, now).response.value;
      var resetTime := Hit(m, p.keyGenerator(req), now, p.windowMs).resetTime;
      && resp.status == p.statusCode
      && resp.body == Body(p.message, None, None, None)
      && resp.headers == RateLimitHeaders(p.max, 0, CeilSeconds(resetTime), CeilSeconds(resetTime - now))
      && (p.windowMs >= 0 ==> resp.headers.retryAfter >= 0)
  {
    var resetTime := Hit(m, p.keyGenerator(req), now, p.windowMs).resetTime;
    if p.windowMs >= 0 {
      HitEndsNoEarlierThanNow(m, p.keyGenerator(req), now, p.windowMs);
    }
  }

  /** The first request for a fresh key is allowed whenever `max >= 1`. */
  lemma FirstRequestAllowed(p: Policy, m: Table, req: Request, now: int)
    requires p.keyGenerator(req) !in m && p.max >= 1
    ensures Limit(p, m, req, now).response.None?
  {
  }

  /** With `max <= 0` every request that is not skipped is denied. */
  lemma ZeroMaxDeniesEverything(p: Policy, m: Table, req: Request, now: int)
    requires WellFormed(m) && !p.skip(req) && p.max <= 0
    ensures Limit(p, m, req, now).response.Some?
  {
  }

  /** `windowMs: 1000, max: 2`, three calls from one address in one
      millisecond: allow, allow, then a 429 with the configured message. */
  lemma ThreeCallsInOneMillisecond(now: int)
    ensures
      var o := Options(Some(1000), Some(2), Some("Test rate limit exceeded"), Some(429),
                       None, None, None, Some("test-limiter"));
      var p := Resolve(o);
      var req := Request(map["x-forwarded-for" := "127.0.0.1"]);
      var o1 := Limit(p, map[], req, now);
      var o2 := Limit(p, o1.table, req, now);
      var o3 := Limit(p, o2.table, req, now);
      && o1.response.None? && o2.response.None?
      && o3.response.Some?
      && o3.response.value.status == 429
      && o3.response.value.body.error == "Test rate limit exceeded"
  {
    var o := Options(Some(1000), Some(2), Some("Test rate limit exceeded"), Some(429),
                     None, None, None, Some("test-limiter"));
    var p := Resolve(o);
    var req := Request(map["x-forwarded-for" := "127.0.0.1"]);
    assert p.keyGenerator(req) == "127.0.0.1";
    assert !p.skip(req);
    var o1 := Limit(p, map[], req, now);
    assert o1.table["127.0.0.1"] == WindowRecord(1, now);
    var o2 := Limit(p, o1.table, req, now);
    assert o2.table["127.0.0.1"] == WindowRecord(2, now);
    var o3 := Limit(p, o2.table, req, now);
    assert o3.table["127.0.0.1"] == WindowRecord(3, now);
  }

  /** For any limiter of two requests per window, three successive calls from
      a fresh key deny the third exactly when all three share one
      millisecond: a fresh key's first window ends at the instant of its first
      call. */
  lemma ThirdDeniedOnlyInOneMillisecond(p: Policy, req: Request, t1: int, t2: int, t3: int)
    requires p.max == 2 && p.windowMs >= 1 && !p.skip(req)
    requires t1 <= t2 <= t3
    ensures
      var o1 := Limit(p, map[], req, t1);
      var o2 := Limit(p, o1.table, req, t2);
      var o3 := Limit(p, o2.table, req, t3);
      o3.response.Some? <==> t1 == t2 == t3
  {
    var key := p.keyGenerator(req);
    var o1 := Limit(p, map[], req, t1);
    assert o1.table[key] == WindowRecord(1, t1);
    var o2 := Limit(p, o1.table, req, t2);
    var o3 := Limit(p, o2.table, req, t3);
    if t2 == t1 {
      assert o2.table[key] == WindowRecord(2, t1);
    } else {
      assert o2.table[key] == WindowRecord(1, t2 + p.windowMs);
    }
  }

  /** The same limiter with more than `windowMs` between the second and third
      call allows all three. */
  lemma ThirdCallAfterTheWindow(now: int, later: int)
    requires later > now + 1000
    ensures
      var p := Resolve(Options(Some(1000), Some(2), None, None, None, None, None, None));
      var req := Request(map["x-forwarded-for" := "127.0.0.1"]);
      var o1 := Limit(p, map[], req, now);
      var o2 := Limit(p, o1.table, req, now);
      var o3 := Limit(p, o2.table, req, later);
      o1.response.None? && o2.response.None? && o3.response.None?
  {
    var p := Resolve(Options(Some(1000), Some(2), None, None, None, None, None, None));
    var req := Request(map["x-forwarded-for" := "127.0.0.1"]);
    assert p.keyGenerator(req) == "127.0.0.1";
    assert !p.skip(req);
    var o1 := Limit(p, map[], req, now);
    var o2 := Limit(p, o1.table, req, now);
    assert o2.table["127.0.0.1"] == WindowRecord(2, now);
    var o3 := Limit(p, o2.table, req, later);
    assert o3.table["127.0.0.1"] == WindowRecord(1, later + 1000);
  }

  /** A limiter whose skip predicate always holds allows every one of any
      sequence of calls and leaves the table as it was. */
  lemma {:induction false} AlwaysSkipAlwaysAllows(p: Policy, m: Table, reqs: seq<Request>, times: seq<int>)
    requires forall req :: p.skip(req)
    requires |reqs| == |times|
    ensures forall i :: 0 <= i < |reqs| ==> Replay(p, m, reqs, times).answers[i].None?
    ensures Replay(p, m, reqs, times).table == m
    decreases |reqs|
  {
    if reqs != [] {
      AlwaysSkipAlwaysAllows(p, m, reqs[1..], times[1..]);
    }
  }

  /** The answers of successive calls, in order, and the final table. */
  datatype Run = Run(answers: seq<Option<Response>>, table: Table)

  /** Runs successive calls, call `i` at instant `times[i]`. */
  function Replay(p: Policy, m: Table, reqs: seq<Request>, times: seq<int>): (run: Run)
    requires |reqs| == |times|
    ensures |run.answers| == |reqs|
    decreases |reqs|
  {
    if reqs == [] then Run([], m)
    else
      var o := Limit(p, m, reqs[0], times[0]);
      var rest := Replay(p, o.table, reqs[1..], times[1..]);
      Run([o.response] + rest.answers, rest.table)
  }

  // ---------------------------------------------------------------------
  // The preconfigured limiters (environment overrides not modelled)

  function StandardLimiterOptions(): Options {
    Options(None, None, None, None, None, None, None, Some("standard"))
  }

  function StrictLimiterOptions(): Options {
    Options(Some(60 * 1000), Some(10), Some("Too many authentication attempts, please try again later."),
            None, None, None, None, Some("strict"))
  }

  function ApiLimiterOptions(): Options {
    Options(Some(60 * 1000), Some(120), None, None, None, None, None, Some("api"))
  }

  /** Their resolved windows, limits and messages. */
  lemma PreconfiguredLimiters()
    ensures var p := Resolve(StandardLimiterOptions());
      p.windowMs == 60000 && p.max == 60 && p.statusCode == 429 && p.message == DefaultMessage
    ensures var p := Resolve(StrictLimiterOptions());
      p.windowMs == 60000 && p.max == 10 && p.statusCode == 429 &&
      p.message == "Too many authentication attempts, please try again later."
    ensures var p := Resolve(ApiLimiterOptions());
      p.windowMs == 60000 && p.max == 120 && p.statusCode == 429 && p.message == DefaultMessage
  {
  }
}
