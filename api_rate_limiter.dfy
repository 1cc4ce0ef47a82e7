/** The composition layer of lib/rateLimiter.js: API limiters with their own
    defaults, a handler wrapper that short-circuits on denial, and a limiter
    with three tiers chosen by the caller's role. */
module ApiRateLimiter {
  import opened Http
  import opened WindowStore
  import opened RateLimiter

  /** `{ ...base, ...over }`: every property `over` sets replaces the one of
      `base`. */
  function Merge(base: Options, over: Options): Options
  {
    Options(
      if over.windowMs.Some? then over.windowMs else base.windowMs,
      if over.max.Some? then over.max else base.max,
      if over.message.Some? then over.message else base.message,
      if over.statusCode.Some? then over.statusCode else base.statusCode,
      if over.keyGenerator.Some? then over.keyGenerator else base.keyGenerator,
      if over.skip.Some? then over.skip else base.skip,
      if over.store.Some? then over.store else base.store,
      if over.identifier.Some? then over.identifier else base.identifier)
  }

  /** `createApiRateLimiter(options)`: a one-minute, sixty-request window
      under whatever the caller sets. */
  function ApiOptions(options: Options): Options {
    Merge(Options(Some(60 * 1000), Some(60), None, None, None, None, None, None), options)
  }

  /** The limiter `createApiRateLimiter` wraps; `checkRateLimit` only forwards
      to it. */
  method CreateApiRateLimiter(options: Options) returns (l: Limiter)
    ensures l.policy == Resolve(ApiOptions(options))
    ensures options.store.Some? ==> l.store == options.store.value
    ensures options.store.None? ==> fresh(l.store) && l.store.store == map[]
  {
    l := new Limiter(ApiOptions(options));
  }

  /** The API defaults apply where the caller is silent and yield to the
      caller everywhere else. */
  lemma ApiOptionsDefaults(options: Options, req: Request)
    ensures Resolve(ApiOptions(options)).windowMs == options.windowMs.GetOr(60000)
    ensures Resolve(ApiOptions(options)).max == options.max.GetOr(60)
    ensures Resolve(ApiOptions(options)).message == Resolve(options).message
    ensures Resolve(ApiOptions(options)).statusCode == Resolve(options).statusCode
    ensures Resolve(ApiOptions(options)).identifier == Resolve(options).identifier
    ensures Resolve(ApiOptions(options)).keyGenerator(req) == Resolve(options).keyGenerator(req)
    ensures Resolve(ApiOptions(options)).skip(req) == Resolve(options).skip(req)
    ensures ApiOptions(options).store == options.store
  {
  }

  // ---------------------------------------------------------------------
  // withRateLimit

  /** What the wrapped handler answers once the limiter has decided: its
      response when it denied, otherwise `handler(request, ...args)`. */
  function Guarded<A>(decision: Option<Response>, handler: (Request, A) -> Response, req: Request, args: A): Response {
    if decision.Some? then decision.value else handler(req, args)
  }

  /** A denial is passed through whatever the handler would have answered, so
      the handler plays no part in it. */
  lemma DenialShortCircuits<A>(resp: Response, h1: (Request, A) -> Response, h2: (Request, A) -> Response, req: Request, args: A)
    ensures Guarded(Some(resp), h1, req, args) == resp
    ensures Guarded(Some(resp), h1, req, args) == Guarded(Some(resp), h2, req, args)
  {
  }

  /** An allowed request gets exactly the handler's answer. */
  lemma AllowedReachesHandler<A>(handler: (Request, A) -> Response, req: Request, args: A)
    ensures Guarded(None, handler, req, args) == handler(req, args)
  {
  }

  /** The function `withRateLimit(handler, options)` returns. */
  class RateLimitedHandler<A> {
    const limiter: Limiter
    const handler: (Request, A) -> Response

    constructor (handler: (Request, A) -> Response, options: Options)
      ensures this.handler == handler
      ensures limiter.policy == Resolve(ApiOptions(options))
      ensures options.store.Some? ==> limiter.store == options.store.value
      ensures options.store.None? ==> fresh(limiter.store) && limiter.store.store == map[]
    {
      this.handler := handler;
      this.limiter := new Limiter(ApiOptions(options));
    }

    /** Checks the limit at `now`, then answers. */
    method Handle(req: Request, args: A, now: int) returns (r: Response)
      modifies limiter.store
      ensures var o := Limit(limiter.policy, old(limiter.store.store), req, now);
        limiter.store.store == o.table && r == Guarded(o.response, handler, req, args)
    {
      var denial := limiter.Check(req, now);
      if denial.Some? {
        return denial.value;
      }
      r := handler(req, args);
    }
  }

  // ---------------------------------------------------------------------
  // createTieredRateLimiter

  datatype Tier = Anonymous | Authenticated | Admin

  /** The tier a role selects: `'admin'` exactly, then any truthy role, then
      none (null, absent or empty). */
  function TierOf(role: Option<string>): (t: Tier)
    ensures t == Admin <==> role == Some("admin")
    ensures t == Authenticated <==> role.Some? && role.value != "" && role.value != "admin"
    ensures t == Anonymous <==> role.None? || role.value == ""
  {
    if role == Some("admin") then Admin
    else if role.Some? && role.value != "" then Authenticated
    else Anonymous
  }

  function TierName(t: Tier): string {
    match t
    case Anonymous => "anonymous"
    case Authenticated => "authenticated"
    case Admin => "admin"
  }

  function TierPrefix(t: Tier): string {
    match t
    case Anonymous => "anon_"
    case Authenticated => "auth_"
    case Admin => "admin_"
  }

  /** A tier's default key: its prefix and `x-forwarded-for`, else the
      sentinel; `x-real-ip` is not consulted. */
  function TierKey(t: Tier, req: Request): string {
    TierPrefix(t) + HeaderOr(req, "x-forwarded-for", "unknown-ip")
  }

  /** A tier's default limits when the caller gives no configuration for it. */
  function DefaultTierOptions(t: Tier): Options {
    match t
    case Anonymous => Options(Some(60 * 1000), Some(30), None, None, None, None, None, None)
    case Authenticated => Options(Some(60 * 1000), Some(100), None, None, None, None, None, None)
    case Admin => Options(Some(60 * 1000), Some(300), None, None, None, None, None, None)
  }

  /** The options of `createTieredRateLimiter`: one configuration per tier, a
      shared key generator, and every other property (`rest`). The source's
      destructuring takes `keyGenerator` out of `rest`, so `rest.keyGenerator`
      is ignored: `TierOptions` always replaces it. */
  datatype TieredOptions = TieredOptions(
    anonymous: Option<Options>,
    authenticated: Option<Options>,
    admin: Option<Options>,
    keyGenerator: Option<Request -> string>,
    rest: Options)

  function TierConfig(o: TieredOptions, t: Tier): Options {
    match t
    case Anonymous => o.anonymous.GetOr(DefaultTierOptions(Anonymous))
    case Authenticated => o.authenticated.GetOr(DefaultTierOptions(Authenticated))
    case Admin => o.admin.GetOr(DefaultTierOptions(Admin))
  }

  /** `{ ...tier, ...restOptions, keyGenerator: keyGenerator || default,
      identifier: name }`. */
  function TierOptions(o: TieredOptions, t: Tier): Options {
    var keyGen := if o.keyGenerator.Some? then o.keyGenerator.value else (req: Request) => TierKey(t, req);
    Merge(Merge(TierConfig(o, t), o.rest),
          Options(None, None, None, None, Some(keyGen), None, None, Some(TierName(t))))
  }

  /** Top-level options beat the tier's own, a caller key generator replaces
      all three defaults, and the identifier is always the tier's name. */
  lemma TierPolicy(o: TieredOptions, t: Tier, req: Request)
    ensures var p := Resolve(TierOptions(o, t));
      && p.windowMs == (if o.rest.windowMs.Some? then o.rest.windowMs.value else TierConfig(o, t).windowMs.GetOr(60000))
      && p.max == (if o.rest.max.Some? then o.rest.max.value else TierConfig(o, t).max.GetOr(60))
      && p.identifier == TierName(t)
      && p.keyGenerator(req) == (if o.keyGenerator.Some? then o.keyGenerator.value(req) else TierKey(t, req))
  {
  }

  /** With no options the tiers allow 30, 100 and 300 requests a minute. */
  lemma DefaultTiers()
    ensures var o := TieredOptions(None, None, None, None, NoOptions());
      && Resolve(TierOptions(o, Anonymous)).max == 30
      && Resolve(TierOptions(o, Authenticated)).max == 100
      && Resolve(TierOptions(o, Admin)).max == 300
      && Resolve(TierOptions(o, Anonymous)).windowMs == 60000
      && Resolve(TierOptions(o, Authenticated)).windowMs == 60000
      && Resolve(TierOptions(o, Admin)).windowMs == 60000
  {
  }

  /** Default keys of different tiers never coincide, whatever the requests. */
  lemma TierKeysDisjoint(t1: Tier, t2: Tier, r1: Request, r2: Request)
    requires t1 != t2
    ensures TierKey(t1, r1) != TierKey(t2, r2)
  {
    var k1, k2 := TierKey(t1, r1), TierKey(t2, r2);
    assert k1[1] == TierPrefix(t1)[1] && k2[1] == TierPrefix(t2)[1];
  }

  /** Anonymous callers limited to 2 and admins to 5: three calls in one
      millisecond from one address deny the third anonymous call and allow
      all three admin calls, each tier counting in its own store. */
  lemma TierIsolation(now: int)
    ensures
      var o := TieredOptions(Some(Options(Some(60000), Some(2), None, None, None, None, None, None)), None,
                             Some(Options(Some(60000), Some(5), None, None, None, None, None, None)), None, NoOptions());
      var anon := Resolve(TierOptions(o, TierOf(None)));
      var admin := Resolve(TierOptions(o, TierOf(Some("admin"))));
      var req := Request(map["x-forwarded-for" := "10.0.0.1"]);
      var a1 := Limit(anon, map[], req, now);
      var a2 := Limit(anon, a1.table, req, now);
      var a3 := Limit(anon, a2.table, req, now);
      var d1 := Limit(admin, map[], req, now);
      var d2 := Limit(admin, d1.table, req, now);
      var d3 := Limit(admin, d2.table, req, now);
      && a1.response.None? && a2.response.None? && a3.response.Some?
      && d1.response.None? && d2.response.None? && d3.response.None?
  {
    var o := TieredOptions(Some(Options(Some(60000), Some(2), None, None, None, None, None, None)), None,
                           Some(Options(Some(60000), Some(5), None, None, None, None, None, None)), None, NoOptions());
    var anon := Resolve(TierOptions(o, Anonymous));
    var admin := Resolve(TierOptions(o, Admin));
    var req := Request(map["x-forwarded-for" := "10.0.0.1"]);
    TierPolicy(o, Anonymous, req);
    TierPolicy(o, Admin, req);
    var ka, kd := anon.keyGenerator(req), admin.keyGenerator(req);
    assert !anon.skip(req) && !admin.skip(req);
    var a1 := Limit(anon, map[], req, now);
    assert a1.table[ka] == WindowRecord(1, now);
    var a2 := Limit(anon, a1.table, req, now);
    assert a2.table[ka] == WindowRecord(2, now);
    var a3 := Limit(anon, a2.table, req, now);
    assert a3.table[ka] == WindowRecord(3, now);
    var d1 := Limit(admin, map[], req, now);
    assert d1.table[kd] == WindowRecord(1, now);
    var d2 := Limit(admin, d1.table, req, now);
    assert d2.table[kd] == WindowRecord(2, now);
    var d3 := Limit(admin, d2.table, req, now);
    assert d3.table[kd] == WindowRecord(3, now);
  }

  /** A tier gets a store of its own unless the caller passes one, at the
      top level (shared by all three) or in that tier's configuration. */
  lemma TierStoreOption(o: TieredOptions, t: Tier)
    ensures TierOptions(o, t).store == (if o.rest.store.Some? then o.rest.store else TierConfig(o, t).store)
  {
  }

  /** The function `createTieredRateLimiter` returns, with its three limiters. */
  class TieredLimiter {
    const anonymous: Limiter
    const authenticated: Limiter
    const admin: Limiter

    function Select(t: Tier): Limiter {
      match t
      case Anonymous => anonymous
      case Authenticated => authenticated
      case Admin => admin
    }

    /** Three limiters, each with a store of its own unless the options
        share one. */
    constructor (o: TieredOptions)
      ensures forall t :: Select(t).policy == Resolve(TierOptions(o, t))
      ensures forall t :: TierOptions(o, t).store.Some? ==> Select(t).store == TierOptions(o, t).store.value
      ensures forall t :: TierOptions(o, t).store.None? ==> fresh(Select(t).store) && Select(t).store.store == map[]
      ensures forall t, u :: t != u && TierOptions(o, t).store.None? ==> Select(t).store != Select(u).store
    {
      var oAnon, oAuth, oAdmin := TierOptions(o, Anonymous), TierOptions(o, Authenticated), TierOptions(o, Admin);
      anonymous := new Limiter(oAnon);
      authenticated := new Limiter(oAuth);
      admin := new Limiter(oAdmin);
      new;
      forall t, u | t != u && TierOptions(o, t).store.None?
        ensures Select(t).store != Select(u).store
      {
        assert fresh(Select(t).store);
        assert TierOptions(o, u).store.None? ==> fresh(Select(u).store);
      }
    }

    /** `tieredRateLimiter(request, userRole)`: exactly the selected tier's
        limiter runs, and only its store may change. */
    method Check(req: Request, role: Option<string>, now: int) returns (r: Option<Response>)
      modifies Select(TierOf(role)).store
      ensures var l := Select(TierOf(role));
        Outcome(r, l.store.store) == Limit(l.policy, old(l.store.store), req, now)
      ensures forall t :: Select(t).store != Select(TierOf(role)).store ==>
        Select(t).store.store == old(Select(t).store.store)
    {
      if role == Some("admin") {
        r := admin.Check(req, now);
      } else if role.Some? && role.value != "" {
        r := authenticated.Check(req, now);
      } else {
        r := anonymous.Check(req, now);
      }
    }
  }

  // ---------------------------------------------------------------------
  // The preconfigured API limiters

  function StrictRateLimiterOptions(): Options {
    Options(Some(60 * 1000), Some(10), Some("Too many requests to this endpoint. Please try again later."),
            None, None, None, None, Some("strict-api"))
  }

  function StandardRateLimiterOptions(): Options {
    Options(None, None, None, None, None, None, None, Some("standard-api"))
  }

  function GenerousRateLimiterOptions(): Options {
    Options(Some(60 * 1000), Some(200), None, None, None, None, None, Some("generous-api"))
  }

  lemma PreconfiguredApiLimiters()
    ensures var p := Resolve(ApiOptions(StrictRateLimiterOptions()));
      p.windowMs == 60000 && p.max == 10 && p.identifier == "strict-api"
    ensures var p := Resolve(ApiOptions(StandardRateLimiterOptions()));
      p.windowMs == 60000 && p.max == 60 && p.identifier == "standard-api"
    ensures var p := Resolve(ApiOptions(GenerousRateLimiterOptions()));
      p.windowMs == 60000 && p.max == 200 && p.identifier == "generous-api"
  {
  }
}
