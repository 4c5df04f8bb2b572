/** The ext-authz check of one request: its stages, the response and the rate-limit counters. */
module Handler {
  import opened Wrappers
  import opened Text
  import opened Config
  import opened Routing
  import opened RedisScript
  import opened Limiter
  import opened BucketKey
  import opened PluginSdk
  import opened HeaderMerge
  import opened PluginChain
  import opened PluginExecutor
  import opened Jwks
  import Validation
  import Compiler

  /** `clientIp` is what the forwarding headers give for the request. */
  datatype Request = Request(
    id: string,
    host: Option<string>,
    path: string,
    verb: string,
    authorization: Option<string>,
    clientIp: string)

  datatype PluginWork = NoEngine | EngineDown | Chain(chain: seq<Binding>, calls: seq<PhaseCall>, late: seq<bool>) {
    predicate Valid() {
      Chain? ==> |chain| == |calls| == |late|
    }
  }

  /** What the request meets: plugins, the answer about its token, Redis, and the clocks. */
  datatype Surroundings = Surroundings(
    plugins: PluginWork,
    identity: Result<Identity, AuthError>,
    call: Call,
    local: real,
    trip: Trip,
    epochSeconds: nat)

  /** Configuration in force, and the providers that have a key cache. */
  datatype Gateway = Gateway(cfg: GatewayConfig, caches: set<string>)

  /** Where the check ends. */
  datatype Ending =
    | Unrouted
    | MethodDenied
    | PluginExited(code: nat)
    | PluginFailed
    | EngineFailed
    | AuthDenied(code: nat)
    | LimiterDown
    | Throttled
    | Admitted

  datatype Answer = Answer(ending: Ending, headers: Headers) {
    /** An exit code that is no HTTP status is answered as 200. */
    function Status(): nat {
      match ending
      case Unrouted => 200
      case MethodDenied => 405
      case PluginExited(code) => if 100 <= code <= 999 then code else 200
      case PluginFailed => 500
      case EngineFailed => 200
      case AuthDenied(code) => code
      case LimiterDown => 503
      case Throttled => 429
      case Admitted => 200
    }
  }

  predicate RatesOk(cfg: GatewayConfig) {
    forall i | 0 <= i < |cfg.routes| :: cfg.routes[i].rateLimit.refillRate > 0.0
  }

  /** What the handler asks of the rates is what validation ensures. */
  lemma AcceptedIsRated(cfg: GatewayConfig, urlOk: string -> bool)
    requires Validation.Acceptable(cfg, urlOk)
    ensures RatesOk(cfg)
  {
    forall i | 0 <= i < |cfg.routes|
      ensures cfg.routes[i].rateLimit.refillRate > 0.0
    {
      Compiler.AcceptedRates(cfg, urlOk, cfg.routes[i]);
    }
  }

  function Inserted(x: Syntax, headers: Headers, name: string, value: string): Headers {
    if x.valueOk(value) then headers[name := value] else headers
  }

  function WithId(x: Syntax, headers: Headers, req: Request): Headers {
    Inserted(x, headers, "x-request-id", req.id)
  }

  function RouteOf(cfg: GatewayConfig, req: Request): Option<Route> {
    MatchRoute(cfg.routes, if req.host.Some? then req.host.value else "*", req.path)
  }

  predicate VerbAllowed(route: Route, req: Request) {
    exists m | m in route.methods :: Lower(m) == Lower(req.verb)
  }

  // Plugins

  /** Headers for upstream and for the response so far, or an early answer. */
  ghost function PluginStage(x: Syntax, req: Request, work: PluginWork): Result<(Headers, Headers), Answer>
    requires work.Valid()
  {
    match work
    case NoEngine => Ok((map[], map[]))
    case EngineDown => Err(Answer(EngineFailed, map[]))
    case Chain(chain, calls, late) =>
      match AccessFrom(chain, calls, late, 0)
      case Continue(upstream, response) => Ok((upstream, Merged(x, map[], response)))
      case ShortCircuit(exit, response) =>
        Err(Answer(PluginExited(exit.status), WithId(x, Merged(x, map[], response), req)))
      case Error(plugin, _) => Err(Answer(PluginFailed, WithId(x, Inserted(x, map[], "x-plugin-error", plugin), req)))
  }

  method ExecuteAccessPlugins(x: Syntax, req: Request, work: PluginWork) returns (r: Result<(Headers, Headers), Answer>)
    requires work.Valid()
    ensures r == PluginStage(x, req, work)
    ensures r.Ok? ==> forall n | n in r.value.0 :: Lower(n) == n && !Reserved(n)
  {
    if work.NoEngine? {
      return Ok((map[], map[]));
    }
    if work.EngineDown? {
      return Err(Answer(EngineFailed, map[]));
    }
    AccessIsClean(work.chain, work.calls, work.late, 0);
    var access, _ := ExecuteAccess(work.chain, work.calls, work.late);
    match access
    case Continue(upstream, response) =>
      var headers := InsertStringHeaders(x, map[], response);
      r := Ok((upstream, headers));
    case ShortCircuit(exit, response) =>
      var headers := InsertStringHeaders(x, map[], response);
      r := Err(Answer(PluginExited(exit.status), WithId(x, headers, req)));
    case Error(plugin, _) =>
      r := Err(Answer(PluginFailed, WithId(x, Inserted(x, map[], "x-plugin-error", plugin), req)));
  }

  // Authentication

  function HttpStatus(e: AuthError): nat {
    match e
    case InsufficientScopes => 403
    case AuthProviderUnavailable => 503
    case JwksFetch => 503
    case _ => 401
  }

  /** The text after "Bearer ", when there is any. */
  function Token(req: Request): Option<string> {
    if req.authorization.Some? && StartsWith(req.authorization.value, "Bearer ") && |req.authorization.value| > 7
    then Some(req.authorization.value[7..])
    else None
  }

  function ProviderName(route: Route): string {
    if route.authProvider.Some? then route.authProvider.value else "main"
  }

  predicate ProviderKnown(g: Gateway, route: Route) {
    (exists p | p in g.cfg.providers :: p.name == ProviderName(route)) && ProviderName(route) in g.caches
  }

  function Joined(parts: seq<string>): string {
    if parts == [] then "" else if |parts| == 1 then parts[0] else parts[0] + "," + Joined(parts[1..])
  }

  /** Response headers with the caller's identity, or the status of the refusal. */
  function AuthStage(x: Syntax, g: Gateway, route: Route, req: Request, identity: Result<Identity, AuthError>,
                     headers: Headers): Result<Headers, nat> {
    if !route.authRequired then Ok(headers)
    else if Token(req).None? then Err(401)
    else if !ProviderKnown(g, route) then Err(503)
    else
      match identity
      case Err(e) => Err(HttpStatus(e))
      case Ok(who) =>
        var withSub := Inserted(x, headers, "x-auth-sub", who.sub);
        var withIss := Inserted(x, withSub, "x-auth-iss", who.iss);
        Ok(Inserted(x, withIss, "x-auth-scopes", Joined(who.scopes)))
  }

  // Rate limiting

  /** The subject as read back from the response headers: absent or unreadable counts as anonymous. */
  function SubjectRead(x: Syntax, headers: Headers): string {
    if "x-auth-sub" in headers && x.readable(headers["x-auth-sub"]) then headers["x-auth-sub"] else "anonymous"
  }

  function KeyValue(x: Syntax, route: Route, req: Request, headers: Headers): string {
    if route.rateLimit.keyBy == "sub" then SubjectRead(x, headers) else req.clientIp
  }

  function LimiterStep(x: Syntax, g: Gateway, route: Route, req: Request, env: Surroundings, headers: Headers): Step {
    var value := KeyValue(x, route, req, headers);
    var key := BuildKey(g.cfg.rateLimits.keyPrefix, route.name, route.rateLimit.keyBy, value);
    Step(env.call, env.local, Check(key, route.rateLimit.bucketCapacity, route.rateLimit.refillRate, env.trip))
  }

  function ModeText(m: Mode): string {
    if m == DegradedLocal then "degraded-local" else "redis"
  }

  function RetrySeconds(d: RateDecision): nat
    requires d.retryMs >= 0
  {
    if d.retryMs / 1000 < 1 then 1 else d.retryMs / 1000
  }

  function WithRate(headers: Headers, d: RateDecision, epochSeconds: nat): Headers
    requires d.remaining >= 0 && d.retryMs >= 0
  {
    headers[
      "x-rate-limit-remaining" := Decimal(d.remaining)][
      "x-rate-limit-limit" := Decimal(d.limit)][
      "x-rate-limit-mode" := ModeText(d.mode)][
      "x-rate-limit-reset" := Decimal(epochSeconds + RetrySeconds(d))]
  }

  lemma DecisionsAreNatural(s: Settings, w: World, a: Action, c: Call, local: real)
    requires a.Check? && a.rate > 0.0
    ensures
      var r := Outcome(s, w, a, c, local);
      r.Ok? ==> r.value.remaining >= 0 && r.value.retryMs >= 0
  {
  }

  // Counters

  datatype Counters = Counters(allowed: map<string, nat>, degraded: map<string, nat>, denied: map<string, nat>)

  function Count(m: map<string, nat>, route: string): nat {
    if route in m then m[route] else 0
  }

  function Bumped(m: map<string, nat>, route: string): map<string, nat> {
    m[route := Count(m, route) + 1]
  }

  /** Exactly one counter moves for each limiter answer. */
  function Recorded(c: Counters, route: string, r: Result<RateDecision, RateLimitError>): Counters {
    if r.Err? || !r.value.allowed then c.(denied := Bumped(c.denied, route))
    else if r.value.mode == DegradedLocal then c.(degraded := Bumped(c.degraded, route))
    else c.(allowed := Bumped(c.allowed, route))
  }

  class Metrics {
    var allowed: map<string, nat>
    var degraded: map<string, nat>
    var denied: map<string, nat>

    ghost function View(): Counters
      reads this
    {
      Counters(allowed, degraded, denied)
    }

    constructor ()
      ensures View() == Counters(map[], map[], map[])
    {
      allowed, degraded, denied := map[], map[], map[];
    }

    method RecordAllowed(route: string)
      modifies this
      ensures View() == old(View()).(allowed := Bumped(old(allowed), route))
    {
      allowed := Bumped(allowed, route);
    }

    method RecordDegraded(route: string)
      modifies this
      ensures View() == old(View()).(degraded := Bumped(old(degraded), route))
    {
      degraded := Bumped(degraded, route);
    }

    method RecordDenied(route: string)
      modifies this
      ensures View() == old(View()).(denied := Bumped(old(denied), route))
    {
      denied := Bumped(denied, route);
    }
  }

  // The whole check

  /** A request that gets as far as the limiter, with what it carries there. */
  datatype Reached = Reached(route: Route, upstream: Headers, headers: Headers, step: Step)

  /** The stages before the limiter. */
  ghost function Prelude(x: Syntax, g: Gateway, req: Request, env: Surroundings): (r: Result<Reached, Answer>)
    requires env.plugins.Valid() && RatesOk(g.cfg)
    ensures r.Ok? ==> r.value.step.action.Check? && r.value.step.action.rate > 0.0
    ensures r.Err? ==> !r.error.ending.Admitted? && !r.error.ending.Throttled? && !r.error.ending.LimiterDown?
  {
    var m := RouteOf(g.cfg, req);
    if m.None? then Err(Answer(Unrouted, WithId(x, map[], req)))
    else
      var route := m.value;
      if !VerbAllowed(route, req) then Err(Answer(MethodDenied, WithId(x, map[], req)))
      else
        match PluginStage(x, req, env.plugins)
        case Err(early) => Err(early)
        case Ok(pair) =>
          match AuthStage(x, g, route, req, env.identity, pair.1)
          case Err(code) => Err(Answer(AuthDenied(code), WithId(x, map[], req)))
          case Ok(headers) => Ok(Reached(route, pair.0, headers, LimiterStep(x, g, route, req, env, headers)))
  }

  /** Response once the limiter has answered. */
  ghost function Finish(x: Syntax, at: Reached, req: Request, env: Surroundings,
                        r: Result<RateDecision, RateLimitError>): Answer
    requires r.Ok? ==> r.value.remaining >= 0 && r.value.retryMs >= 0
  {
    if r.Err? then Answer(LimiterDown, WithId(x, map[], req))
    else
      var headers := WithRate(at.headers, r.value, env.epochSeconds);
      if !r.value.allowed then Answer(Throttled, headers["retry-after" := Decimal(RetrySeconds(r.value))])
      else Answer(Admitted, WithId(x, Merged(x, headers, at.upstream), req))
  }

  ghost function Respond(x: Syntax, s: Settings, w: World, g: Gateway, req: Request, env: Surroundings): Answer
    requires env.plugins.Valid() && RatesOk(g.cfg)
  {
    match Prelude(x, g, req, env)
    case Err(early) => early
    case Ok(at) =>
      DecisionsAreNatural(s, w, at.step.action, at.step.call, at.step.local);
      Finish(x, at, req, env, Outcome(s, w, at.step.action, at.step.call, at.step.local))
  }

  ghost function WorldThen(x: Syntax, s: Settings, w: World, g: Gateway, req: Request, env: Surroundings): World
    requires env.plugins.Valid() && RatesOk(g.cfg)
  {
    match Prelude(x, g, req, env)
    case Err(_) => w
    case Ok(at) => Limiter.Next(s, w, at.step)
  }

  ghost function CountersThen(x: Syntax, s: Settings, w: World, c: Counters, g: Gateway, req: Request,
                              env: Surroundings): Counters
    requires env.plugins.Valid() && RatesOk(g.cfg)
  {
    match Prelude(x, g, req, env)
    case Err(_) => c
    case Ok(at) => Recorded(c, at.route.name, Outcome(s, w, at.step.action, at.step.call, at.step.local))
  }

  class ExtAuthz {
    const x: Syntax
    const limiter: RateLimiter
    const metrics: Metrics

    constructor (x: Syntax, limiter: RateLimiter, metrics: Metrics)
      ensures this.x == x && this.limiter == limiter && this.metrics == metrics
    {
      this.x, this.limiter, this.metrics := x, limiter, metrics;
    }

    /** The stages before the limiter, in the order of the early returns. */
    method Approach(g: Gateway, req: Request, env: Surroundings) returns (r: Result<Reached, Answer>)
      requires env.plugins.Valid() && RatesOk(g.cfg)
      ensures r == Prelude(x, g, req, env)
      ensures r.Ok? ==> forall n | n in r.value.upstream :: Lower(n) == n && !Reserved(n)
    {
      var m := RouteOf(g.cfg, req);
      if m.None? {
        return Err(Answer(Unrouted, WithId(x, map[], req)));
      }
      var route := m.value;
      if !VerbAllowed(route, req) {
        return Err(Answer(MethodDenied, WithId(x, map[], req)));
      }
      var plugins := ExecuteAccessPlugins(x, req, env.plugins);
      if plugins.Err? {
        return Err(plugins.error);
      }
      var auth := AuthStage(x, g, route, req, env.identity, plugins.value.1);
      if auth.Err? {
        return Err(Answer(AuthDenied(auth.error), WithId(x, map[], req)));
      }
      r := Ok(Reached(route, plugins.value.0, auth.value, LimiterStep(x, g, route, req, env, auth.value)));
    }

    /** What follows the limiter's answer: one counter moves, the headers are completed. */
    method Account(at: Reached, req: Request, env: Surroundings, r: Result<RateDecision, RateLimitError>)
      returns (a: Answer)
      requires r.Ok? ==> r.value.remaining >= 0 && r.value.retryMs >= 0
      requires forall n | n in at.upstream :: Lower(n) == n
      modifies metrics
      ensures a == Finish(x, at, req, env, r)
      ensures metrics.View() == Recorded(old(metrics.View()), at.route.name, r)
    {
      if r.Err? {
        metrics.RecordDenied(at.route.name);
        return Answer(LimiterDown, WithId(x, map[], req));
      }
      var headers := WithRate(at.headers, r.value, env.epochSeconds);
      if !r.value.allowed {
        metrics.RecordDenied(at.route.name);
        return Answer(Throttled, headers["retry-after" := Decimal(RetrySeconds(r.value))]);
      }
      if r.value.mode == DegradedLocal {
        metrics.RecordDegraded(at.route.name);
      } else {
        metrics.RecordAllowed(at.route.name);
      }
      headers := InsertStringHeaders(x, headers, at.upstream);
      a := Answer(Admitted, WithId(x, headers, req));
    }

    /** One check; the limiter is asked at most once, and exactly one counter moves when it is. */
    method CheckInner(g: Gateway, req: Request, env: Surroundings) returns (a: Answer)
      requires limiter.Valid() && env.plugins.Valid() && RatesOk(g.cfg)
      modifies limiter, limiter.redis, limiter.fallback.Values, metrics
      ensures limiter.Valid()
      ensures a == Respond(x, limiter.settings, old(limiter.View()), g, req, env)
      ensures limiter.View() == WorldThen(x, limiter.settings, old(limiter.View()), g, req, env)
      ensures metrics.View() == CountersThen(x, limiter.settings, old(limiter.View()), old(metrics.View()), g, req, env)
    {
      var reached := Approach(g, req, env);
      if reached.Err? {
        return reached.error;
      }
      var step := reached.value.step;
      DecisionsAreNatural(limiter.settings, limiter.View(), step.action, step.call, step.local);
      var r := limiter.CheckKey(step);
      a := Account(reached.value, req, env, r);
    }
  }
}

/** Whole runs of the check, with reloads of the configuration and Redis pings in between. */
module HandlerRuns {
  import opened Wrappers
  import opened Text
  import opened Config
  import opened TokenBucket
  import opened Limiter
  import opened LimiterRuns
  import opened BucketKey
  import opened PluginSdk
  import opened HeaderMerge
  import opened PluginChain
  import opened PluginExecutor
  import opened Jwks
  import opened Handler
  import JwksRuns

  // One request

  ghost predicate PluginsPass(work: PluginWork)
    requires work.Valid()
  {
    work.NoEngine? || (work.Chain? && forall j | 0 <= j < |work.chain| :: Passes(work.chain, work.calls, work.late, j))
  }

  ghost predicate AuthPasses(g: Gateway, route: Route, req: Request, identity: Result<Identity, AuthError>) {
    route.authRequired ==> Token(req).Some? && ProviderKnown(g, route) && identity.Ok?
  }

  /** The limiter is asked exactly when a route matches and the verb, plugin and authentication stages pass. */
  lemma ReachesLimiterIff(x: Syntax, g: Gateway, req: Request, env: Surroundings)
    requires env.plugins.Valid() && RatesOk(g.cfg)
    ensures Prelude(x, g, req, env).Ok? <==>
            && RouteOf(g.cfg, req).Some?
            && VerbAllowed(RouteOf(g.cfg, req).value, req)
            && PluginsPass(env.plugins)
            && AuthPasses(g, RouteOf(g.cfg, req).value, req, env.identity)
  {
    if env.plugins.Chain? {
      ContinuesIff(env.plugins.chain, env.plugins.calls, env.plugins.late, 0);
    }
  }

  /** A plugin decided the answer, and the answer is 200. */
  ghost predicate PluginSaysOk(work: PluginWork)
    requires work.Valid()
  {
    || work.EngineDown?
    || (work.Chain?
        && var access := AccessFrom(work.chain, work.calls, work.late, 0);
           access.ShortCircuit? && (access.exit.status == 200 || !(100 <= access.exit.status <= 999)))
  }

  ghost predicate LimiterAllows(x: Syntax, s: Settings, w: World, g: Gateway, req: Request, env: Surroundings)
    requires env.plugins.Valid() && RatesOk(g.cfg)
  {
    && Prelude(x, g, req, env).Ok?
    && var step := Prelude(x, g, req, env).value.step;
       Grants(s, w, step, step.action.key)
  }

  /**
   When the answer is 200, exactly: no route matches; or the plugins end a request with
   an allowed verb that way; or every stage passes and the limiter allows.
   */
  lemma StatusIsOkIff(x: Syntax, s: Settings, w: World, g: Gateway, req: Request, env: Surroundings)
    requires env.plugins.Valid() && RatesOk(g.cfg)
    ensures Respond(x, s, w, g, req, env).Status() == 200 <==>
            var m := RouteOf(g.cfg, req);
            || m.None?
            || (VerbAllowed(m.value, req) && PluginSaysOk(env.plugins))
            || (&& VerbAllowed(m.value, req) && PluginsPass(env.plugins) && AuthPasses(g, m.value, req, env.identity)
                && LimiterAllows(x, s, w, g, req, env))
  {
    ReachesLimiterIff(x, g, req, env);
    if env.plugins.Chain? {
      ContinuesIff(env.plugins.chain, env.plugins.calls, env.plugins.late, 0);
    }
  }

  lemma UpstreamIsClean(x: Syntax, g: Gateway, req: Request, env: Surroundings)
    requires env.plugins.Valid() && RatesOk(g.cfg)
    requires Prelude(x, g, req, env).Ok?
    ensures forall n | n in Prelude(x, g, req, env).value.upstream :: !Reserved(n)
  {
    if env.plugins.Chain? {
      AccessIsClean(env.plugins.chain, env.plugins.calls, env.plugins.late, 0);
    }
  }

  lemma FinishKeepsAuth(x: Syntax, at: Reached, req: Request, env: Surroundings,
                        r: Result<RateDecision, RateLimitError>, name: string)
    requires r.Ok? ==> r.value.remaining >= 0 && r.value.retryMs >= 0
    requires forall n | n in at.upstream :: !Reserved(n)
    requires Finish(x, at, req, env, r).ending.Admitted? && StartsWith(name, "x-auth-")
    ensures Untouched(at.headers, Finish(x, at, req, env, r).headers, name)
  {
    assert name[2] == 'a';
  }

  /** From the authentication step to the response, no `x-auth-` header is added, changed or lost. */
  lemma AuthHeadersSurvive(x: Syntax, s: Settings, w: World, g: Gateway, req: Request, env: Surroundings, name: string)
    requires env.plugins.Valid() && RatesOk(g.cfg)
    requires Respond(x, s, w, g, req, env).ending.Admitted? && StartsWith(name, "x-auth-")
    ensures Untouched(Prelude(x, g, req, env).value.headers, Respond(x, s, w, g, req, env).headers, name)
  {
    var at := Prelude(x, g, req, env).value;
    UpstreamIsClean(x, g, req, env);
    DecisionsAreNatural(s, w, at.step.action, at.step.call, at.step.local);
    FinishKeepsAuth(x, at, req, env, Outcome(s, w, at.step.action, at.step.call, at.step.local), name);
  }

  /** A header as the response shows it: present with this value. */
  ghost predicate Shows(headers: Headers, name: string, value: string) {
    name in headers && headers[name] == value
  }

  lemma IdentityIsSet(x: Syntax, g: Gateway, route: Route, req: Request, identity: Result<Identity, AuthError>,
                      before: Headers)
    requires route.authRequired && AuthStage(x, g, route, req, identity, before).Ok?
    ensures identity.Ok?
    ensures
      var headers, who := AuthStage(x, g, route, req, identity, before).value, identity.value;
      && (x.valueOk(who.sub) ==> Shows(headers, "x-auth-sub", who.sub))
      && (x.valueOk(who.iss) ==> Shows(headers, "x-auth-iss", who.iss))
      && (x.valueOk(Joined(who.scopes)) ==> Shows(headers, "x-auth-scopes", Joined(who.scopes)))
  {
    assert "x-auth-sub"[8] == 'u' && "x-auth-iss"[7] == 'i' && "x-auth-scopes"[8] == 'c';
  }

  /**
   On a route that requires authentication, an admitting response carries the validated
   identity, whatever plugins have set, wherever its parts are legal header values.
   */
  lemma IdentityIsForwarded(x: Syntax, s: Settings, w: World, g: Gateway, req: Request, env: Surroundings)
    requires env.plugins.Valid() && RatesOk(g.cfg)
    requires Respond(x, s, w, g, req, env).ending.Admitted? && RouteOf(g.cfg, req).value.authRequired
    ensures env.identity.Ok?
    ensures
      var headers, who := Respond(x, s, w, g, req, env).headers, env.identity.value;
      && (x.valueOk(who.sub) ==> Shows(headers, "x-auth-sub", who.sub))
      && (x.valueOk(who.iss) ==> Shows(headers, "x-auth-iss", who.iss))
      && (x.valueOk(Joined(who.scopes)) ==> Shows(headers, "x-auth-scopes", Joined(who.scopes)))
  {
    var headers := PluginStage(x, req, env.plugins).value.1;
    assert AuthStage(x, g, RouteOf(g.cfg, req).value, req, env.identity, headers)
        == Ok(Prelude(x, g, req, env).value.headers);
    IdentityIsSet(x, g, RouteOf(g.cfg, req).value, req, env.identity, headers);
    AuthHeadersSurvive(x, s, w, g, req, env, "x-auth-sub");
    AuthHeadersSurvive(x, s, w, g, req, env, "x-auth-iss");
    AuthHeadersSurvive(x, s, w, g, req, env, "x-auth-scopes");
  }

  // Where the identity headers of a response come from

  function Get(headers: Headers, name: string): Option<string> {
    if name in headers then Some(headers[name]) else None
  }

  /** What these calls leave in the response under `name`: the value set last, in whatever case the name was given. */
  function LastSet(ops: seq<Op>, name: string): Option<string> {
    if ops == [] then None
    else
      var op := ops[|ops| - 1];
      if op.SetResponse? && Lower(op.name) == name then Some(op.value) else LastSet(ops[..|ops| - 1], name)
  }

  function SetByPlugins(calls: seq<PhaseCall>, name: string): Option<string> {
    if calls == [] then None
    else
      var own := LastSet(calls[|calls| - 1].Ops(), name);
      if own.Some? then own else SetByPlugins(calls[..|calls| - 1], name)
  }

  lemma {:induction false} ResponseOfCalls(s: State, ops: seq<Op>, name: string)
    ensures Get(ApplyAll(s, ops).response, name)
         == if LastSet(ops, name).Some? then LastSet(ops, name) else Get(s.response, name)
  {
    if ops != [] {
      ResponseOfCalls(s, ops[..|ops| - 1], name);
    }
  }

  lemma {:induction false} ResponseOfChain(chain: seq<Binding>, calls: seq<PhaseCall>, n: nat, name: string)
    requires n <= |chain| == |calls|
    ensures Get(StateAt(chain, calls, n).response, name) == SetByPlugins(calls[..n], name)
  {
    if n > 0 {
      ResponseOfChain(chain, calls, n - 1, name);
      ResponseOfCalls(StateAt(chain, calls, n - 1), calls[n - 1].Ops(), name);
      assert calls[..n][..n - 1] == calls[..n - 1];
    }
  }

  /** The value plugins give a response header, if the header library takes it. */
  function PluginHeader(x: Syntax, work: PluginWork, name: string): Option<string> {
    if work.Chain? && SetByPlugins(work.calls, name).Some? && x.nameOk(name)
       && x.valueOk(SetByPlugins(work.calls, name).value)
    then SetByPlugins(work.calls, name)
    else None
  }

  /** The value authentication gives a response header, if it gives a legal one. */
  function IdentityHeader(x: Syntax, route: Route, identity: Result<Identity, AuthError>, name: string)
    : Option<string>
  {
    if !route.authRequired || identity.Err? then None
    else
      var value := if name == "x-auth-sub" then Some(identity.value.sub)
                   else if name == "x-auth-iss" then Some(identity.value.iss)
                   else if name == "x-auth-scopes" then Some(Joined(identity.value.scopes)) else None;
      if value.Some? && x.valueOk(value.value) then value else None
  }

  lemma {:induction false} ChainsResponse(chain: seq<Binding>, calls: seq<PhaseCall>, late: seq<bool>, k: nat)
    requires k <= |chain| == |calls| == |late| && AccessFrom(chain, calls, late, k).Continue?
    ensures AccessFrom(chain, calls, late, k).response == StateAt(chain, calls, |chain|).response
    decreases |chain| - k
  {
    if k < |chain| {
      ChainsResponse(chain, calls, late, k + 1);
    }
  }

  lemma PluginHeaderIs(x: Syntax, req: Request, work: PluginWork, name: string)
    requires work.Valid() && PluginStage(x, req, work).Ok?
    ensures Get(PluginStage(x, req, work).value.1, name) == PluginHeader(x, work, name)
  {
    if work.Chain? {
      ChainsResponse(work.chain, work.calls, work.late, 0);
      ResponseOfChain(work.chain, work.calls, |work.chain|, name);
      assert work.calls[..|work.chain|] == work.calls;
    }
  }

  lemma IdentityHeaderIs(x: Syntax, g: Gateway, route: Route, req: Request, identity: Result<Identity, AuthError>,
                         before: Headers, name: string)
    requires AuthStage(x, g, route, req, identity, before).Ok?
    ensures
      var own := IdentityHeader(x, route, identity, name);
      Get(AuthStage(x, g, route, req, identity, before).value, name) == if own.Some? then own else Get(before, name)
  {
    assert "x-auth-sub"[8] == 'u' && "x-auth-iss"[7] == 'i' && "x-auth-scopes"[8] == 'c';
  }

  /**
   Where each `x-auth-` header of an admitting response comes from, in all cases: from the
   validated identity when the route requires authentication and the value is legal, and
   otherwise from the plugin that set it last, if any.
   */
  lemma AuthHeaderOrigin(x: Syntax, s: Settings, w: World, g: Gateway, req: Request, env: Surroundings, name: string)
    requires env.plugins.Valid() && RatesOk(g.cfg)
    requires Respond(x, s, w, g, req, env).ending.Admitted? && StartsWith(name, "x-auth-")
    ensures
      var own := IdentityHeader(x, RouteOf(g.cfg, req).value, env.identity, name);
      Get(Respond(x, s, w, g, req, env).headers, name) == if own.Some? then own else PluginHeader(x, env.plugins, name)
  {
    var before := PluginStage(x, req, env.plugins).value.1;
    AuthHeadersSurvive(x, s, w, g, req, env, name);
    PluginHeaderIs(x, req, env.plugins, name);
    IdentityHeaderIs(x, g, RouteOf(g.cfg, req).value, req, env.identity, before, name);
  }

  function RequiredScopes(route: Route): seq<string> {
    if route.requiredScopes.Some? then route.requiredScopes.value else []
  }

  /** The handler's answer about the token is that of this finished call of the key cache. */
  ghost predicate AnsweredBy(c: JwksRuns.Check, route: Route, req: Request, env: Surroundings) {
    && c.phase.Done? && env.identity == c.phase.result
    && Token(req) == Some(c.token) && c.required == RequiredScopes(route)
  }

  /** A key of a set that was current during the call verified the token as this identity, at a time during the call. */
  ghost predicate VerifiedDuring(lib: Library, run: JwksRuns.System, c: JwksRuns.Check, who: Identity) {
    exists keys, k, t :: && JwksRuns.CurrentDuring(run, c, keys) && k in keys
                         && c.start <= t <= JwksRuns.Until(run, c)
                         && lib.verify(c.token, k, t).Ok? && Stands(lib, lib.verify(c.token, k, t).value, who)
  }

  /**
   From the key cache to the response: in every interleaving of fetches and checks, an
   admitting response on an authenticated route means that a key of a set current during
   the check verified the request's own token, with every scope the route requires, and
   that its subject is what `x-auth-sub` shows if it is a legal header value.
   */
  lemma AdmittedIsVerified(x: Syntax, s: Settings, w: World, g: Gateway, req: Request, env: Surroundings,
                           lib: Library, ttl: nat, doc: seq<RawKey>, at: real, steps: seq<JwksRuns.Step>, id: nat)
    requires env.plugins.Valid() && RatesOk(g.cfg)
    requires Respond(x, s, w, g, req, env).ending.Admitted? && RouteOf(g.cfg, req).value.authRequired
    requires JwksRuns.After(lib, ttl, doc, at, steps).Some?
    requires id in JwksRuns.After(lib, ttl, doc, at, steps).value.checks
    requires AnsweredBy(JwksRuns.After(lib, ttl, doc, at, steps).value.checks[id], RouteOf(g.cfg, req).value, req, env)
    ensures env.identity.Ok?
    ensures
      var run, who := JwksRuns.After(lib, ttl, doc, at, steps).value, env.identity.value;
      && VerifiedDuring(lib, run, run.checks[id], who)
      && (forall scope | scope in RequiredScopes(RouteOf(g.cfg, req).value) :: scope in who.scopes)
      && (x.valueOk(who.sub) ==> Shows(Respond(x, s, w, g, req, env).headers, "x-auth-sub", who.sub))
  {
    IdentityIsForwarded(x, s, w, g, req, env);
    JwksRuns.AnswersAreExplained(lib, ttl, doc, at, steps, id);
    var run := JwksRuns.After(lib, ttl, doc, at, steps).value;
    VerdictIsVerified(lib, run, run.checks[id], env.identity.value);
  }

  lemma VerdictIsVerified(lib: Library, run: JwksRuns.System, c: JwksRuns.Check, who: Identity)
    requires JwksRuns.Judges(lib, run, c, Ok(who))
    ensures VerifiedDuring(lib, run, c, who)
    ensures forall scope | scope in c.required :: scope in who.scopes
  {
    var keys, t :| JwksRuns.Verdict(lib, run, c, keys, t, Ok(who));
    AcceptsIff(lib, c.token, keys, c.required, t, who);
    var kid, i :| && lib.header(c.token) == Some(Header(true, Some(kid)))
                  && FirstWithId(keys, kid, i)
                  && lib.verify(c.token, keys[i], t).Ok?
                  && Stands(lib, lib.verify(c.token, keys[i], t).value, who)
                  && forall scope | scope in c.required :: scope in who.scopes;
    assert keys[i] in keys;
  }

  /** Whatever can be read back could be stored, and so could the anonymous subject. */
  ghost predicate WellRead(x: Syntax) {
    (forall v :: x.readable(v) ==> x.valueOk(v)) && x.readable("anonymous")
  }

  lemma HttpIsWellRead()
    ensures WellRead(HTTP)
  {
  }

  /** Headers that plugins set and the library stored are legal. */
  lemma StoredAreLegal(x: Syntax, req: Request, work: PluginWork)
    requires work.Valid() && PluginStage(x, req, work).Ok?
    ensures forall n | n in PluginStage(x, req, work).value.1 :: x.valueOk(PluginStage(x, req, work).value.1[n])
  {
  }

  function KeyFor(g: Gateway, route: Route, value: string): string {
    BuildKey(g.cfg.rateLimits.keyPrefix, route.name, route.rateLimit.keyBy, value)
  }

  lemma SameKeySameValue(g: Gateway, route: Route, v: string, w: string)
    ensures KeyFor(g, route, v) == KeyFor(g, route, w) <==> v == w
  {
    var head := Head(g.cfg.rateLimits.keyPrefix, route.name, route.rateLimit.keyBy);
    assert KeyFor(g, route, v)[|head|..] == v && KeyFor(g, route, w)[|head|..] == w;
  }

  /** Whose bucket is charged, in all cases. */
  lemma ChargedTo(x: Syntax, g: Gateway, req: Request, env: Surroundings)
    requires env.plugins.Valid() && RatesOk(g.cfg) && Prelude(x, g, req, env).Ok?
    ensures
      var key := Prelude(x, g, req, env).value.step.action.key;
      var route := RouteOf(g.cfg, req).value;
      var fromPlugins := SubjectRead(x, PluginStage(x, req, env.plugins).value.1);
      && (route.rateLimit.keyBy != "sub" ==> key == KeyFor(g, route, req.clientIp))
      && (route.rateLimit.keyBy == "sub" && !route.authRequired ==> key == KeyFor(g, route, fromPlugins))
      && (route.rateLimit.keyBy == "sub" && route.authRequired ==>
            && env.identity.Ok?
            && var sub := env.identity.value.sub;
               var charged := if !x.valueOk(sub) then fromPlugins else if x.readable(sub) then sub else "anonymous";
               key == KeyFor(g, route, charged))
  {
    ReachesLimiterIff(x, g, req, env);
    var route := RouteOf(g.cfg, req).value;
    if route.authRequired {
      IdentityIsSet(x, g, route, req, env.identity, PluginStage(x, req, env.plugins).value.1);
      if !x.valueOk(env.identity.value.sub) {
        SubjectAlone(x, g, route, req, env.identity, PluginStage(x, req, env.plugins).value.1);
      }
    }
  }

  /** A subject that is no legal header value leaves what plugins set in its place. */
  lemma SubjectAlone(x: Syntax, g: Gateway, route: Route, req: Request, identity: Result<Identity, AuthError>,
                     before: Headers)
    requires route.authRequired && AuthStage(x, g, route, req, identity, before).Ok? && identity.Ok?
    requires !x.valueOk(identity.value.sub)
    ensures Untouched(before, AuthStage(x, g, route, req, identity, before).value, "x-auth-sub")
  {
    assert "x-auth-sub"[8] == 'u' && "x-auth-iss"[7] == 'i' && "x-auth-scopes"[8] == 'c';
  }

  /**
   On an authenticated route that counts by subject, the validated subject's own bucket is
   charged if and only if the subject can be read back from a header. All subjects that
   can be stored and not read share one bucket; one that cannot even be stored is charged
   to the subject a plugin named, if any.
   */
  lemma SubjectChargedIff(x: Syntax, g: Gateway, req: Request, env: Surroundings)
    requires WellRead(x) && env.plugins.Valid() && RatesOk(g.cfg) && Prelude(x, g, req, env).Ok?
    requires RouteOf(g.cfg, req).value.authRequired && RouteOf(g.cfg, req).value.rateLimit.keyBy == "sub"
    ensures env.identity.Ok?
    ensures
      var sub := env.identity.value.sub;
      Prelude(x, g, req, env).value.step.action.key == KeyFor(g, RouteOf(g.cfg, req).value, sub) <==> x.readable(sub)
  {
    var route := RouteOf(g.cfg, req).value;
    var fromPlugins := SubjectRead(x, PluginStage(x, req, env.plugins).value.1);
    ChargedTo(x, g, req, env);
    StoredAreLegal(x, req, env.plugins);
    SameKeySameValue(g, route, env.identity.value.sub, fromPlugins);
    SameKeySameValue(g, route, env.identity.value.sub, "anonymous");
  }

  // Runs

  datatype Event =
    | Served(g: Gateway, req: Request, env: Surroundings)
    | Pinged(ping: Step)

  ghost predicate Proper(events: seq<Event>) {
    forall i | 0 <= i < |events| ::
      match events[i]
      case Served(g, _, env) => env.plugins.Valid() && RatesOk(g.cfg)
      case Pinged(ping) => ping.action.Ping?
  }

  datatype Condition = Condition(world: World, counters: Counters)

  ghost function AfterEvent(x: Syntax, s: Settings, before: Condition, e: Event): Condition
    requires Proper([e])
  {
    assert [e][0] == e;
    match e
    case Served(g, req, env) =>
      Condition(WorldThen(x, s, before.world, g, req, env),
          CountersThen(x, s, before.world, before.counters, g, req, env))
    case Pinged(ping) => before.(world := Limiter.Next(s, before.world, ping))
  }

  ghost function AfterEvents(x: Syntax, s: Settings, start: Condition, events: seq<Event>): Condition
    requires Proper(events)
  {
    if events == [] then start
    else
      assert [events[|events| - 1]][0] == events[|events| - 1];
      AfterEvent(x, s, AfterEvents(x, s, start, events[..|events| - 1]), events[|events| - 1])
  }

  /** A use of the limiter: a check for a route, or a ping. */
  datatype Use = Use(route: Option<string>, step: Step)

  ghost function Uses1(x: Syntax, e: Event): (u: seq<Use>)
    requires Proper([e])
    ensures |u| <= 1
  {
    assert [e][0] == e;
    match e
    case Served(g, req, env) =>
      (match Prelude(x, g, req, env)
       case Err(_) => []
       case Ok(at) => [Use(Some(at.route.name), at.step)])
    case Pinged(ping) => [Use(None, ping)]
  }

  /** Every use of the limiter during the run, in order. */
  ghost function Log(x: Syntax, events: seq<Event>): seq<Use>
    requires Proper(events)
  {
    if events == [] then []
    else
      assert [events[|events| - 1]][0] == events[|events| - 1];
      Log(x, events[..|events| - 1]) + Uses1(x, events[|events| - 1])
  }

  ghost function Steps(log: seq<Use>): (steps: seq<Step>)
    ensures |steps| == |log|
    ensures forall i | 0 <= i < |log| :: steps[i] == log[i].step
  {
    seq(|log|, i requires 0 <= i < |log| => log[i].step)
  }

  ghost function ChecksOf(log: seq<Use>, route: string): nat {
    if log == [] then 0
    else ChecksOf(log[..|log| - 1], route) + if log[|log| - 1].route == Some(route) then 1 else 0
  }

  ghost function Total(c: Counters, route: string): nat {
    Count(c.allowed, route) + Count(c.degraded, route) + Count(c.denied, route)
  }

  lemma RecordedOnce(c: Counters, name: string, r: Result<RateDecision, RateLimitError>, route: string)
    ensures Total(Recorded(c, name, r), route) == Total(c, route) + if name == route then 1 else 0
  {
  }

  lemma ChecksOne(u: Use, route: string)
    ensures ChecksOf([u], route) == if u.route == Some(route) then 1 else 0
  {
    assert [u][..0] == [];
    assert ChecksOf([u][..0], route) == 0;
  }

  /** One event moves a route's counters by the checks it makes for the route. */
  lemma CountersMove(x: Syntax, s: Settings, before: Condition, e: Event, route: string)
    requires Proper([e])
    ensures Total(AfterEvent(x, s, before, e).counters, route)
              == Total(before.counters, route) + ChecksOf(Uses1(x, e), route)
  {
    assert [e][0] == e;
    if Uses1(x, e) != [] {
      ChecksOne(Uses1(x, e)[0], route);
      if e.Served? {
        var at := Prelude(x, e.g, e.req, e.env).value;
        RecordedOnce(before.counters, at.route.name,
            Outcome(s, before.world, at.step.action, at.step.call, at.step.local), route);
      }
    }
  }

  lemma ChecksAdd(log: seq<Use>, used: seq<Use>, route: string)
    requires |used| <= 1
    ensures ChecksOf(log + used, route) == ChecksOf(log, route) + ChecksOf(used, route)
  {
    if used == [] {
      assert log + used == log;
    } else {
      assert (log + used)[..|log|] == log;
      assert used[..0] == [];
      assert ChecksOf(used[..0], route) == 0;
    }
  }

  /** Over every run, a route's three counters together grow by the number of its limiter checks. */
  lemma {:induction false} CountersAddUp(x: Syntax, s: Settings, start: Condition, events: seq<Event>, route: string)
    requires Proper(events)
    ensures Total(AfterEvents(x, s, start, events).counters, route)
         == Total(start.counters, route) + ChecksOf(Log(x, events), route)
  {
    if events != [] {
      var n := |events| - 1;
      assert [events[n]][0] == events[n];
      CountersAddUp(x, s, start, events[..n], route);
      CountersMove(x, s, AfterEvents(x, s, start, events[..n]), events[n], route);
      ChecksAdd(Log(x, events[..n]), Uses1(x, events[n]), route);
    }
  }

  lemma {:induction false} LogIsPositive(x: Syntax, events: seq<Event>)
    requires Proper(events)
    ensures Positive(Steps(Log(x, events)))
  {
    if events != [] {
      LogIsPositive(x, events[..|events| - 1]);
    }
  }

  /** The limiter's state is that of a limiter run of exactly the logged steps. */
  lemma {:induction false} WorldIsLimiterRun(x: Syntax, s: Settings, start: Condition, events: seq<Event>)
    requires Proper(events)
    ensures Positive(Steps(Log(x, events)))
    ensures AfterEvents(x, s, start, events).world == WorldAfter(s, start.world, Steps(Log(x, events)))
  {
    LogIsPositive(x, events);
    if events != [] {
      var n := |events| - 1;
      WorldIsLimiterRun(x, s, start, events[..n]);
      var log, used := Log(x, events[..n]), Uses1(x, events[n]);
      if used == [] {
        assert log + used == log;
      } else {
        assert Steps(log + used)[..|log|] == Steps(log);
      }
    }
  }

  /** The event is a request admitted on bucket `key`. */
  ghost predicate AdmittedOn(x: Syntax, s: Settings, w: World, e: Event, key: string)
    requires Proper([e])
  {
    assert [e][0] == e;
    && e.Served?
    && Prelude(x, e.g, e.req, e.env).Ok?
    && Prelude(x, e.g, e.req, e.env).value.step.action.key == key
    && Respond(x, s, w, e.g, e.req, e.env).ending.Admitted?
  }

  /** Requests admitted on `key` from event `i` on. */
  ghost function AdmittedSince(x: Syntax, s: Settings, start: Condition, events: seq<Event>, key: string, i: nat): nat
    requires Proper(events) && i <= |events|
  {
    if i == |events| then 0
    else
      var n := |events| - 1;
      assert [events[n]][0] == events[n];
      var last := if AdmittedOn(x, s, AfterEvents(x, s, start, events[..n]).world, events[n], key) then 1 else 0;
      AdmittedSince(x, s, start, events[..n], key, i) + last
  }

  lemma {:induction false} GrantedPrefix(s: Settings, w: World, steps: seq<Step>, more: seq<Step>, key: string, i: nat,
                                         j: nat)
    requires Positive(steps) && Positive(steps + more) && i <= j <= |steps|
    ensures Granted(s, w, steps + more, key, i, j) == Granted(s, w, steps, key, i, j)
  {
    if i < j {
      assert (steps + more)[..j - 1] == steps[..j - 1];
      GrantedPrefix(s, w, steps, more, key, i, j - 1);
    }
  }

  lemma GrantedSnoc(s: Settings, w: World, steps: seq<Step>, step: Step, key: string, c: nat)
    requires Positive(steps) && Positive(steps + [step]) && c <= |steps|
    ensures step.action.Check? ==> step.action.rate > 0.0
    ensures Granted(s, w, steps + [step], key, c, |steps| + 1)
         == Granted(s, w, steps, key, c, |steps|) + if Grants(s, WorldAfter(s, w, steps), step, key) then 1 else 0
  {
    assert (steps + [step])[|steps|] == step;
    assert (steps + [step])[..|steps|] == steps;
    GrantedPrefix(s, w, steps, [step], key, c, |steps|);
  }

  /** An admitted request is a grant of the limiter, and every grant is an admitted request. */
  lemma AdmittedIsGrant(x: Syntax, s: Settings, w: World, e: Event, key: string)
    requires Proper([e]) && Uses1(x, e) != []
    ensures
      var step := Uses1(x, e)[0].step;
      && (step.action.Check? ==> step.action.rate > 0.0)
      && (AdmittedOn(x, s, w, e, key) <==> Grants(s, w, step, key))
  {
    assert [e][0] == e;
  }

  /** Grants on `key` in the limiter run of the logged steps, from step `c` on. */
  ghost function GrantsSince(x: Syntax, s: Settings, start: Condition, events: seq<Event>, key: string, c: nat): nat
    requires Proper(events) && c <= |Log(x, events)|
  {
    LogIsPositive(x, events);
    Granted(s, start.world, Steps(Log(x, events)), key, c, |Log(x, events)|)
  }

  /** What the last event adds to the grants. */
  lemma LastEvent(x: Syntax, s: Settings, start: Condition, events: seq<Event>, key: string, c: nat)
    requires Proper(events) && events != []
    requires c <= |Log(x, events[..|events| - 1])|
    ensures Proper([events[|events| - 1]])
    ensures c <= |Log(x, events)|
    ensures
      var before, e := events[..|events| - 1], events[|events| - 1];
      GrantsSince(x, s, start, events, key, c)
      == GrantsSince(x, s, start, before, key, c)
         + if AdmittedOn(x, s, AfterEvents(x, s, start, before).world, e, key) then 1 else 0
  {
    var n := |events| - 1;
    var e := events[n];
    assert [e][0] == e;
    var log, used := Log(x, events[..n]), Uses1(x, e);
    assert Log(x, events) == log + used;
    LogIsPositive(x, events);
    LogIsPositive(x, events[..n]);
    if used == [] {
      assert log + used == log;
    } else {
      WorldIsLimiterRun(x, s, start, events[..n]);
      assert Steps(log + used) == Steps(log) + [used[0].step];
      GrantedSnoc(s, start.world, Steps(log), used[0].step, key, c);
      AdmittedIsGrant(x, s, AfterEvents(x, s, start, events[..n]).world, e, key);
    }
  }

  lemma NoneYet(x: Syntax, s: Settings, start: Condition, events: seq<Event>, key: string)
    requires Proper(events)
    ensures AdmittedSince(x, s, start, events, key, |events|)
              == GrantsSince(x, s, start, events, key, |Log(x, events)|) == 0
  {
  }

  lemma AdmittedLast(x: Syntax, s: Settings, start: Condition, events: seq<Event>, key: string, i: nat)
    requires Proper(events) && i < |events|
    ensures Proper([events[|events| - 1]])
    ensures
      var before, e := events[..|events| - 1], events[|events| - 1];
      AdmittedSince(x, s, start, events, key, i)
      == AdmittedSince(x, s, start, before, key, i)
         + if AdmittedOn(x, s, AfterEvents(x, s, start, before).world, e, key) then 1 else 0
  {
    assert [events[|events| - 1]][0] == events[|events| - 1];
  }

  /** Requests admitted from event `i` on are the grants from step `c` on. */
  ghost predicate Matches(x: Syntax, s: Settings, start: Condition, events: seq<Event>, key: string, i: nat, c: nat)
    requires Proper(events)
  {
    && i <= |events| && c <= |Log(x, events)|
    && AdmittedSince(x, s, start, events, key, i) == GrantsSince(x, s, start, events, key, c)
  }

  lemma MatchesStep(x: Syntax, s: Settings, start: Condition, events: seq<Event>, key: string, i: nat, c: nat)
    requires Proper(events) && i < |events|
    requires Matches(x, s, start, events[..|events| - 1], key, i, c)
    ensures Matches(x, s, start, events, key, i, c)
  {
    LastEvent(x, s, start, events, key, c);
    AdmittedLast(x, s, start, events, key, i);
  }

  /** The requests admitted in a window are exactly the limiter's grants in it. */
  lemma {:induction false} AdmittedAreGranted(x: Syntax, s: Settings, start: Condition, events: seq<Event>,
                                              key: string, i: nat)
    requires Proper(events) && i <= |events|
    ensures Matches(x, s, start, events, key, i, |Log(x, events[..i])|)
  {
    if i == |events| {
      assert events[..i] == events;
      NoneYet(x, s, start, events, key);
    } else {
      var n := |events| - 1;
      assert events[..n][..i] == events[..i];
      AdmittedAreGranted(x, s, start, events[..n], key, i);
      MatchesStep(x, s, start, events, key, i, |Log(x, events[..i])|);
    }
  }

  /** What is admitted from event `i` on, and between which uses of the limiter. */
  ghost predicate Bounded(x: Syntax, s: Settings, start: Condition, events: seq<Event>, key: string, p: Params, i: nat,
                          extra: real)
    requires Proper(events) && i <= |events|
  {
    var steps := Steps(Log(x, events));
    var admitted := AdmittedSince(x, s, start, events, key, i);
    var first := |Log(x, events[..i])|;
    && first <= |steps|
    && (first == |steps| ==> admitted == 0)
    && (first < |steps| ==> admitted as real <= Budget(s, p, steps[first], steps[|steps| - 1]) + extra)
  }

  /** How often the key expired too soon in the window. */
  ghost function EarlyDropsSince(x: Syntax, s: Settings, start: Condition, events: seq<Event>, key: string, p: Params,
                                 i: nat): nat
    requires Proper(events) && i <= |events|
  {
    LogIsPositive(x, events);
    var steps, first := Steps(Log(x, events)), |Log(x, events[..i])|;
    if first <= |steps| then EarlyDrops(s, start.world, steps, key, p, first, |steps|) else 0
  }

  /**
   End to end, without any condition on lifetimes: in every window of every run of requests,
   reloads and pings, whatever Redis does, the requests finally admitted on one bucket key
   are at most what the Redis bucket and the fallback bucket may together hand out between
   the window's first and last use of the limiter, for the largest capacity and rate in
   use, plus one capacity for each time the key expired before that bucket was full.
   */
  lemma AdmissionsOverdraft(x: Syntax, s: Settings, connected: bool, counters: Counters, events: seq<Event>,
                            key: string, p: Params, i: nat)
    requires Proper(events) && i <= |events|
    requires s.survivability && s.fallbackRate >= 0.0 && p.rate > 0.0 && p.capacity >= 0.0
    requires RunWithin(key, p, Steps(Log(x, events))) && InOrder(Steps(Log(x, events)))
    ensures
      var start := Condition(World(connected, map[], map[]), counters);
      Bounded(x, s, start, events, key, p, i, Refunds(p, EarlyDropsSince(x, s, start, events, key, p, i)))
  {
    var start := Condition(World(connected, map[], map[]), counters);
    var first := |Log(x, events[..i])|;
    AdmittedAreGranted(x, s, start, events, key, i);
    LogIsPositive(x, events);
    if first < |Log(x, events)| {
      OverdraftBound(s, connected, Steps(Log(x, events)), key, p, first, |Log(x, events)|);
    } else {
      NoneYet(x, s, start, events, key);
    }
  }

  /**
   And within the budget of the two buckets when hashes live long enough for the largest
   capacity and rate that reloads give the route.
   */
  lemma AdmissionsAreBounded(x: Syntax, s: Settings, connected: bool, counters: Counters, events: seq<Event>,
                             key: string, t: Terms, i: nat)
    requires Proper(events) && i <= |events|
    requires s.survivability && s.fallbackRate >= 0.0
    requires Sound(t) && Keeps(key, t, Steps(Log(x, events))) && InOrder(Steps(Log(x, events)))
    ensures Bounded(x, s, Condition(World(connected, map[], map[]), counters), events, key, t.p, i, 0.0)
  {
    var start := Condition(World(connected, map[], map[]), counters);
    var steps, first := Steps(Log(x, events)), |Log(x, events[..i])|;
    AdmittedAreGranted(x, s, start, events, key, i);
    LogIsPositive(x, events);
    if first < |steps| {
      TwoBackendBound(s, connected, steps, key, t, first, |steps|);
    } else {
      NoneYet(x, s, start, events, key);
    }
  }
}
