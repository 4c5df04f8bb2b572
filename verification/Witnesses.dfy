/** A small accepted configuration, and variants of it on which promises one might expect fail. */
module Samples {
  import opened Wrappers
  import opened Text
  import opened Config
  import opened Endpoints
  import opened Validation

  const ADDRESS := "a:1"
  const JWKS_URI := "http://k"

  const NO_PLUGINS := Plugins(false, "", PluginLimits(0, 0, 0), [])

  function Plain(name: string, hostnames: seq<string>, prefix: string): Route {
    Route(name, hostnames, prefix, ["GET"], false, None, None, RouteRateLimit(1, 1.0, "ip"), Upstream("svc", 0, 0), [])
  }

  function Backend(name: string): Service {
    Service(name, [ADDRESS], HealthCheck("/", 1, 1))
  }

  function Sample(routes: seq<Route>, services: seq<Service>, extauthz: Option<string>, extProc: bool,
                  plugins: Plugins): GatewayConfig {
    GatewayConfig(
      1, GatewayServer(ADDRESS, ADDRESS, 0, extauthz), [AuthProvider("main", JWKS_URI, 60)], RateLimits(ADDRESS, "rl"),
      routes, services, Tracing(false, "", 0.0), plugins, Endpoint(true, ADDRESS), Endpoint(extProc, ADDRESS))
  }

  ghost predicate GoodPlugins(plugins: seq<PluginInstance>) {
    && (forall i | 0 <= i < |plugins| :: !IsBlank(plugins[i].name) && plugins[i].failMode in VALID_FAIL_MODES)
    && (forall i, j | 0 <= i < j < |plugins| :: plugins[i].name != plugins[j].name)
  }

  ghost predicate GoodRoute(r: Route) {
    && r.name != "" && r.hostnames != [] && r.methods == ["GET"] && StartsWith(r.pathPrefix, "/")
    && (r.authRequired ==> r.authProvider == Some("main")) && r.requiredScopes.None?
    && r.rateLimit.bucketCapacity >= 1 && r.rateLimit.refillRate > 0.0 && r.rateLimit.keyBy in VALID_KEY_BY
    && r.upstream.service == "svc"
    && GoodPlugins(r.plugins)
  }

  ghost predicate GoodService(s: Service) {
    s.name != "" && s.endpoints == [ADDRESS] && s.healthCheck.path == "/"
  }

  ghost predicate Good(cfg: GatewayConfig) {
    && (forall i | 0 <= i < |cfg.routes| :: GoodRoute(cfg.routes[i]))
    && (forall i, j | 0 <= i < j < |cfg.routes| :: cfg.routes[i].name != cfg.routes[j].name)
    && (forall i | 0 <= i < |cfg.services| :: GoodService(cfg.services[i]))
    && (forall i, j | 0 <= i < j < |cfg.services| :: cfg.services[i].name != cfg.services[j].name)
    && (exists i :: 0 <= i < |cfg.services| && cfg.services[i].name == "svc")
    && (cfg.gateway.extauthzAddress.Some? ==> cfg.gateway.extauthzAddress.value == ADDRESS)
    && GoodPlugins(cfg.plugins.instances)
    && (cfg.plugins.enabled ==>
          && !IsBlank(cfg.plugins.directory) && cfg.plugins.limits.maxMemoryBytes > 0
          && cfg.plugins.limits.maxInstructions > 0 && cfg.plugins.limits.chainTimeoutMs > 0)
  }

  lemma AddressIsGood()
    ensures IsHostPort(ADDRESS)
  {
    assert ADDRESS[..2] == "a:" && ADDRESS[..1] == "a";
    assert "a:"[..1] == "a";
    assert RSplitFrom("a:", "1", ':') == ["1", "a"];
    assert ['1'] + "" == "1";
    assert RSplitFrom(ADDRESS, "", ':') == ["1", "a"];
  }

  lemma GoodPluginsPass(scope: Scope, plugins: seq<PluginInstance>, e: ConfigError)
    requires GoodPlugins(plugins)
    ensures !PluginsViolation(scope, plugins, e)
  {
  }

  lemma GoodRoutePasses(r: Route, e: ConfigError)
    requires GoodRoute(r)
    ensures !RouteViolation(r, e) && !ConditionalViolation(r, e)
  {
    GoodPluginsPass(OfRoute(r.name), r.plugins, e);
    assert "GET" in VALID_METHODS;
  }

  lemma GoodReferences(cfg: GatewayConfig, r: Route, e: ConfigError)
    requires Good(cfg) && r in cfg.routes && cfg.providers == [AuthProvider("main", JWKS_URI, 60)]
    ensures !ReferenceViolation(Elements(ServiceNames(cfg.services)), Elements(ProviderNames(cfg.providers)), r, e)
  {
    var i :| 0 <= i < |cfg.services| && cfg.services[i].name == "svc";
    assert ServiceNames(cfg.services)[i] == "svc";
    assert ProviderNames(cfg.providers)[0] == "main";
  }

  lemma GoodServicePasses(s: Service, e: ConfigError)
    requires GoodService(s)
    ensures !ServiceViolation(s, e)
  {
    AddressIsGood();
  }

  /** A sample with good parts is accepted, under any rule for URLs that takes the one it uses. */
  lemma SampleIsAccepted(routes: seq<Route>, services: seq<Service>, extauthz: Option<string>, extProc: bool,
                         plugins: Plugins, urlOk: string -> bool)
    requires urlOk(JWKS_URI) && Good(Sample(routes, services, extauthz, extProc, plugins))
    ensures Acceptable(Sample(routes, services, extauthz, extProc, plugins), urlOk)
  {
    var cfg := Sample(routes, services, extauthz, extProc, plugins);
    AddressIsGood();
    forall e
      ensures !Violates(cfg, urlOk, e)
    {
      GoodPluginsPass(Global, cfg.plugins.instances, e);
      forall r | r in cfg.routes
        ensures !RouteViolation(r, e) && !ConditionalViolation(r, e)
        ensures !ReferenceViolation(Elements(ServiceNames(cfg.services)), Elements(ProviderNames(cfg.providers)), r, e)
      {
        GoodRoutePasses(r, e);
        GoodReferences(cfg, r, e);
      }
      forall s | s in cfg.services
        ensures !ServiceViolation(s, e)
      {
        GoodServicePasses(s, e);
      }
    }
  }
}

/** Inputs that fail, each accepted by the validator where the validator has a say. */
module Witnesses {
  import opened Wrappers
  import opened Text
  import opened Config
  import opened Validation
  import opened VirtualHosts
  import opened HostAgreement
  import opened Routing
  import opened Compiler
  import opened Samples

  const SVC := [Backend("svc")]

  /** Two routes on overlapping hostnames: domain "b" is in two virtual hosts. */
  lemma OverlapIsAccepted(urlOk: string -> bool)
    requires urlOk(JWKS_URI)
    ensures
      var cfg := Sample([Plain("r", ["a", "b"], "/"), Plain("s", ["b"], "/")], SVC, None, false, NO_PLUGINS);
      && Acceptable(cfg, urlOk)
      && ShareDomain(StaticHosts(cfg.routes)) && ShareDomain(XdsHosts(cfg.routes))
  {
    var r, s := Plain("r", ["a", "b"], "/"), Plain("s", ["b"], "/");
    var cfg := Sample([r, s], SVC, None, false, NO_PLUGINS);
    assert cfg.services[0].name == "svc";
    SampleIsAccepted([r, s], SVC, None, false, NO_PLUGINS, urlOk);
    SameNames(r, "a");
    SameNames(s, "a");
    assert r in cfg.routes && s in cfg.routes && "b" in r.hostnames && "b" in s.hostnames;
    AcceptedNames(cfg, urlOk);
    DomainsSharedIff(cfg.routes);
  }

  /** A general route before a special one: Envoy takes the first for "/x", the gateway the second. */
  lemma OrderIsAccepted(urlOk: string -> bool)
    requires urlOk(JWKS_URI)
    ensures
      var r, s := Plain("r", ["h"], "/"), Plain("s", ["h"], "/x");
      var cfg := Sample([r, s], SVC, None, false, NO_PLUGINS);
      && Acceptable(cfg, urlOk)
      && Describes(cfg.routes, FirstKeys(cfg.routes), StaticHosts(cfg.routes))
      && EnvoyRoute(cfg.routes, FirstKeys(cfg.routes), StaticHosts(cfg.routes), "h", "/x") == Some(r)
      && MatchRoute(cfg.routes, "h", "/x") == Some(s)
  {
    var r, s := Plain("r", ["h"], "/"), Plain("s", ["h"], "/x");
    var cfg := Sample([r, s], SVC, None, false, NO_PLUGINS);
    assert cfg.services[0].name == "svc";
    SampleIsAccepted([r, s], SVC, None, false, NO_PLUGINS, urlOk);
    AcceptedNames(cfg, urlOk);
    assert "/x"[..1] == "/" && "/x"[..2] == "/x";
    FirstTakesAll(r, s, "h", "/x");
  }

  /** Two routes of one group that both match: Envoy takes the first, the gateway the longer. */
  lemma FirstTakesAll(r: Route, s: Route, host: string, path: string)
    requires UniqueNames([r, s]) && r.hostnames == s.hostnames && host in r.hostnames
    requires StartsWith(path, r.pathPrefix) && StartsWith(path, s.pathPrefix) && |r.pathPrefix| < |s.pathPrefix|
    ensures
      && Describes([r, s], FirstKeys([r, s]), StaticHosts([r, s]))
      && EnvoyRoute([r, s], FirstKeys([r, s]), StaticHosts([r, s]), host, path) == Some(r)
      && MatchRoute([r, s], host, path) == Some(s)
  {
    StaticDescribes([r, s]);
    OneGroup(r, s);
    OneHost([r, s], [HostKey(r)], StaticHosts([r, s]), r, s, host, path);
    LongerWins(r, s, host, path);
  }

  lemma OneHost<T>(routes: seq<Route>, keys: seq<seq<string>>, vs: Hosts<T>, r: Route, s: Route, host: string,
                   path: string)
    requires Describes(routes, keys, vs) && keys == [HostKey(r)] && Members(routes, HostKey(r)) == [r, s]
    requires host in r.hostnames && StartsWith(path, r.pathPrefix)
    ensures EnvoyRoute(routes, keys, vs, host, path) == Some(r)
  {
    SameNames(r, host);
    assert keys[0] == HostKey(r);
    assert host in vs[0].domains;
    assert SamePrefixes(vs[0].entries, Members(routes, keys[0]));
    assert vs[0].entries[0].prefix == r.pathPrefix;
  }

  lemma LongerWins(r: Route, s: Route, host: string, path: string)
    requires Candidate(r, host, path) && Candidate(s, host, path) && |r.pathPrefix| < |s.pathPrefix|
    ensures MatchRoute([r, s], host, path) == Some(s)
  {
    assert [r, s][0] == r && [r, s][1] == s;
  }

  lemma OneGroup(r: Route, s: Route)
    requires HostKey(r) == HostKey(s)
    ensures FirstKeys([r, s]) == [HostKey(r)] && Members([r, s], HostKey(r)) == [r, s]
  {
    assert [r, s][..1] == [r] && [r][..0] == [];
    assert FirstKeys([r]) == [HostKey(r)] && Members([r], HostKey(r)) == [r];
  }

  /** A service named like the authorization cluster: two clusters of the static output share a name. */
  lemma ClusterNameIsAccepted(urlOk: string -> bool)
    requires urlOk(JWKS_URI)
    ensures
      var services := [Backend("svc"), Backend(EXT_AUTHZ_CLUSTER)];
      var cfg := Sample([Plain("r", ["h"], "/")], services, Some(ADDRESS), false, NO_PLUGINS);
      Acceptable(cfg, urlOk) && GenerateEnvoyConfig(cfg).Ok? && !DistinctNames(GenerateEnvoyConfig(cfg).value.clusters)
  {
    var services := [Backend("svc"), Backend(EXT_AUTHZ_CLUSTER)];
    var cfg := Sample([Plain("r", ["h"], "/")], services, Some(ADDRESS), false, NO_PLUGINS);
    assert cfg.services[0].name == "svc" && |"svc"| != |EXT_AUTHZ_CLUSTER|;
    SampleIsAccepted(cfg.routes, services, Some(ADDRESS), false, NO_PLUGINS, urlOk);
    ValidatedCompiles(cfg, urlOk);
    assert services[1] in cfg.services && services[1].name == EXT_AUTHZ_CLUSTER;
    ClusterNamesDistinctIff(cfg, urlOk);
  }

  /** External processing switched on: the listeners of the two back ends differ. */
  lemma ProcessingIsAccepted(urlOk: string -> bool)
    requires urlOk(JWKS_URI)
    ensures
      var cfg := Sample([Plain("r", ["h"], "/")], SVC, None, true, NO_PLUGINS);
      Acceptable(cfg, urlOk) && Roles(StaticFilters(cfg)) != Roles(XdsFilters(cfg))
  {
    var cfg := Sample([Plain("r", ["h"], "/")], SVC, None, true, NO_PLUGINS);
    assert cfg.services[0].name == "svc";
    SampleIsAccepted(cfg.routes, SVC, None, true, NO_PLUGINS, urlOk);
    FiltersAgreeIff(cfg);
  }
}

/** The same for headers, the handler, plugins and reloads. */
module HandlerWitnesses {
  import opened Wrappers
  import opened Config
  import opened Endpoints
  import opened Validation
  import opened Compiler
  import opened PluginChain
  import opened PluginSdk
  import opened HeaderMerge
  import opened PluginExecutor
  import opened PluginPoolRuns
  import opened PluginIds
  import opened RedisScript
  import opened Limiter
  import opened BucketKey
  import opened XdsSnapshots
  import opened Jwks
  import opened Samples
  import Reload
  import ReloadRuns
  import Routing
  import H = Handler
  import R = HandlerRuns

  const SVC := [Backend("svc")]

  // Headers

  const REMAINING := "x-rate-limit-remaining"

  /** The gateway's own header is not protected: some plugin call changes it in some response. */
  lemma RateHeaderIsNotProtected()
    ensures !Reserved(REMAINING)
    ensures exists headers, ops :: !Untouched(headers, AfterMerge(HTTP, headers, ops), REMAINING)
  {
    assert REMAINING[2] == 'r' && REMAINING[6] == '-';
    assert "x-auth-"[2] == 'a' && "x-ratelimit-"[6] == 'l' && "x-envoy-"[2] == 'e';
    assert Lower(REMAINING) == REMAINING;
    assert IsName(REMAINING) && IsValue("0") && IsValue("9");
    ProtectedIffReserved(HTTP, REMAINING, "0", "9");
  }

  // The handler

  function Guarded(keyBy: string): Route {
    Plain("r", ["h"], "/").(authRequired := true, authProvider := Some("main"),
        rateLimit := RouteRateLimit(1, 1.0, keyBy))
  }

  function GuardedConfig(keyBy: string): GatewayConfig {
    Sample([Guarded(keyBy)], SVC, None, false, NO_PLUGINS)
  }

  lemma GuardedIsAccepted(keyBy: string, urlOk: string -> bool)
    requires urlOk(JWKS_URI) && keyBy in VALID_KEY_BY
    ensures Acceptable(GuardedConfig(keyBy), urlOk) && H.RatesOk(GuardedConfig(keyBy))
  {
    assert GuardedConfig(keyBy).services[0].name == "svc";
    assert GoodRoute(Guarded(keyBy));
    SampleIsAccepted([Guarded(keyBy)], SVC, None, false, NO_PLUGINS, urlOk);
    H.AcceptedIsRated(GuardedConfig(keyBy), urlOk);
  }

  function Ask(authorization: Option<string>): H.Request {
    H.Request("1", Some("h"), "/", "GET", authorization, "1.2.3.4")
  }

  function Around(plugins: H.PluginWork, identity: Result<Identity, AuthError>): H.Surroundings {
    H.Surroundings(plugins, identity, Call(0.0, 0.0, false), 0.0, Replied, 0)
  }

  lemma GuardedIsMatched(keyBy: string, authorization: Option<string>)
    ensures H.RouteOf(GuardedConfig(keyBy), Ask(authorization)) == Some(Guarded(keyBy))
    ensures H.VerbAllowed(Guarded(keyBy), Ask(authorization))
  {
    var route := Guarded(keyBy);
    assert "/"[..1] == "/" && [route][..0] == [];
    assert Routing.Candidate(route, "h", "/");
    assert "GET" in route.methods;
  }

  /** When the plugin engine fails, a request without any token on a guarded route is answered 200. */
  lemma EngineFailureIsOk(urlOk: string -> bool, s: Settings, w: World)
    requires urlOk(JWKS_URI)
    ensures
      var g := H.Gateway(GuardedConfig("ip"), {"main"});
      && Acceptable(g.cfg, urlOk) && H.RatesOk(g.cfg)
      && H.Respond(HTTP, s, w, g, Ask(None), Around(H.EngineDown, Err(InvalidToken))).Status() == 200
  {
    GuardedIsAccepted("ip", urlOk);
    GuardedIsMatched("ip", None);
  }

  function Who(sub: string): Result<Identity, AuthError> {
    Ok(Identity(sub, "", [], [], 0))
  }

  lemma GuardedIsReached(work: H.PluginWork, sub: string)
    requires work.Valid() && R.PluginsPass(work) && H.RatesOk(GuardedConfig("sub"))
    ensures H.Prelude(HTTP, H.Gateway(GuardedConfig("sub"), {"main"}), Ask(Some("Bearer t")),
              Around(work, Who(sub))).Ok?
  {
    var g, req, env := H.Gateway(GuardedConfig("sub"), {"main"}), Ask(Some("Bearer t")), Around(work, Who(sub));
    GuardedIsMatched("sub", Some("Bearer t"));
    assert "Bearer t"[..7] == "Bearer ";
    assert g.cfg.providers[0].name == "main";
    R.ReachesLimiterIff(HTTP, g, req, env);
  }

  /** A subject outside ASCII is stored and cannot be read back: the shared anonymous bucket is charged. */
  lemma UnreadableSubject(urlOk: string -> bool)
    requires urlOk(JWKS_URI)
    ensures
      var g := H.Gateway(GuardedConfig("sub"), {"main"});
      var at := H.Prelude(HTTP, g, Ask(Some("Bearer t")), Around(H.NoEngine, Who("\U{E9}")));
      && Acceptable(g.cfg, urlOk) && H.RatesOk(g.cfg)
      && at.Ok? && at.value.step.action.key == R.KeyFor(g, Guarded("sub"), "anonymous")
  {
    var g := H.Gateway(GuardedConfig("sub"), {"main"});
    GuardedIsAccepted("sub", urlOk);
    GuardedIsReached(H.NoEngine, "\U{E9}");
    GuardedIsMatched("sub", Some("Bearer t"));
    assert "\U{E9}"[0] == '\U{E9}' && !IsReadable("\U{E9}") && IsValue("\U{E9}");
    R.ChargedTo(HTTP, g, Ask(Some("Bearer t")), Around(H.NoEngine, Who("\U{E9}")));
  }

  const NAMING := Binding("r:p", "p", 0, "", false, "", "")

  /** A chain of one plugin that puts a subject of its own into the response headers. */
  function Naming(sub: string): H.PluginWork {
    H.Chain([NAMING], [Ran([SetResponse("x-auth-sub", sub)], Returned)], [false])
  }

  lemma NamingPasses(sub: string)
    requires IsValue(sub)
    ensures R.PluginsPass(Naming(sub))
    ensures
      var stage := H.PluginStage(HTTP, Ask(Some("Bearer t")), Naming(sub));
      stage.Ok? && R.Shows(stage.value.1, "x-auth-sub", sub)
  {
    var work := Naming(sub);
    var ops := [SetResponse("x-auth-sub", sub)];
    assert ops[..0] == [];
    assert Lower("x-auth-sub") == "x-auth-sub" && IsName("x-auth-sub");
    assert ApplyAll(EMPTY, ops[..0]) == EMPTY;
    assert ApplyAll(EMPTY, ops) == State(map[], map["x-auth-sub" := sub], None);
    assert work.chain[0].name == "p" && work.calls[0].ops == ops;
    var zero: nat := |work.chain| - 1;
    assert StateAt(work.chain, work.calls, zero) == EMPTY;
    assert StateAt(work.chain, work.calls, zero + 1) == State(map[], map["x-auth-sub" := sub], None);
    assert Passes(work.chain, work.calls, work.late, zero);
    ContinuesIff(work.chain, work.calls, work.late, zero);
    assert AccessFrom(work.chain, work.calls, work.late, zero + 1) == Continue(map[], map["x-auth-sub" := sub]);
  }

  /** A subject that is no legal header value is charged to the subject a plugin named. */
  lemma IllegalSubject(urlOk: string -> bool)
    requires urlOk(JWKS_URI)
    ensures
      var g := H.Gateway(GuardedConfig("sub"), {"main"});
      var at := H.Prelude(HTTP, g, Ask(Some("Bearer t")), Around(Naming("other"), Who("a\nb")));
      && Acceptable(g.cfg, urlOk) && H.RatesOk(g.cfg)
      && at.Ok? && at.value.step.action.key == R.KeyFor(g, Guarded("sub"), "other")
  {
    var g := H.Gateway(GuardedConfig("sub"), {"main"});
    GuardedIsAccepted("sub", urlOk);
    assert "a\nb"[1] == '\n' && !IsValue("a\nb");
    ChargedToNamed(g, "other", "a\nb");
  }

  lemma ChargedToNamed(g: H.Gateway, name: string, sub: string)
    requires g == H.Gateway(GuardedConfig("sub"), {"main"}) && H.RatesOk(g.cfg)
    requires IsValue(name) && IsReadable(name) && !IsValue(sub)
    ensures
      var at := H.Prelude(HTTP, g, Ask(Some("Bearer t")), Around(Naming(name), Who(sub)));
      at.Ok? && at.value.step.action.key == R.KeyFor(g, Guarded("sub"), name)
  {
    NamingPasses(name);
    GuardedIsReached(Naming(name), sub);
    GuardedIsMatched("sub", Some("Bearer t"));
    R.ChargedTo(HTTP, g, Ask(Some("Bearer t")), Around(Naming(name), Who(sub)));
  }

  const OPEN := [Plain("a", ["h"], "/"), Plain("a:ip:b", ["h"], "/x")]

  function OpenConfig(): GatewayConfig {
    Sample(OPEN, SVC, None, false, NO_PLUGINS)
  }

  lemma OpenIsAccepted(urlOk: string -> bool)
    requires urlOk(JWKS_URI)
    ensures Acceptable(OpenConfig(), urlOk) && H.RatesOk(OpenConfig())
  {
    assert OpenConfig().services[0].name == "svc";
    assert GoodRoute(OPEN[0]) && GoodRoute(OPEN[1]) && |OPEN[0].name| != |OPEN[1].name|;
    SampleIsAccepted(OPEN, SVC, None, false, NO_PLUGINS, urlOk);
    H.AcceptedIsRated(OpenConfig(), urlOk);
  }

  function From(path: string, clientIp: string): H.Request {
    H.Request("1", Some("h"), path, "GET", None, clientIp)
  }

  lemma OpenIsReached(path: string, clientIp: string, route: Route, work: H.PluginWork,
                      identity: Result<Identity, AuthError>)
    requires H.RatesOk(OpenConfig()) && work.Valid() && R.PluginsPass(work)
    requires (path == "/" && route == OPEN[0]) || (path == "/x" && route == OPEN[1])
    ensures H.RouteOf(OpenConfig(), From(path, clientIp)) == Some(route)
    ensures
      var g := H.Gateway(OpenConfig(), {});
      var at := H.Prelude(HTTP, g, From(path, clientIp), Around(work, identity));
      at.Ok? && at.value.step.action == Check(R.KeyFor(g, route, clientIp), 1, 1.0, Replied)
  {
    var g, req, env := H.Gateway(OpenConfig(), {}), From(path, clientIp), Around(work, identity);
    assert "/"[..1] == "/" && "/x"[..1] == "/" && "/x"[..2] == "/x" && |"/"| < |"/x"|;
    assert OPEN == [OPEN[0], OPEN[1]] && [OPEN[0], OPEN[1]][..1] == [OPEN[0]] && [OPEN[0]][..0] == [];
    assert Routing.Candidate(OPEN[0], "h", path);
    assert Routing.Candidate(OPEN[1], "h", path) <==> path == "/x";
    assert H.RouteOf(g.cfg, req) == Some(route);
    assert "GET" in route.methods;
    R.ReachesLimiterIff(HTTP, g, req, env);
    R.ChargedTo(HTTP, g, req, env);
  }

  /** Route "a" for client "b:ip:v" and route "a:ip:b" for client "v": two requests on one bucket key. */
  lemma ClashIsAccepted(urlOk: string -> bool)
    requires urlOk(JWKS_URI)
    ensures
      var g, env := H.Gateway(OpenConfig(), {}), Around(H.NoEngine, Err(InvalidToken));
      && Acceptable(g.cfg, urlOk) && H.RatesOk(g.cfg)
      && var one, two := H.Prelude(HTTP, g, From("/", "b:ip:v"), env), H.Prelude(HTTP, g, From("/x", "v"), env);
         && one.Ok? && two.Ok? && one.value.route.name == "a" && two.value.route.name == "a:ip:b"
         && one.value.step.action.key == two.value.step.action.key
  {
    OpenIsAccepted(urlOk);
    OpenIsReached("/", "b:ip:v", OPEN[0], H.NoEngine, Err(InvalidToken));
    OpenIsReached("/x", "v", OPEN[1], H.NoEngine, Err(InvalidToken));
    KeysCanClash();
  }

  /** The first request on a key is allowed. */
  lemma FirstIsAllowed(s: Settings, key: string)
    ensures
      var r := Outcome(s, World(true, map[], map[]), Check(key, 1, 1.0, Replied), Call(0.0, 0.0, false), 0.0);
      r.Ok? && r.value.allowed
  {
  }

  lemma OpenIsAdmitted(s: Settings, work: H.PluginWork, clientIp: string, identity: Result<Identity, AuthError>)
    requires H.RatesOk(OpenConfig()) && work.Valid() && R.PluginsPass(work)
    ensures H.RouteOf(OpenConfig(), From("/", clientIp)) == Some(OPEN[0])
    ensures
      var g := H.Gateway(OpenConfig(), {});
      H.Respond(HTTP, s, World(true, map[], map[]), g, From("/", clientIp), Around(work, identity)).ending.Admitted?
  {
    OpenIsReached("/", clientIp, OPEN[0], work, identity);
    FirstIsAllowed(s, R.KeyFor(H.Gateway(OpenConfig(), {}), OPEN[0], clientIp));
  }

  lemma NamingShows(sub: string)
    requires IsValue(sub)
    ensures R.PluginHeader(HTTP, Naming(sub), "x-auth-sub") == Some(sub)
  {
    NamingPasses(sub);
    R.PluginHeaderIs(HTTP, Ask(Some("Bearer t")), Naming(sub), "x-auth-sub");
  }

  /** On a route without authentication the response shows the subject a plugin made up. */
  lemma SubjectFromPlugin(urlOk: string -> bool, s: Settings, sub: string)
    requires urlOk(JWKS_URI) && IsValue(sub)
    ensures
      var g := H.Gateway(OpenConfig(), {});
      && Acceptable(g.cfg, urlOk) && H.RatesOk(g.cfg)
      && var a := H.Respond(HTTP, s, World(true, map[], map[]), g, From("/", "v"),
             Around(Naming(sub), Err(InvalidToken)));
         a.ending.Admitted? && R.Shows(a.headers, "x-auth-sub", sub)
  {
    var g, req, env := H.Gateway(OpenConfig(), {}), From("/", "v"), Around(Naming(sub), Err(InvalidToken));
    OpenIsAccepted(urlOk);
    NamingPasses(sub);
    NamingShows(sub);
    OpenIsAdmitted(s, Naming(sub), "v", Err(InvalidToken));
    assert "x-auth-sub"[..7] == "x-auth-";
    R.AuthHeaderOrigin(HTTP, s, World(true, map[], map[]), g, req, env, "x-auth-sub");
  }

  /** A fail-open plugin asks to exit and fails: the chain ends at the next plugin, in its name. */
  lemma ExitUnderAnotherName() returns (late: seq<bool>)
    ensures
      var chain := [NAMING.(id := "r:a", name := "a", failOpen := true), NAMING.(id := "r:b", name := "b")];
      var calls := [Ran([Exit(403, None, "a")], Failed(false)), Ran([], Returned)];
      KeepsToItself(chain, calls) && ExitsAt(chain, calls, late, 1, PluginExit(403, None, "a"))
  {
    var chain := [NAMING.(id := "r:a", name := "a", failOpen := true), NAMING.(id := "r:b", name := "b")];
    var op := Exit(403, None, "a");
    OneExit(op);
    late := TwoTurnsExit(chain, 0, Ran([op], Failed(false)), 1, [], PluginExit(403, None, "a"));
    assert TwoTurns(2, 0, Ran([op], Failed(false)), 1, []) == [Ran([op], Failed(false)), Ran([], Returned)];
  }

  /** One plugin leaves its exit function in the shared context and another calls it: neither is fail-open. */
  lemma ExitThroughSharedObject() returns (late: seq<bool>)
    ensures
      var chain := [NAMING.(id := "r:a", name := "a"), NAMING.(id := "r:b", name := "b")];
      var calls := [Ran([], Returned), Ran([Exit(403, None, "a")], Returned)];
      && Reaches(chain, calls) && (forall j | 0 <= j < 2 :: !chain[j].failOpen)
      && ExitsAt(chain, calls, late, 1, PluginExit(403, None, "a"))
  {
    var chain := [NAMING.(id := "r:a", name := "a"), NAMING.(id := "r:b", name := "b")];
    var op := Exit(403, None, "a");
    OneExit(op);
    late := TwoTurnsExit(chain, 0, Ran([], Returned), 1, [op], PluginExit(403, None, "a"));
    assert TwoTurns(2, 0, Ran([], Returned), 1, [op]) == [Ran([], Returned), Ran([op], Returned)];
    assert chain[0].name == op.owner;
  }

  // Plugin ids

  function Using(plugin: string, config: string): PluginInstance {
    PluginInstance(plugin, true, "closed", config)
  }

  function Meta(plugin: string): PluginMeta {
    PluginMeta(plugin, 0, "", "")
  }

  function PluginConfig(routes: seq<Route>, global: seq<PluginInstance>): GatewayConfig {
    Sample(routes, SVC, None, false, Plugins(true, "d", PluginLimits(1, 1, 1), global))
  }

  lemma BindsOne(route: string, p: PluginInstance, registry: Registry, conforms: Conforms)
    requires p.enabled && p.name in registry && conforms(registry[p.name], p.config)
    ensures BindAll(route, [p], registry, conforms) == Ok([Bind(route, registry[p.name], p)])
    ensures BindAll(route, [], registry, conforms) == Ok([])
  {
    assert [p][..0] == [];
    assert BindAll(route, [p][..0], registry, conforms) == Ok([]);
    var one := Bind(route, registry[p.name], p);
    assert [] + [one] == [one];
  }

  lemma NotBlank(s: string)
    requires s != "" && 'a' <= s[0] <= 'z'
    ensures !IsBlank(s)
  {
    assert !IsWhitespace(s[0]);
  }

  lemma PluginConfigIsAccepted(routes: seq<Route>, global: seq<PluginInstance>, urlOk: string -> bool)
    requires urlOk(JWKS_URI) && GoodPlugins(global)
    requires forall i | 0 <= i < |routes| :: GoodRoute(routes[i])
    requires forall i, j | 0 <= i < j < |routes| :: routes[i].name != routes[j].name
    ensures Acceptable(PluginConfig(routes, global), urlOk)
  {
    var cfg := PluginConfig(routes, global);
    assert cfg.services[0].name == "svc";
    NotBlank("d");
    SampleIsAccepted(routes, SVC, None, false, cfg.plugins, urlOk);
  }

  lemma OnePluginIsGood(plugin: string, config: string)
    requires plugin != "" && 'a' <= plugin[0] <= 'z'
    ensures GoodPlugins([Using(plugin, config)])
  {
    NotBlank(plugin);
  }

  lemma TwoChains(cfg: GatewayConfig, r: Route, s: Route, registry: Registry, conforms: Conforms)
    requires cfg.routes == [r, s] && cfg.plugins.enabled
    requires ChainFor(cfg, r, registry, conforms).Ok? && ChainFor(cfg, s, registry, conforms).Ok?
    ensures RuntimeFor(cfg, 1, Found(registry), conforms).Ok?
  {
    assert [r, s][..1] == [r] && [r][..0] == [];
    assert ChainsFor(cfg, [r], registry, conforms).Ok?;
  }

  const COLON_ROUTES := [Plain("a:b", ["h"], "/").(plugins := [Using("c", "")]),
      Plain("a", ["h"], "/").(plugins := [Using("b:c", "")])]

  const COLON_PLUGINS := map["c" := Meta("c"), "b:c" := Meta("b:c")]

  lemma ColonRuntime(conforms: Conforms)
    requires forall m, text :: conforms(m, text)
    ensures RuntimeFor(PluginConfig(COLON_ROUTES, []), 1, Found(COLON_PLUGINS), conforms).Ok?
    ensures !IdsApart(PluginConfig(COLON_ROUTES, []))
  {
    var cfg := PluginConfig(COLON_ROUTES, []);
    var r, s, p, q := COLON_ROUTES[0], COLON_ROUTES[1], Using("c", ""), Using("b:c", "");
    BindsOne(r.name, p, COLON_PLUGINS, conforms);
    BindsOne(s.name, q, COLON_PLUGINS, conforms);
    TwoChains(cfg, r, s, COLON_PLUGINS, conforms);
    assert Applies(cfg, r, p) && Applies(cfg, s, q) && r in cfg.routes && s in cfg.routes && r.name != s.name;
    IdsCanClash();
  }

  lemma ColonConfigIsAccepted(urlOk: string -> bool)
    requires urlOk(JWKS_URI)
    ensures Acceptable(PluginConfig(COLON_ROUTES, []), urlOk)
  {
    OnePluginIsGood("c", "");
    OnePluginIsGood("b:c", "");
    assert GoodRoute(COLON_ROUTES[0]) && GoodRoute(COLON_ROUTES[1]);
    assert COLON_ROUTES[0].name != COLON_ROUTES[1].name;
    PluginConfigIsAccepted(COLON_ROUTES, [], urlOk);
  }

  /** Route "a:b" with plugin "c" and route "a" with plugin "b:c": one id, and one is served the other's instance. */
  lemma ColonsAreAccepted(urlOk: string -> bool, conforms: Conforms)
    requires urlOk(JWKS_URI) && forall m, text :: conforms(m, text)
    ensures
      var cfg := PluginConfig(COLON_ROUTES, []);
      var built := RuntimeFor(cfg, 1, Found(COLON_PLUGINS), conforms);
      Acceptable(cfg, urlOk) && built.Ok? && !AlwaysRebuilds(built.value)
  {
    ColonConfigIsAccepted(urlOk);
    ColonRuntime(conforms);
    ServedAsConfiguredIff(PluginConfig(COLON_ROUTES, []), 1, COLON_PLUGINS, conforms, urlOk);
  }

  const SHARED_ROUTES := [Plain("r", ["h"], "/").(plugins := [Using("p", "2")]), Plain("s", ["h"], "/")]

  const SHARED_PLUGINS := map["p" := Meta("p")]

  lemma SharedRuntime(conforms: Conforms)
    requires forall m, text :: conforms(m, text)
    ensures RuntimeFor(PluginConfig(SHARED_ROUTES, [Using("p", "1")]), 1, Found(SHARED_PLUGINS), conforms).Ok?
    ensures !AllAlike(PluginConfig(SHARED_ROUTES, [Using("p", "1")]))
  {
    var cfg := PluginConfig(SHARED_ROUTES, [Using("p", "1")]);
    var r, s, p, q := SHARED_ROUTES[0], SHARED_ROUTES[1], Using("p", "1"), Using("p", "2");
    BindsOne(r.name, p, SHARED_PLUGINS, conforms);
    BindsOne(r.name, q, SHARED_PLUGINS, conforms);
    BindsOne(s.name, p, SHARED_PLUGINS, conforms);
    TwoChains(cfg, r, s, SHARED_PLUGINS, conforms);
    assert p in cfg.plugins.instances && q in r.plugins && r in cfg.routes && !Alike(p, q);
  }

  /** One plugin enabled globally and on a route with different settings: one of the two is never used there. */
  lemma SharedPluginIsAccepted(urlOk: string -> bool, conforms: Conforms)
    requires urlOk(JWKS_URI) && forall m, text :: conforms(m, text)
    ensures
      var cfg := PluginConfig(SHARED_ROUTES, [Using("p", "1")]);
      var built := RuntimeFor(cfg, 1, Found(SHARED_PLUGINS), conforms);
      Acceptable(cfg, urlOk) && built.Ok? && !AlwaysRebuilds(built.value)
  {
    OnePluginIsGood("p", "1");
    OnePluginIsGood("p", "2");
    PluginConfigIsAccepted(SHARED_ROUTES, [Using("p", "1")], urlOk);
    SharedRuntime(conforms);
    ServedAsConfiguredIff(PluginConfig(SHARED_ROUTES, [Using("p", "1")]), 1, SHARED_PLUGINS, conforms, urlOk);
  }

  // Reloads

  lemma NoPort()
    ensures !IsHostPort("bad")
  {
    assert ':' !in "bad";
    SplitIsFind("bad", "", ':');
  }

  /**
   An endpoint without a port, had it not been refused by validation: the new chains would
   be live under the old configuration and the old snapshot.
   */
  lemma UnvalidatedIsNotAtomic(x: Reload.Fixed, now: int)
    requires x.urlOk(JWKS_URI)
    ensures
      var good := Sample([Plain("r", ["h"], "/")], SVC, None, false, NO_PLUGINS);
      var bad := Sample([Plain("r", ["h"], "/")], [Backend("svc").(endpoints := ["bad"])], None, false, NO_PLUGINS);
      && Acceptable(good, x.urlOk) && !Acceptable(bad, x.urlOk)
      && RuntimeFor(good, 1, NoDirectory, x.conforms).Ok? && Build(good, 1).Ok?
      && var g := Reload.Started(x, "", good, now, RuntimeFor(good, 1, NoDirectory, x.conforms).value,
          Some(Build(good, 1).value));
         var g' := Reload.Applied(x, g, "", bad, now, NoDirectory);
         && Reload.InStep(x, g, NoDirectory)
         && g'.config == good && g'.engine.value.runtime.generation == 2
         && !Reload.NothingChanged(g, g') && !Reload.AllChanged(x, bad, NoDirectory, g')
  {
    var good := Sample([Plain("r", ["h"], "/")], SVC, None, false, NO_PLUGINS);
    var services := [Backend("svc").(endpoints := ["bad"])];
    var bad := Sample([Plain("r", ["h"], "/")], services, None, false, NO_PLUGINS);
    assert good.services[0].name == "svc";
    SampleIsAccepted(good.routes, SVC, None, false, NO_PLUGINS, x.urlOk);
    NoPort();
    assert services[0] in bad.services && "bad" in services[0].endpoints;
    assert !EndpointsOk(bad.services);
    if Acceptable(bad, x.urlOk) {
      AcceptedEndpoints(bad, x.urlOk);
      assert false;
    }
    Reload.StartIsInStep(x, "", good, now, NoDirectory);
    var g := Reload.Started(x, "", good, now, RuntimeFor(good, 1, NoDirectory, x.conforms).value,
        Some(Build(good, 1).value));
    Reload.BuildIff(bad, 2);
    Reload.ApplyIsAtomicIff(x, g, "", bad, now, NoDirectory);
  }

  const WITH_PLUGIN := PluginConfig(SHARED_ROUTES, [])

  const WITHOUT_PLUGIN := Sample(SHARED_ROUTES, SVC, None, false, NO_PLUGINS)

  lemma WithPlugin(generation: nat, conforms: Conforms, urlOk: string -> bool)
    requires urlOk(JWKS_URI) && forall m, text :: conforms(m, text)
    ensures Acceptable(WITH_PLUGIN, urlOk) && Acceptable(WITHOUT_PLUGIN, urlOk)
    ensures
      var built := RuntimeFor(WITH_PLUGIN, generation, Found(SHARED_PLUGINS), conforms);
      built.Ok? && "r" in built.value.chains
  {
    var r, s, q := SHARED_ROUTES[0], SHARED_ROUTES[1], Using("p", "2");
    OnePluginIsGood("p", "2");
    assert GoodRoute(r) && GoodRoute(s) && r.name != s.name;
    PluginConfigIsAccepted(SHARED_ROUTES, [], urlOk);
    assert WITHOUT_PLUGIN.services[0].name == "svc";
    SampleIsAccepted(SHARED_ROUTES, SVC, None, false, NO_PLUGINS, urlOk);
    BindsOne(r.name, q, SHARED_PLUGINS, conforms);
    BindsOne(s.name, q, SHARED_PLUGINS, conforms);
    TwoChains(WITH_PLUGIN, r, s, SHARED_PLUGINS, conforms);
    assert RuntimeFor(WITH_PLUGIN, generation, Found(SHARED_PLUGINS), conforms).Ok?;
    ChainIsStableSort(WITH_PLUGIN, generation, SHARED_PLUGINS, conforms, r, []);
  }

  /**
   Two reloads that overlap: afterwards the active configuration puts a plugin on route "r",
   and the chains in use run none.
   */
  lemma OverlapMixes(x: Reload.Fixed) returns (steps: seq<ReloadRuns.Step>)
    requires x.urlOk(JWKS_URI) && forall m, text :: x.conforms(m, text)
    ensures
      var first := ReloadRuns.Input(WITHOUT_PLUGIN, Found(SHARED_PLUGINS));
      && ReloadRuns.CanStart(x, first) && ReloadRuns.After(x, first, steps).Some?
      && var s := ReloadRuns.After(x, first, steps).value;
         && s.config == WITH_PLUGIN && s.runtime.chains == map[]
         && !ReloadRuns.StoresInStep(x, s, Found(SHARED_PLUGINS))
  {
    var without := ReloadRuns.Input(WITHOUT_PLUGIN, Found(SHARED_PLUGINS));
    var with := ReloadRuns.Input(WITH_PLUGIN, Found(SHARED_PLUGINS));
    WithPlugin(2, x.conforms, x.urlOk);
    WithPlugin(3, x.conforms, x.urlOk);
    steps := ReloadRuns.ReloadsCanMix(x, without, with, without);
  }
}
