/** Configuration validation: every violation is collected, and nothing else. */
module Validation {
  import opened Wrappers
  import opened Text
  import opened Config
  import opened Endpoints

  /** Where a plugin instance is configured. */
  datatype Scope = Global | OfRoute(route: string)

  datatype Kind = RouteKind | ServiceKind | ProviderKind | PluginKind(scope: Scope)

  datatype Field =
    | ListenAddress | AdminAddress | ExtauthzAddress | XdsListenAddress | ExtProcListenAddress | RedisAddress
    | ProviderName | ProviderJwksUri(provider: string) | ProviderCacheTtl(provider: string)
    | RouteName | RouteHostnames(route: string) | RouteMethods(route: string) | RouteMethod(route: string, m: string)
    | RoutePathPrefix(route: string) | RouteCapacity(route: string) | RouteRefillRate(route: string)
    | RouteKeyBy(route: string) | RouteService(route: string) | RouteAuthProvider(route: string)
    | RouteScopes(route: string)
    | ServiceName | ServiceEndpoints(service: string) | ServiceEndpoint(service: string, endpoint: string)
    | ServiceHealthPath(service: string)
    | PluginName(scope: Scope) | PluginFailMode(scope: Scope, plugin: string)
    | PluginsDirectory | PluginsMemory | PluginsInstructions | PluginsTimeout
    | SampleRate | OtlpEndpoint

  datatype ConfigError =
    | InvalidVersion(actual: nat)
    | DuplicateName(kind: Kind, name: string)
    | UnknownReference(field: Field, target: string)
    | InvalidValue(field: Field)
    | MissingConditional(field: Field)

  const VALID_METHODS: set<string> := {"GET", "POST", "PUT", "DELETE", "PATCH", "HEAD"}
  const VALID_KEY_BY: set<string> := {"ip", "sub"}
  const VALID_FAIL_MODES: set<string> := {"closed", "open"}

  predicate IsWhitespace(c: char) {
    || '\t' <= c <= '\r' || c == ' ' || c == '\U{85}' || c == '\U{A0}' || c == '\U{1680}'
    || '\U{2000}' <= c <= '\U{200A}' || c == '\U{2028}' || c == '\U{2029}' || c == '\U{202F}'
    || c == '\U{205F}' || c == '\U{3000}'
  }

  predicate IsBlank(s: string) {
    forall i | 0 <= i < |s| :: IsWhitespace(s[i])
  }

  // What counts as a violation

  ghost predicate Repeated(names: seq<string>, name: string) {
    exists i, j :: 0 <= i < j < |names| && names[i] == name && names[j] == name
  }

  ghost predicate DuplicateViolation(kind: Kind, names: seq<string>, e: ConfigError) {
    e.DuplicateName? && e.kind == kind && Repeated(names, e.name)
  }

  ghost predicate HostPortViolation(value: string, field: Field, e: ConfigError) {
    e == InvalidValue(field) && !IsHostPort(value)
  }

  ghost predicate PluginViolation(scope: Scope, p: PluginInstance, e: ConfigError) {
    || (e == InvalidValue(PluginName(scope)) && IsBlank(p.name))
    || (e == InvalidValue(PluginFailMode(scope, p.name)) && p.failMode !in VALID_FAIL_MODES)
  }

  function PluginNames(plugins: seq<PluginInstance>): (names: seq<string>)
    ensures |names| == |plugins|
    ensures forall i | 0 <= i < |plugins| :: names[i] == plugins[i].name
  {
    seq(|plugins|, i requires 0 <= i < |plugins| => plugins[i].name)
  }

  ghost predicate PluginsViolation(scope: Scope, plugins: seq<PluginInstance>, e: ConfigError) {
    || (exists p | p in plugins :: PluginViolation(scope, p, e))
    || DuplicateViolation(PluginKind(scope), PluginNames(plugins), e)
  }

  ghost predicate ReferenceViolation(services: set<string>, providers: set<string>, r: Route, e: ConfigError) {
    || (e == UnknownReference(RouteService(r.name), r.upstream.service) && r.upstream.service !in services)
    || (&& r.authRequired && r.authProvider.Some? && r.authProvider.value !in providers
        && e == UnknownReference(RouteAuthProvider(r.name), r.authProvider.value))
  }

  ghost predicate MethodViolation(route: string, m: string, e: ConfigError) {
    e == InvalidValue(RouteMethod(route, m)) && m !in VALID_METHODS
  }

  ghost predicate RouteFieldViolation(r: Route, e: ConfigError) {
    || (e == InvalidValue(RouteName) && r.name == "")
    || (e == InvalidValue(RouteHostnames(r.name)) && r.hostnames == [])
    || (e == InvalidValue(RouteMethods(r.name)) && r.methods == [])
    || (e == InvalidValue(RoutePathPrefix(r.name)) && !StartsWith(r.pathPrefix, "/"))
  }

  ghost predicate RateViolation(r: Route, e: ConfigError) {
    || (e == InvalidValue(RouteCapacity(r.name)) && r.rateLimit.bucketCapacity < 1)
    || (e == InvalidValue(RouteRefillRate(r.name)) && r.rateLimit.refillRate <= 0.0)
    || (e == InvalidValue(RouteKeyBy(r.name)) && r.rateLimit.keyBy !in VALID_KEY_BY)
  }

  ghost predicate RouteViolation(r: Route, e: ConfigError) {
    || RouteFieldViolation(r, e)
    || (exists m | m in r.methods :: MethodViolation(r.name, m, e))
    || RateViolation(r, e)
    || PluginsViolation(OfRoute(r.name), r.plugins, e)
  }

  ghost predicate ConditionalViolation(r: Route, e: ConfigError) {
    || (e == MissingConditional(RouteAuthProvider(r.name)) && r.authRequired && r.authProvider.None?)
    || (e == InvalidValue(RouteScopes(r.name)) && r.requiredScopes == Some([]))
  }

  ghost predicate ServiceViolation(s: Service, e: ConfigError) {
    || (e == InvalidValue(ServiceName) && s.name == "")
    || (e == InvalidValue(ServiceEndpoints(s.name)) && s.endpoints == [])
    || (exists ep | ep in s.endpoints :: HostPortViolation(ep, ServiceEndpoint(s.name, ep), e))
    || (e == InvalidValue(ServiceHealthPath(s.name)) && !StartsWith(s.healthCheck.path, "/"))
  }

  ghost predicate ProviderViolation(urlOk: string -> bool, p: AuthProvider, e: ConfigError) {
    || (e == InvalidValue(ProviderName) && p.name == "")
    || (e == InvalidValue(ProviderJwksUri(p.name)) && !urlOk(p.jwksUri))
    || (e == InvalidValue(ProviderCacheTtl(p.name)) && p.cacheTtlSeconds == 0)
  }

  ghost predicate AddressViolation(cfg: GatewayConfig, e: ConfigError) {
    || HostPortViolation(cfg.gateway.listenAddress, ListenAddress, e)
    || HostPortViolation(cfg.gateway.adminAddress, AdminAddress, e)
    || (cfg.gateway.extauthzAddress.Some? && HostPortViolation(cfg.gateway.extauthzAddress.value, ExtauthzAddress, e))
    || (cfg.xds.enabled && HostPortViolation(cfg.xds.listenAddress, XdsListenAddress, e))
    || (cfg.extProc.enabled && HostPortViolation(cfg.extProc.listenAddress, ExtProcListenAddress, e))
    || HostPortViolation(cfg.rateLimits.redisAddress, RedisAddress, e)
  }

  ghost predicate PluginLimitViolation(p: Plugins, e: ConfigError) {
    p.enabled &&
    (|| (e == InvalidValue(PluginsDirectory) && IsBlank(p.directory))
     || (e == InvalidValue(PluginsMemory) && p.limits.maxMemoryBytes == 0)
     || (e == InvalidValue(PluginsInstructions) && p.limits.maxInstructions == 0)
     || (e == InvalidValue(PluginsTimeout) && p.limits.chainTimeoutMs == 0))
  }

  ghost predicate TracingViolation(t: Tracing, e: ConfigError) {
    || (e == InvalidValue(SampleRate) && !(0.0 <= t.sampleRate <= 1.0))
    || (e == MissingConditional(OtlpEndpoint) && t.enabled && t.otlpEndpoint == "")
  }

  function RouteNames(routes: seq<Route>): (names: seq<string>)
    ensures |names| == |routes|
    ensures forall i | 0 <= i < |routes| :: names[i] == routes[i].name
  {
    seq(|routes|, i requires 0 <= i < |routes| => routes[i].name)
  }

  function ServiceNames(services: seq<Service>): (names: seq<string>)
    ensures |names| == |services|
    ensures forall i | 0 <= i < |services| :: names[i] == services[i].name
  {
    seq(|services|, i requires 0 <= i < |services| => services[i].name)
  }

  function ProviderNames(providers: seq<AuthProvider>): (names: seq<string>)
    ensures |names| == |providers|
    ensures forall i | 0 <= i < |providers| :: names[i] == providers[i].name
  {
    seq(|providers|, i requires 0 <= i < |providers| => providers[i].name)
  }

  function Elements(names: seq<string>): set<string> {
    set n | n in names
  }

  /** Everything wrong with a configuration. */
  ghost predicate Violates(cfg: GatewayConfig, urlOk: string -> bool, e: ConfigError) {
    || (e == InvalidVersion(cfg.version) && cfg.version != 1)
    || DuplicateViolation(RouteKind, RouteNames(cfg.routes), e)
    || DuplicateViolation(ServiceKind, ServiceNames(cfg.services), e)
    || DuplicateViolation(ProviderKind, ProviderNames(cfg.providers), e)
    || (exists r | r in cfg.routes ::
          ReferenceViolation(Elements(ServiceNames(cfg.services)), Elements(ProviderNames(cfg.providers)), r, e))
    || (exists r | r in cfg.routes :: RouteViolation(r, e))
    || (exists r | r in cfg.routes :: ConditionalViolation(r, e))
    || AddressViolation(cfg, e)
    || (exists p | p in cfg.providers :: ProviderViolation(urlOk, p, e))
    || (exists s | s in cfg.services :: ServiceViolation(s, e))
    || TracingViolation(cfg.tracing, e)
    || PluginLimitViolation(cfg.plugins, e)
    || PluginsViolation(Global, cfg.plugins.instances, e)
  }

  ghost predicate Acceptable(cfg: GatewayConfig, urlOk: string -> bool) {
    forall e :: !Violates(cfg, urlOk, e)
  }

  // The checks

  method CheckUnique(names: seq<string>, kind: Kind, errs: seq<ConfigError>) returns (out: seq<ConfigError>)
    ensures forall e :: e in out <==> e in errs || DuplicateViolation(kind, names, e)
  {
    out := errs;
    var seen: set<string> := {};
    for i := 0 to |names|
      invariant forall n :: n in seen <==> exists k :: 0 <= k < i && names[k] == n
      invariant forall e :: e in out <==> e in errs || DuplicateViolation(kind, names[..i], e)
    {
      ghost var before := out;
      if names[i] in seen {
        out := out + [DuplicateName(kind, names[i])];
      } else {
        seen := seen + {names[i]};
      }
      forall n
        ensures Repeated(names[..i + 1], n)
           <==> Repeated(names[..i], n) || (n == names[i] && exists k :: 0 <= k < i && names[k] == n)
      {
        RepeatedSnoc(names, i, n);
      }
    }
    assert names[..|names|] == names;
  }

  lemma RepeatedSnoc(names: seq<string>, i: nat, n: string)
    requires i < |names|
    ensures Repeated(names[..i + 1], n)
       <==> Repeated(names[..i], n) || (n == names[i] && exists k :: 0 <= k < i && names[k] == n)
  {
    var all, part := names[..i + 1], names[..i];
    if Repeated(part, n) {
      var a, b :| 0 <= a < b < |part| && part[a] == n && part[b] == n;
      assert all[a] == n && all[b] == n;
    }
    if n == names[i] && exists k :: 0 <= k < i && names[k] == n {
      var k :| 0 <= k < i && names[k] == n;
      assert all[k] == n && all[i] == n;
    }
    if Repeated(all, n) {
      var a, b :| 0 <= a < b < |all| && all[a] == n && all[b] == n;
      assert names[a] == n;
      if b < i {
        assert part[a] == n && part[b] == n;
      }
    }
  }

  method ValidateHostPort(value: string, field: Field, errs: seq<ConfigError>) returns (out: seq<ConfigError>)
    ensures forall e :: e in out <==> e in errs || HostPortViolation(value, field, e)
  {
    out := errs;
    var parts := RSplitN2(value, ':');
    if |parts| != 2 || ParseU16(parts[0]).None? || parts[1] == "" {
      out := out + [InvalidValue(field)];
    }
  }

  method ValidatePluginInstance(p: PluginInstance, scope: Scope, errs: seq<ConfigError>) returns (out: seq<ConfigError>)
    ensures forall e :: e in out <==> e in errs || PluginViolation(scope, p, e)
  {
    out := errs;
    if IsBlank(p.name) {
      out := out + [InvalidValue(PluginName(scope))];
    }
    if p.failMode !in VALID_FAIL_MODES {
      out := out + [InvalidValue(PluginFailMode(scope, p.name))];
    }
  }

  method CheckPlugins(scope: Scope, plugins: seq<PluginInstance>, errs: seq<ConfigError>)
    returns (out: seq<ConfigError>)
    ensures forall e :: e in out <==> e in errs || PluginsViolation(scope, plugins, e)
  {
    out := errs;
    for i := 0 to |plugins|
      invariant forall e :: e in out <==> e in errs || exists p | p in plugins[..i] :: PluginViolation(scope, p, e)
    {
      out := ValidatePluginInstance(plugins[i], scope, out);
      assert plugins[..i + 1] == plugins[..i] + [plugins[i]];
    }
    assert plugins[..|plugins|] == plugins;
    out := CheckUnique(PluginNames(plugins), PluginKind(scope), out);
  }

  method CheckReferences(services: set<string>, providers: set<string>, routes: seq<Route>, errs: seq<ConfigError>)
    returns (out: seq<ConfigError>)
    ensures forall e :: e in out <==>
              (e in errs || exists r | r in routes :: ReferenceViolation(services, providers, r, e))
  {
    out := errs;
    for i := 0 to |routes|
      invariant forall e :: e in out <==>
                (e in errs || exists r | r in routes[..i] :: ReferenceViolation(services, providers, r, e))
    {
      ghost var before := out;
      var r := routes[i];
      if r.upstream.service !in services {
        out := out + [UnknownReference(RouteService(r.name), r.upstream.service)];
      }
      if r.authRequired && r.authProvider.Some? && r.authProvider.value !in providers {
        out := out + [UnknownReference(RouteAuthProvider(r.name), r.authProvider.value)];
      }
      assert forall e :: e in out <==> e in before || ReferenceViolation(services, providers, r, e);
      assert routes[..i + 1] == routes[..i] + [r];
    }
    assert routes[..|routes|] == routes;
  }

  method CheckRouteFields(r: Route, errs: seq<ConfigError>) returns (out: seq<ConfigError>)
    ensures forall e :: e in out <==> e in errs || RouteFieldViolation(r, e)
  {
    out := errs;
    if r.name == "" {
      out := out + [InvalidValue(RouteName)];
    }
    if r.hostnames == [] {
      out := out + [InvalidValue(RouteHostnames(r.name))];
    }
    if r.methods == [] {
      out := out + [InvalidValue(RouteMethods(r.name))];
    }
    if !StartsWith(r.pathPrefix, "/") {
      out := out + [InvalidValue(RoutePathPrefix(r.name))];
    }
  }

  method CheckMethods(r: Route, errs: seq<ConfigError>) returns (out: seq<ConfigError>)
    ensures forall e :: e in out <==> e in errs || exists m | m in r.methods :: MethodViolation(r.name, m, e)
  {
    out := errs;
    for i := 0 to |r.methods|
      invariant forall e :: e in out <==> e in errs || exists m | m in r.methods[..i] :: MethodViolation(r.name, m, e)
    {
      ghost var before := out;
      if r.methods[i] !in VALID_METHODS {
        out := out + [InvalidValue(RouteMethod(r.name, r.methods[i]))];
      }
      assert forall e :: e in out <==> e in before || MethodViolation(r.name, r.methods[i], e);
      assert r.methods[..i + 1] == r.methods[..i] + [r.methods[i]];
    }
    assert r.methods[..|r.methods|] == r.methods;
  }

  method CheckRate(r: Route, errs: seq<ConfigError>) returns (out: seq<ConfigError>)
    ensures forall e :: e in out <==> e in errs || RateViolation(r, e)
  {
    out := errs;
    if r.rateLimit.bucketCapacity < 1 {
      out := out + [InvalidValue(RouteCapacity(r.name))];
    }
    if r.rateLimit.refillRate <= 0.0 {
      out := out + [InvalidValue(RouteRefillRate(r.name))];
    }
    if r.rateLimit.keyBy !in VALID_KEY_BY {
      out := out + [InvalidValue(RouteKeyBy(r.name))];
    }
  }

  method CheckRoutes(routes: seq<Route>, errs: seq<ConfigError>) returns (out: seq<ConfigError>)
    ensures forall e :: e in out <==> e in errs || exists r | r in routes :: RouteViolation(r, e)
  {
    out := errs;
    for i := 0 to |routes|
      invariant forall e :: e in out <==> e in errs || exists r | r in routes[..i] :: RouteViolation(r, e)
    {
      ghost var before := out;
      var r := routes[i];
      out := CheckRouteFields(r, out);
      out := CheckMethods(r, out);
      out := CheckRate(r, out);
      out := CheckPlugins(OfRoute(r.name), r.plugins, out);
      assert forall e :: e in out <==> e in before || RouteViolation(r, e);
      assert routes[..i + 1] == routes[..i] + [r];
    }
    assert routes[..|routes|] == routes;
  }

  method CheckService(s: Service, errs: seq<ConfigError>) returns (out: seq<ConfigError>)
    ensures forall e :: e in out <==> e in errs || ServiceViolation(s, e)
  {
    out := errs;
    if s.name == "" {
      out := out + [InvalidValue(ServiceName)];
    }
    if s.endpoints == [] {
      out := out + [InvalidValue(ServiceEndpoints(s.name))];
    }
    ghost var before := out;
    for i := 0 to |s.endpoints|
      invariant forall e :: e in out <==>
        (e in before || exists ep | ep in s.endpoints[..i] :: HostPortViolation(ep, ServiceEndpoint(s.name, ep), e))
    {
      out := ValidateHostPort(s.endpoints[i], ServiceEndpoint(s.name, s.endpoints[i]), out);
      assert s.endpoints[..i + 1] == s.endpoints[..i] + [s.endpoints[i]];
    }
    assert s.endpoints[..|s.endpoints|] == s.endpoints;
    if !StartsWith(s.healthCheck.path, "/") {
      out := out + [InvalidValue(ServiceHealthPath(s.name))];
    }
  }

  method CheckServices(services: seq<Service>, errs: seq<ConfigError>) returns (out: seq<ConfigError>)
    ensures forall e :: e in out <==> e in errs || exists s | s in services :: ServiceViolation(s, e)
  {
    out := errs;
    for i := 0 to |services|
      invariant forall e :: e in out <==> e in errs || exists s | s in services[..i] :: ServiceViolation(s, e)
    {
      out := CheckService(services[i], out);
      assert services[..i + 1] == services[..i] + [services[i]];
    }
    assert services[..|services|] == services;
  }

  method CheckProviders(providers: seq<AuthProvider>, urlOk: string -> bool, errs: seq<ConfigError>)
    returns (out: seq<ConfigError>)
    ensures forall e :: e in out <==> e in errs || exists p | p in providers :: ProviderViolation(urlOk, p, e)
  {
    out := errs;
    for i := 0 to |providers|
      invariant forall e :: e in out <==> e in errs || exists p | p in providers[..i] :: ProviderViolation(urlOk, p, e)
    {
      ghost var before := out;
      var p := providers[i];
      if p.name == "" {
        out := out + [InvalidValue(ProviderName)];
      }
      if !urlOk(p.jwksUri) {
        out := out + [InvalidValue(ProviderJwksUri(p.name))];
      }
      if p.cacheTtlSeconds == 0 {
        out := out + [InvalidValue(ProviderCacheTtl(p.name))];
      }
      assert forall e :: e in out <==> e in before || ProviderViolation(urlOk, p, e);
      assert providers[..i + 1] == providers[..i] + [p];
    }
    assert providers[..|providers|] == providers;
  }

  method CheckAddresses(cfg: GatewayConfig, errs: seq<ConfigError>) returns (out: seq<ConfigError>)
    ensures forall e :: e in out <==> e in errs || AddressViolation(cfg, e)
  {
    out := ValidateHostPort(cfg.gateway.listenAddress, ListenAddress, errs);
    out := ValidateHostPort(cfg.gateway.adminAddress, AdminAddress, out);
    if cfg.gateway.extauthzAddress.Some? {
      out := ValidateHostPort(cfg.gateway.extauthzAddress.value, ExtauthzAddress, out);
    }
    if cfg.xds.enabled {
      out := ValidateHostPort(cfg.xds.listenAddress, XdsListenAddress, out);
    }
    if cfg.extProc.enabled {
      out := ValidateHostPort(cfg.extProc.listenAddress, ExtProcListenAddress, out);
    }
    out := ValidateHostPort(cfg.rateLimits.redisAddress, RedisAddress, out);
  }

  method CheckPluginLimits(p: Plugins, errs: seq<ConfigError>) returns (out: seq<ConfigError>)
    ensures forall e :: e in out <==> e in errs || PluginLimitViolation(p, e)
  {
    out := errs;
    if p.enabled {
      if IsBlank(p.directory) {
        out := out + [InvalidValue(PluginsDirectory)];
      }
      if p.limits.maxMemoryBytes == 0 {
        out := out + [InvalidValue(PluginsMemory)];
      }
      if p.limits.maxInstructions == 0 {
        out := out + [InvalidValue(PluginsInstructions)];
      }
      if p.limits.chainTimeoutMs == 0 {
        out := out + [InvalidValue(PluginsTimeout)];
      }
    }
  }

  method CheckConditional(routes: seq<Route>, errs: seq<ConfigError>) returns (out: seq<ConfigError>)
    ensures forall e :: e in out <==> e in errs || exists r | r in routes :: ConditionalViolation(r, e)
  {
    out := errs;
    for i := 0 to |routes|
      invariant forall e :: e in out <==> e in errs || exists r | r in routes[..i] :: ConditionalViolation(r, e)
    {
      ghost var before := out;
      var r := routes[i];
      if r.authRequired && r.authProvider.None? {
        out := out + [MissingConditional(RouteAuthProvider(r.name))];
      }
      if r.requiredScopes.Some? && r.requiredScopes.value == [] {
        out := out + [InvalidValue(RouteScopes(r.name))];
      }
      assert forall e :: e in out <==> e in before || ConditionalViolation(r, e);
      assert routes[..i + 1] == routes[..i] + [r];
    }
    assert routes[..|routes|] == routes;
  }

  method CheckTracing(t: Tracing, errs: seq<ConfigError>) returns (out: seq<ConfigError>)
    ensures forall e :: e in out <==> e in errs || TracingViolation(t, e)
  {
    out := errs;
    if t.sampleRate < 0.0 || t.sampleRate > 1.0 {
      out := out + [InvalidValue(SampleRate)];
    }
    if t.enabled && t.otlpEndpoint == "" {
      out := out + [MissingConditional(OtlpEndpoint)];
    }
  }

  /** Reports exactly the violations, and accepts exactly the configurations that have none. */
  method Validate(cfg: GatewayConfig, urlOk: string -> bool) returns (r: Result<(), seq<ConfigError>>)
    ensures r.Ok? <==> Acceptable(cfg, urlOk)
    ensures r.Err? ==> forall e :: e in r.error <==> Violates(cfg, urlOk, e)
  {
    var errs: seq<ConfigError> := [];
    if cfg.version != 1 {
      errs := errs + [InvalidVersion(cfg.version)];
    }
    errs := CheckUnique(RouteNames(cfg.routes), RouteKind, errs);
    errs := CheckUnique(ServiceNames(cfg.services), ServiceKind, errs);
    errs := CheckUnique(ProviderNames(cfg.providers), ProviderKind, errs);
    var services, providers := Elements(ServiceNames(cfg.services)), Elements(ProviderNames(cfg.providers));
    errs := CheckReferences(services, providers, cfg.routes, errs);
    errs := CheckAddresses(cfg, errs);
    errs := CheckProviders(cfg.providers, urlOk, errs);
    errs := CheckRoutes(cfg.routes, errs);
    errs := CheckServices(cfg.services, errs);
    errs := CheckPluginLimits(cfg.plugins, errs);
    errs := CheckPlugins(Global, cfg.plugins.instances, errs);
    errs := CheckConditional(cfg.routes, errs);
    errs := CheckTracing(cfg.tracing, errs);
    assert forall e :: e in errs <==> Violates(cfg, urlOk, e);
    if errs == [] {
      r := Ok(());
    } else {
      assert errs[0] in errs;
      r := Err(errs);
    }
  }
}
