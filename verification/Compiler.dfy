/** The two back ends end to end, and what validation guarantees about them. */
module Compiler {
  import opened Wrappers
  import opened Config
  import opened Endpoints
  import opened Validation
  import opened Durations
  import opened VirtualHosts
  import opened HostAgreement

  datatype Address = Address(host: string, port: nat)

  /** A cluster whose durations are printed as `T`. */
  datatype Cluster<+T> = Cluster(
    name: string,
    connectTimeout: T,
    endpoints: seq<Address>,
    health: Option<Health<T>>)

  datatype Health<+T> = Health(timeout: T, interval: T, path: string, unhealthy: nat, healthy: nat)

  datatype Filter = ExtAuthzHttp | ExtAuthzGrpc(target: string) | ExtProcGrpc(target: string) | Router

  datatype StaticConfig = StaticConfig(
    listener: Address,
    idleTimeout: string,
    filters: seq<Filter>,
    vhosts: seq<VirtualHost<Entry<string>>>,
    clusters: seq<Cluster<string>>)

  const EXT_AUTHZ_CLUSTER := "gateway_manager_extauthz"

  /** Every endpoint parsed in turn; the first bad one is the error. */
  function ParseAll(parse: string -> Result<(string, nat), EndpointError>,
                    endpoints: seq<string>): (r: Result<seq<Address>, EndpointError>)
    ensures r.Ok? <==> forall e | e in endpoints :: parse(e).Ok?
    ensures r.Ok? ==>
              && |r.value| == |endpoints|
              && forall i | 0 <= i < |endpoints| ::
                   parse(endpoints[i]).Ok?
                       && r.value[i] == Address(parse(endpoints[i]).value.0, parse(endpoints[i]).value.1)
  {
    if endpoints == [] then Ok([])
    else
      match parse(endpoints[0])
      case Err(e) => Err(e)
      case Ok(a) =>
        match ParseAll(parse, endpoints[1..])
        case Err(e) =>
          assert exists x | x in endpoints[1..] :: parse(x).Err?;
          Err(e)
        case Ok(rest) => Ok([Address(a.0, a.1)] + rest)
  }

  function StaticCluster(s: Service): Result<Cluster<string>, EndpointError> {
    var endpoints :- ParseAll(ParseStatic, s.endpoints);
    var timeout := DurationString(s.healthCheck.timeoutMs);
    Ok(Cluster(s.name, timeout, endpoints,
               Some(Health(timeout, DurationString(s.healthCheck.intervalMs), s.healthCheck.path, 3, 1))))
  }

  function XdsCluster(s: Service): Result<Cluster<Duration>, EndpointError> {
    var endpoints :- ParseAll(ParseXds, s.endpoints);
    var timeout := DurationOf(s.healthCheck.timeoutMs);
    Ok(Cluster(s.name, timeout, endpoints,
               Some(Health(timeout, DurationOf(s.healthCheck.intervalMs), s.healthCheck.path, 3, 1))))
  }

  function Clusters<T>(build: Service -> Result<Cluster<T>, EndpointError>,
                       services: seq<Service>): (r: Result<seq<Cluster<T>>, EndpointError>)
    ensures r.Ok? <==> forall s | s in services :: build(s).Ok?
    ensures r.Ok? ==>
              && |r.value| == |services|
              && forall i | 0 <= i < |services| :: build(services[i]) == Ok(r.value[i])
  {
    if services == [] then Ok([])
    else
      match build(services[0])
      case Err(e) => Err(e)
      case Ok(c) =>
        match Clusters(build, services[1..])
        case Err(e) =>
          assert exists s | s in services[1..] :: build(s).Err?;
          Err(e)
        case Ok(rest) => Ok([c] + rest)
  }

  /** The static back end: listener, then clusters, then the authorization cluster. */
  function GenerateEnvoyConfig(cfg: GatewayConfig): Result<StaticConfig, EndpointError> {
    var listen :- ParseStatic(cfg.gateway.listenAddress);
    var clusters :- Clusters(StaticCluster, cfg.services);
    var authz :- AuthzCluster(cfg.gateway.extauthzAddress);
    Ok(StaticConfig(
         Address(listen.0, listen.1),
         DurationString(cfg.gateway.idleTimeoutMs),
         StaticFilters(cfg),
         StaticHosts(cfg.routes),
         clusters + authz))
  }

  function AuthzCluster(address: Option<string>): Result<seq<Cluster<string>>, EndpointError> {
    if address.None? then Ok([])
    else
      var a :- ParseStatic(address.value);
      Ok([Cluster(EXT_AUTHZ_CLUSTER, DurationString(250), [Address(a.0, a.1)], None)])
  }

  // xDS resources, by type

  datatype Resource =
    | ClusterResource(cluster: Cluster<Duration>)
    | AssignmentResource(name: string, endpoints: seq<Address>)
    | ListenerResource(address: Address, idleTimeout: Duration, filters: seq<Filter>)
    | RouteResource(vhosts: seq<VirtualHost<Entry<Duration>>>)

  function ClusterResources(cfg: GatewayConfig): Result<seq<Resource>, EndpointError> {
    var cs :- Clusters(XdsCluster, cfg.services);
    Ok(seq(|cs|, i requires 0 <= i < |cs| => ClusterResource(cs[i])))
  }

  function EndpointResources(cfg: GatewayConfig): Result<seq<Resource>, EndpointError> {
    var cs :- Clusters(XdsCluster, cfg.services);
    Ok(seq(|cs|, i requires 0 <= i < |cs| => AssignmentResource(cs[i].name, cs[i].endpoints)))
  }

  function ListenerResources(cfg: GatewayConfig): Result<seq<Resource>, EndpointError> {
    var listen :- ParseXds(cfg.gateway.listenAddress);
    Ok([ListenerResource(Address(listen.0, listen.1), DurationOf(cfg.gateway.idleTimeoutMs), XdsFilters(cfg))])
  }

  function RouteResources(cfg: GatewayConfig): seq<Resource> {
    [RouteResource(XdsHosts(cfg.routes))]
  }

  // Exactly when each back end succeeds

  ghost predicate EndpointsOk(services: seq<Service>) {
    forall s, e | s in services && e in s.endpoints :: IsHostPort(e)
  }

  lemma ClusterOkIff(s: Service)
    ensures StaticCluster(s).Ok? <==> forall e | e in s.endpoints :: IsHostPort(e)
    ensures XdsCluster(s).Ok? <==> forall e | e in s.endpoints :: IsHostPort(e)
    ensures StaticCluster(s).Ok? ==> StaticCluster(s).value.endpoints == XdsCluster(s).value.endpoints
  {
    forall e: string
      ensures IsHostPort(e) <==> ParseStatic(e).Ok?
      ensures ParseStatic(e) == ParseXds(e)
    {
      ParsersAcceptValidated(e);
    }
  }

  /** A cluster with its durations read back as milliseconds. */
  function ReadCluster<T>(read: T -> Option<int>, c: Cluster<T>): Cluster<Option<int>> {
    Cluster(c.name, read(c.connectTimeout), c.endpoints,
            if c.health.None? then None else Some(ReadHealth(read, c.health.value)))
  }

  function ReadHealth<T>(read: T -> Option<int>, h: Health<T>): Health<Option<int>> {
    Health(read(h.timeout), read(h.interval), h.path, h.unhealthy, h.healthy)
  }

  /** The two back ends mean the same cluster, with the service's own durations. */
  lemma SameCluster(s: Service)
    requires StaticCluster(s).Ok?
    ensures XdsCluster(s).Ok?
    ensures ReadCluster(ReadText, StaticCluster(s).value) == ReadCluster(ReadProto, XdsCluster(s).value)
    ensures ReadProto(XdsCluster(s).value.connectTimeout) == Some(s.healthCheck.timeoutMs)
    ensures ReadProto(XdsCluster(s).value.health.value.interval) == Some(s.healthCheck.intervalMs)
  {
    ClusterOkIff(s);
    DurationRoundTrip(s.healthCheck.timeoutMs);
    DurationExact(s.healthCheck.timeoutMs);
    DurationRoundTrip(s.healthCheck.intervalMs);
    DurationExact(s.healthCheck.intervalMs);
  }

  /** What a filter does, however it is reached. */
  datatype Role = Authorization | Processing | Routing

  function RoleOf(f: Filter): Role {
    match f
    case ExtAuthzHttp => Authorization
    case ExtAuthzGrpc(_) => Authorization
    case ExtProcGrpc(_) => Processing
    case Router => Routing
  }

  function Roles(filters: seq<Filter>): (roles: seq<Role>)
    ensures |roles| == |filters|
    ensures forall i | 0 <= i < |filters| :: roles[i] == RoleOf(filters[i])
  {
    seq(|filters|, i requires 0 <= i < |filters| => RoleOf(filters[i]))
  }

  function StaticFilters(cfg: GatewayConfig): seq<Filter> {
    (if cfg.gateway.extauthzAddress.Some? then [ExtAuthzHttp] else []) + [Router]
  }

  function XdsFilters(cfg: GatewayConfig): seq<Filter> {
    (if cfg.gateway.extauthzAddress.Some? then [ExtAuthzGrpc(cfg.gateway.extauthzAddress.value)] else [])
    + (if cfg.extProc.enabled then [ExtProcGrpc(cfg.extProc.listenAddress)] else [])
    + [Router]
  }

  /**
   The filters of the two listeners: authorization in both exactly when it is configured,
   the router last in both. They correspond if and only if external processing is off:
   the static back end never adds that filter.
   */
  lemma FiltersAgreeIff(cfg: GatewayConfig)
    ensures
      var a, b := StaticFilters(cfg), XdsFilters(cfg);
      && (ExtAuthzHttp in a <==> cfg.gateway.extauthzAddress.Some?)
      && (forall t :: ExtAuthzGrpc(t) in b <==> cfg.gateway.extauthzAddress == Some(t))
      && (forall t :: ExtProcGrpc(t) in b <==> cfg.extProc.enabled && t == cfg.extProc.listenAddress)
      && a[|a| - 1] == Router && b[|b| - 1] == Router
      && (Roles(a) == Roles(b) <==> !cfg.extProc.enabled)
  {
    var a, b := StaticFilters(cfg), XdsFilters(cfg);
    assert |b| == |a| + if cfg.extProc.enabled then 1 else 0;
    if !cfg.extProc.enabled {
      assert forall i | 0 <= i < |a| :: RoleOf(a[i]) == RoleOf(b[i]);
    }
  }

  /** The two listeners: same address, and an idle timeout of the same milliseconds. */
  lemma ListenersAgree(cfg: GatewayConfig)
    requires GenerateEnvoyConfig(cfg).Ok?
    ensures ListenerResources(cfg).Ok? && |ListenerResources(cfg).value| == 1
              && ListenerResources(cfg).value[0].ListenerResource?
    ensures
      var a, b := GenerateEnvoyConfig(cfg).value, ListenerResources(cfg).value[0];
      && a.listener == b.address
      && ReadText(a.idleTimeout) == ReadProto(b.idleTimeout) == Some(cfg.gateway.idleTimeoutMs)
      && a.filters == StaticFilters(cfg) && b.filters == XdsFilters(cfg)
  {
    ParsersAcceptValidated(cfg.gateway.listenAddress);
    DurationRoundTrip(cfg.gateway.idleTimeoutMs);
    DurationExact(cfg.gateway.idleTimeoutMs);
  }

  /** A back end succeeds exactly when the addresses it has to parse are host:port texts. */
  lemma CompilesIff(cfg: GatewayConfig)
    ensures GenerateEnvoyConfig(cfg).Ok? <==>
              && IsHostPort(cfg.gateway.listenAddress)
              && EndpointsOk(cfg.services)
              && (cfg.gateway.extauthzAddress.Some? ==> IsHostPort(cfg.gateway.extauthzAddress.value))
    ensures ClusterResources(cfg).Ok? && EndpointResources(cfg).Ok? && ListenerResources(cfg).Ok? <==>
              IsHostPort(cfg.gateway.listenAddress) && EndpointsOk(cfg.services)
    ensures ClusterResources(cfg).Ok? <==> EndpointResources(cfg).Ok?
  {
    ParsersAcceptValidated(cfg.gateway.listenAddress);
    if cfg.gateway.extauthzAddress.Some? {
      ParsersAcceptValidated(cfg.gateway.extauthzAddress.value);
    }
    ClustersOkIff(cfg.services);
  }

  lemma ClustersOkIff(services: seq<Service>)
    ensures Clusters(StaticCluster, services).Ok? <==> EndpointsOk(services)
    ensures Clusters(XdsCluster, services).Ok? <==> EndpointsOk(services)
  {
    forall s
      ensures StaticCluster(s).Ok? <==> forall e | e in s.endpoints :: IsHostPort(e)
      ensures XdsCluster(s).Ok? <==> forall e | e in s.endpoints :: IsHostPort(e)
    {
      ClusterOkIff(s);
    }
  }

  // What validation guarantees

  lemma AcceptedEndpoints(cfg: GatewayConfig, urlOk: string -> bool)
    requires Acceptable(cfg, urlOk)
    ensures IsHostPort(cfg.gateway.listenAddress) && EndpointsOk(cfg.services)
    ensures cfg.gateway.extauthzAddress.Some? ==> IsHostPort(cfg.gateway.extauthzAddress.value)
  {
    assert !Violates(cfg, urlOk, InvalidValue(ListenAddress));
    assert !Violates(cfg, urlOk, InvalidValue(ExtauthzAddress));
    forall s, e | s in cfg.services && e in s.endpoints
      ensures IsHostPort(e)
    {
      var err := InvalidValue(ServiceEndpoint(s.name, e));
      assert !Violates(cfg, urlOk, err);
      assert !ServiceViolation(s, err);
      assert !HostPortViolation(e, ServiceEndpoint(s.name, e), err);
    }
  }

  lemma AcceptedNames(cfg: GatewayConfig, urlOk: string -> bool)
    requires Acceptable(cfg, urlOk)
    ensures UniqueNames(cfg.routes)
    ensures forall i, j | 0 <= i < j < |cfg.services| :: cfg.services[i].name != cfg.services[j].name
  {
    forall i, j | 0 <= i < j < |cfg.routes|
      ensures cfg.routes[i].name != cfg.routes[j].name
    {
      var names := RouteNames(cfg.routes);
      assert !Violates(cfg, urlOk, DuplicateName(RouteKind, names[i]));
      assert !Repeated(names, names[i]);
    }
    forall i, j | 0 <= i < j < |cfg.services|
      ensures cfg.services[i].name != cfg.services[j].name
    {
      var names := ServiceNames(cfg.services);
      assert !Violates(cfg, urlOk, DuplicateName(ServiceKind, names[i]));
      assert !Repeated(names, names[i]);
    }
  }

  lemma AcceptedReferences(cfg: GatewayConfig, urlOk: string -> bool, r: Route)
    requires Acceptable(cfg, urlOk) && r in cfg.routes
    ensures exists s | s in cfg.services :: s.name == r.upstream.service
  {
    var e := UnknownReference(RouteService(r.name), r.upstream.service);
    assert !Violates(cfg, urlOk, e);
    var names := ServiceNames(cfg.services);
    assert !ReferenceViolation(Elements(names), Elements(ProviderNames(cfg.providers)), r, e);
    assert r.upstream.service in names;
    var i :| 0 <= i < |names| && names[i] == r.upstream.service;
    assert cfg.services[i] in cfg.services;
  }

  /** Rate parameters of an accepted route are those the limiter's theorems ask for. */
  lemma AcceptedRates(cfg: GatewayConfig, urlOk: string -> bool, r: Route)
    requires Acceptable(cfg, urlOk) && r in cfg.routes
    ensures r.rateLimit.bucketCapacity >= 1 && r.rateLimit.refillRate > 0.0 && r.rateLimit.keyBy in VALID_KEY_BY
  {
    assert !Violates(cfg, urlOk, InvalidValue(RouteCapacity(r.name)));
    assert !Violates(cfg, urlOk, InvalidValue(RouteRefillRate(r.name)));
    assert !Violates(cfg, urlOk, InvalidValue(RouteKeyBy(r.name)));
    assert !RouteViolation(r, InvalidValue(RouteCapacity(r.name)));
    assert !RouteViolation(r, InvalidValue(RouteRefillRate(r.name)));
    assert !RouteViolation(r, InvalidValue(RouteKeyBy(r.name)));
  }

  ghost predicate Named<T>(clusters: seq<Cluster<T>>, name: string) {
    exists i :: 0 <= i < |clusters| && clusters[i].name == name
  }

  /** Every cluster an entry refers to is defined. */
  ghost predicate Linked<T>(vhosts: Hosts<T>, clusters: seq<Cluster<T>>) {
    forall i, k | 0 <= i < |vhosts| && 0 <= k < |vhosts[i].entries| :: Named(clusters, vhosts[i].entries[k].cluster)
  }

  lemma ServiceIsNamed<T>(services: seq<Service>, clusters: seq<Cluster<T>>, extra: seq<Cluster<T>>, name: string)
    requires |services| <= |clusters + extra|
    requires forall i | 0 <= i < |services| :: (clusters + extra)[i].name == services[i].name
    requires exists s | s in services :: s.name == name
    ensures Named(clusters + extra, name)
  {
    var s :| s in services && s.name == name;
    var i :| 0 <= i < |services| && services[i] == s;
    assert (clusters + extra)[i].name == name;
  }

  /**
   Validated implies compiles: for every configuration the validator accepts, the static
   back end produces a config, every xDS resource can be built, both define the same
   clusters, in service order, with the same endpoints, health checks and milliseconds,
   and every route entry of either output refers to a cluster that output defines.
   */
  lemma ValidatedCompiles(cfg: GatewayConfig, urlOk: string -> bool)
    requires Acceptable(cfg, urlOk)
    ensures GenerateEnvoyConfig(cfg).Ok?
    ensures ClusterResources(cfg).Ok? && EndpointResources(cfg).Ok? && ListenerResources(cfg).Ok?
    ensures Clusters(StaticCluster, cfg.services).Ok? && Clusters(XdsCluster, cfg.services).Ok?
    ensures Linked(GenerateEnvoyConfig(cfg).value.vhosts, GenerateEnvoyConfig(cfg).value.clusters)
    ensures Linked(XdsHosts(cfg.routes), Clusters(XdsCluster, cfg.services).value)
    ensures forall i | 0 <= i < |cfg.services| ::
              var c, d := Clusters(StaticCluster, cfg.services).value[i], Clusters(XdsCluster, cfg.services).value[i];
              c.name == cfg.services[i].name && ReadCluster(ReadText, c) == ReadCluster(ReadProto, d)
  {
    AcceptedEndpoints(cfg, urlOk);
    CompilesIff(cfg);
    ClustersOkIff(cfg.services);
    var cs, ds := Clusters(StaticCluster, cfg.services).value, Clusters(XdsCluster, cfg.services).value;
    forall i | 0 <= i < |cfg.services|
      ensures cs[i].name == cfg.services[i].name && ReadCluster(ReadText, cs[i]) == ReadCluster(ReadProto, ds[i])
    {
      SameCluster(cfg.services[i]);
    }
    StaticLinked(cfg, urlOk);
    XdsLinked(cfg, urlOk);
  }

  lemma StaticLinked(cfg: GatewayConfig, urlOk: string -> bool)
    requires Acceptable(cfg, urlOk) && GenerateEnvoyConfig(cfg).Ok?
    ensures Linked(GenerateEnvoyConfig(cfg).value.vhosts, GenerateEnvoyConfig(cfg).value.clusters)
  {
    var out := GenerateEnvoyConfig(cfg).value;
    var own := Clusters(StaticCluster, cfg.services).value;
    var authz := AuthzCluster(cfg.gateway.extauthzAddress).value;
    forall i, k | 0 <= i < |out.vhosts| && 0 <= k < |out.vhosts[i].entries|
      ensures Named(out.clusters, out.vhosts[i].entries[k].cluster)
    {
      var key := FirstKeys(cfg.routes)[i];
      var r := Members(cfg.routes, key)[k];
      MembersAre(cfg.routes, key);
      AcceptedReferences(cfg, urlOk, r);
      ServiceIsNamed(cfg.services, own, authz, r.upstream.service);
    }
  }

  lemma XdsLinked(cfg: GatewayConfig, urlOk: string -> bool)
    requires Acceptable(cfg, urlOk) && Clusters(XdsCluster, cfg.services).Ok?
    ensures Linked(XdsHosts(cfg.routes), Clusters(XdsCluster, cfg.services).value)
  {
    var vhosts := XdsHosts(cfg.routes);
    var own := Clusters(XdsCluster, cfg.services).value;
    forall i, k | 0 <= i < |vhosts| && 0 <= k < |vhosts[i].entries|
      ensures Named(own, vhosts[i].entries[k].cluster)
    {
      var key := KeyOrder(cfg.routes)[i];
      var r := Members(cfg.routes, key)[k];
      MembersAre(cfg.routes, key);
      AcceptedReferences(cfg, urlOk, r);
      ServiceIsNamed(cfg.services, own, [], r.upstream.service);
      assert own + [] == own;
    }
  }

  ghost predicate DistinctNames<T>(clusters: seq<Cluster<T>>) {
    forall i, j | 0 <= i < j < |clusters| :: clusters[i].name != clusters[j].name
  }

  /**
   Cluster names of the static output, exactly: for an accepted configuration they are
   distinct if and only if no service takes the name of the authorization cluster while
   that cluster is generated.
   */
  lemma ClusterNamesDistinctIff(cfg: GatewayConfig, urlOk: string -> bool)
    requires Acceptable(cfg, urlOk) && GenerateEnvoyConfig(cfg).Ok?
    ensures DistinctNames(GenerateEnvoyConfig(cfg).value.clusters)
       <==> !(cfg.gateway.extauthzAddress.Some? && exists s | s in cfg.services :: s.name == EXT_AUTHZ_CLUSTER)
  {
    AcceptedNames(cfg, urlOk);
    var own := Clusters(StaticCluster, cfg.services).value;
    var authz := AuthzCluster(cfg.gateway.extauthzAddress).value;
    assert forall i | 0 <= i < |own| :: own[i].name == cfg.services[i].name;
    if cfg.gateway.extauthzAddress.Some? {
      NamesWithLast(cfg.services, own, authz[0]);
      assert authz == [authz[0]];
    } else {
      assert own + authz == own;
    }
  }

  lemma NamesWithLast<T>(services: seq<Service>, own: seq<Cluster<T>>, last: Cluster<T>)
    requires |own| == |services| && forall i | 0 <= i < |own| :: own[i].name == services[i].name
    requires forall i, j | 0 <= i < j < |services| :: services[i].name != services[j].name
    ensures DistinctNames(own + [last]) <==> !exists s | s in services :: s.name == last.name
  {
    var all := own + [last];
    assert all[|own|] == last;
    if exists s | s in services :: s.name == last.name {
      var s :| s in services && s.name == last.name;
      var i :| 0 <= i < |services| && services[i] == s;
      assert all[i].name == all[|own|].name;
    } else {
      forall i, j | 0 <= i < j < |all|
        ensures all[i].name != all[j].name
      {
        assert all[i].name == services[i].name && services[i] in services;
      }
    }
  }
}
