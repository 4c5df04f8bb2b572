/** Plugin chains: which plugins run on a route, and in which order. */
module PluginChain {
  import opened Wrappers
  import opened Ordering
  import opened Text
  import opened Config
  import opened BucketKey

  datatype PluginMeta = PluginMeta(name: string, priority: int, version: string, source: string)

  /** Plugins found on disk, by file name. */
  type Registry = map<string, PluginMeta>

  /** Which settings conform to a plugin's schema. */
  type Conforms = (PluginMeta, string) -> bool

  datatype Binding = Binding(
    id: string,
    name: string,
    priority: int,
    version: string,
    failOpen: bool,
    source: string,
    config: string)

  datatype Runtime = Runtime(generation: nat, limits: PluginLimits, chains: map<string, seq<Binding>>)

  datatype PluginError =
    | MissingDirectory
    | Unreadable(what: string)
    | MissingPlugin(plugin: string)
    | SchemaValidation(plugin: string)

  /** What the plugin directory holds when a runtime is built. */
  datatype Disk = NoDirectory | Broken(what: string) | Found(registry: Registry)

  function BindingId(route: string, plugin: string): string {
    route + ":" + plugin
  }

  function Bind(route: string, meta: PluginMeta, p: PluginInstance): Binding {
    var failOpen := p.failMode == "open";
    Binding(BindingId(route, p.name), meta.name, meta.priority, meta.version, failOpen, meta.source, p.config)
  }

  /** Enabled instances, bound in config order; the first unknown or ill-configured one is the error. */
  function BindAll(route: string, configured: seq<PluginInstance>, registry: Registry, conforms: Conforms)
    : Result<seq<Binding>, PluginError>
  {
    if configured == [] then Ok([])
    else
      var p := configured[|configured| - 1];
      var before :- BindAll(route, configured[..|configured| - 1], registry, conforms);
      if !p.enabled then Ok(before)
      else if p.name !in registry then Err(MissingPlugin(p.name))
      else if !conforms(registry[p.name], p.config) then Err(SchemaValidation(registry[p.name].name))
      else Ok(before + [Bind(route, registry[p.name], p)])
  }

  predicate BindingLe(a: Binding, b: Binding) {
    a.priority < b.priority || (a.priority == b.priority && StringLe(a.name, b.name))
  }

  /** One route's chain: global instances, then the route's own, sorted. */
  function ChainFor(cfg: GatewayConfig, r: Route, registry: Registry, conforms: Conforms)
    : Result<seq<Binding>, PluginError>
  {
    var global :- BindAll(r.name, cfg.plugins.instances, registry, conforms);
    var own :- BindAll(r.name, r.plugins, registry, conforms);
    Ok(Sort(BindingLe, global + own))
  }

  function ChainsFor(cfg: GatewayConfig, routes: seq<Route>, registry: Registry, conforms: Conforms)
    : Result<map<string, seq<Binding>>, PluginError>
  {
    if routes == [] then Ok(map[])
    else
      var r := routes[|routes| - 1];
      var before :- ChainsFor(cfg, routes[..|routes| - 1], registry, conforms);
      var chain :- ChainFor(cfg, r, registry, conforms);
      Ok(before[r.name := chain])
  }

  function RuntimeFor(cfg: GatewayConfig, generation: nat, disk: Disk, conforms: Conforms)
    : Result<Runtime, PluginError>
  {
    if !cfg.plugins.enabled then Ok(Runtime(generation, cfg.plugins.limits, map[]))
    else
      match disk
      case NoDirectory => Err(MissingDirectory)
      case Broken(what) => Err(Unreadable(what))
      case Found(registry) =>
        var chains :- ChainsFor(cfg, cfg.routes, registry, conforms);
        Ok(Runtime(generation, cfg.plugins.limits, chains))
  }

  method PushBindings(bindings: seq<Binding>, route: string, configured: seq<PluginInstance>,
                      registry: Registry, conforms: Conforms)
    returns (r: Result<seq<Binding>, PluginError>)
    ensures
      var bound := BindAll(route, configured, registry, conforms);
      r == if bound.Ok? then Ok(bindings + bound.value) else Err(bound.error)
  {
    var out := bindings;
    for i := 0 to |configured|
      invariant BindAll(route, configured[..i], registry, conforms).Ok?
      invariant out == bindings + BindAll(route, configured[..i], registry, conforms).value
    {
      var p := configured[i];
      assert configured[..i + 1][..i] == configured[..i];
      var error: Option<PluginError> := None;
      if p.enabled {
        if p.name !in registry {
          error := Some(MissingPlugin(p.name));
        } else if !conforms(registry[p.name], p.config) {
          error := Some(SchemaValidation(registry[p.name].name));
        } else {
          out := out + [Bind(route, registry[p.name], p)];
        }
      }
      if error.Some? {
        FirstError(route, configured, i + 1, registry, conforms);
        return Err(error.value);
      }
    }
    assert configured[..|configured|] == configured;
    r := Ok(out);
  }

  lemma {:induction false} FirstError(route: string, configured: seq<PluginInstance>, n: nat,
                                      registry: Registry, conforms: Conforms)
    requires n <= |configured| && BindAll(route, configured[..n], registry, conforms).Err?
    ensures BindAll(route, configured, registry, conforms) == BindAll(route, configured[..n], registry, conforms)
  {
    if n == |configured| {
      assert configured[..n] == configured;
    } else {
      var last := |configured| - 1;
      assert configured[..last][..n] == configured[..n];
      FirstError(route, configured[..last], n, registry, conforms);
    }
  }

  lemma ErrorStays(cfg: GatewayConfig, routes: seq<Route>, registry: Registry, conforms: Conforms)
    requires routes != [] && ChainsFor(cfg, routes[..|routes| - 1], registry, conforms).Err?
    ensures ChainsFor(cfg, routes, registry, conforms) == ChainsFor(cfg, routes[..|routes| - 1], registry, conforms)
  {
  }

  lemma {:induction false} FirstChainError(cfg: GatewayConfig, routes: seq<Route>, n: nat,
                                           registry: Registry, conforms: Conforms)
    requires n <= |routes| && ChainsFor(cfg, routes[..n], registry, conforms).Err?
    ensures ChainsFor(cfg, routes, registry, conforms) == ChainsFor(cfg, routes[..n], registry, conforms)
  {
    if n == |routes| {
      assert routes[..n] == routes;
    } else {
      var last := |routes| - 1;
      assert routes[..last][..n] == routes[..n];
      FirstChainError(cfg, routes[..last], n, registry, conforms);
      ErrorStays(cfg, routes, registry, conforms);
    }
  }

  method BuildRuntime(cfg: GatewayConfig, generation: nat, disk: Disk, conforms: Conforms)
    returns (r: Result<Runtime, PluginError>)
    ensures r == RuntimeFor(cfg, generation, disk, conforms)
  {
    if !cfg.plugins.enabled {
      return Ok(Runtime(generation, cfg.plugins.limits, map[]));
    }
    if disk.NoDirectory? {
      return Err(MissingDirectory);
    }
    if disk.Broken? {
      return Err(Unreadable(disk.what));
    }
    var registry := disk.registry;
    var routes := cfg.routes;
    var chains: map<string, seq<Binding>> := map[];
    for n := 0 to |routes|
      invariant ChainsFor(cfg, routes[..n], registry, conforms) == Ok(chains)
    {
      assert routes[..n + 1][..n] == routes[..n];
      var global := PushBindings([], routes[n].name, cfg.plugins.instances, registry, conforms);
      if global.Err? {
        FirstChainError(cfg, routes, n + 1, registry, conforms);
        return Err(global.error);
      }
      var bindings := PushBindings(global.value, routes[n].name, routes[n].plugins, registry, conforms);
      if bindings.Err? {
        FirstChainError(cfg, routes, n + 1, registry, conforms);
        return Err(bindings.error);
      }
      assert [] + BindAll(routes[n].name, cfg.plugins.instances, registry, conforms).value
          == BindAll(routes[n].name, cfg.plugins.instances, registry, conforms).value;
      chains := chains[routes[n].name := Sort(BindingLe, bindings.value)];
    }
    assert routes[..|routes|] == routes;
    r := Ok(Runtime(generation, cfg.plugins.limits, chains));
  }

  // What a chain is

  lemma BindingOrder()
    ensures TotalPreorder(BindingLe)
  {
    StringOrder();
  }

  lemma {:induction false} ChainOf(cfg: GatewayConfig, routes: seq<Route>, registry: Registry,
                                   conforms: Conforms, r: Route)
    requires r in routes
    requires forall i, j | 0 <= i < j < |routes| :: routes[i].name != routes[j].name
    requires ChainsFor(cfg, routes, registry, conforms).Ok?
    ensures r.name in ChainsFor(cfg, routes, registry, conforms).value
    ensures ChainFor(cfg, r, registry, conforms) == Ok(ChainsFor(cfg, routes, registry, conforms).value[r.name])
  {
    var n := |routes| - 1;
    if r != routes[n] {
      var i :| 0 <= i < |routes| && routes[i] == r;
      assert routes[..n][i] == r;
      ChainOf(cfg, routes[..n], registry, conforms, r);
    }
  }

  /**
   Chain order: each route's chain is the one arrangement of the enabled global, then
   route, instances that is sorted by priority and name and keeps the order of ties.
   */
  lemma ChainIsStableSort(cfg: GatewayConfig, generation: nat, registry: Registry,
                          conforms: Conforms, r: Route, other: seq<Binding>)
    requires cfg.plugins.enabled && r in cfg.routes
    requires forall i, j | 0 <= i < j < |cfg.routes| :: cfg.routes[i].name != cfg.routes[j].name
    requires RuntimeFor(cfg, generation, Found(registry), conforms).Ok?
    ensures
      var chains := RuntimeFor(cfg, generation, Found(registry), conforms).value.chains;
      var global := BindAll(r.name, cfg.plugins.instances, registry, conforms);
      var own := BindAll(r.name, r.plugins, registry, conforms);
      && r.name in chains && global.Ok? && own.Ok?
      && Sorted(BindingLe, chains[r.name])
      && multiset(chains[r.name]) == multiset(global.value) + multiset(own.value)
      && (forall x :: Ties(BindingLe, chains[r.name], x) == Ties(BindingLe, global.value + own.value, x))
      && (Sorted(BindingLe, other)
          && (forall x :: Ties(BindingLe, other, x) == Ties(BindingLe, global.value + own.value, x))
          ==> other == chains[r.name])
  {
    BindingOrder();
    ChainOf(cfg, cfg.routes, registry, conforms, r);
    var all := BindAll(r.name, cfg.plugins.instances, registry, conforms).value
        + BindAll(r.name, r.plugins, registry, conforms).value;
    SortSorted(BindingLe, all);
    SortContents(BindingLe, all);
    forall x
      ensures Ties(BindingLe, Sort(BindingLe, all), x) == Ties(BindingLe, all, x)
    {
      SortStable(BindingLe, all, x);
    }
    if Sorted(BindingLe, other) && forall x :: Ties(BindingLe, other, x) == Ties(BindingLe, all, x) {
      StableSortUnique(BindingLe, other, Sort(BindingLe, all));
    }
  }

  // Binding ids

  lemma SameRouteIds(route: string, a: string, b: string)
    ensures BindingId(route, a) == BindingId(route, b) <==> a == b
  {
    if BindingId(route, a) == BindingId(route, b) {
      assert BindingId(route, a)[|route| + 1..] == a;
      assert BindingId(route, b)[|route| + 1..] == b;
    }
  }

  ghost predicate BoundFrom(route: string, p: PluginInstance, registry: Registry, b: Binding) {
    p.enabled && p.name in registry && b == Bind(route, registry[p.name], p)
  }

  ghost predicate Bound(route: string, configured: seq<PluginInstance>, registry: Registry, b: Binding) {
    exists p :: p in configured && BoundFrom(route, p, registry, b)
  }

  lemma BoundSnoc(route: string, configured: seq<PluginInstance>, p: PluginInstance, registry: Registry, b: Binding)
    ensures Bound(route, configured + [p], registry, b)
       <==> Bound(route, configured, registry, b) || BoundFrom(route, p, registry, b)
  {
    if Bound(route, configured, registry, b) {
      var q :| q in configured && BoundFrom(route, q, registry, b);
      assert q in configured + [p];
    }
    if BoundFrom(route, p, registry, b) {
      assert p in configured + [p];
    }
  }

  lemma {:induction false} BoundMembers(route: string, configured: seq<PluginInstance>, registry: Registry,
                                        conforms: Conforms, b: Binding)
    requires BindAll(route, configured, registry, conforms).Ok?
    ensures b in BindAll(route, configured, registry, conforms).value <==> Bound(route, configured, registry, b)
  {
    if configured != [] {
      var before, p := configured[..|configured| - 1], configured[|configured| - 1];
      BoundMembers(route, before, registry, conforms, b);
      BoundSnoc(route, before, p, registry, b);
      assert configured == before + [p];
    }
  }

  lemma {:induction false} BoundExist(route: string, configured: seq<PluginInstance>, registry: Registry,
                                      conforms: Conforms)
    requires BindAll(route, configured, registry, conforms).Ok?
    ensures forall p | p in configured && p.enabled :: p.name in registry
  {
    if configured != [] {
      BoundExist(route, configured[..|configured| - 1], registry, conforms);
    }
  }

  lemma ChainMembers(cfg: GatewayConfig, r: Route, registry: Registry, conforms: Conforms, b: Binding)
    requires ChainFor(cfg, r, registry, conforms).Ok?
    ensures b in ChainFor(cfg, r, registry, conforms).value
       <==> Bound(r.name, cfg.plugins.instances, registry, b) || Bound(r.name, r.plugins, registry, b)
  {
    var global, own := BindAll(r.name, cfg.plugins.instances, registry, conforms).value,
        BindAll(r.name, r.plugins, registry, conforms).value;
    var chain := ChainFor(cfg, r, registry, conforms).value;
    SortContents(BindingLe, global + own);
    assert b in chain <==> b in multiset(chain);
    assert b in global + own <==> b in multiset(global + own);
    BoundMembers(r.name, cfg.plugins.instances, registry, conforms, b);
    BoundMembers(r.name, r.plugins, registry, conforms, b);
  }

  /** Within these bindings an id stands for one binding. */
  ghost predicate IdsDetermine(bindings: seq<Binding>) {
    forall a, b | a in bindings && b in bindings && a.id == b.id :: a == b
  }

  ghost predicate UniquePlugins(configured: seq<PluginInstance>) {
    forall p, q | p in configured && q in configured && p.name == q.name :: p == q
  }

  ghost predicate Alike(p: PluginInstance, q: PluginInstance) {
    (p.failMode == "open" <==> q.failMode == "open") && p.config == q.config
  }

  /** Plugins enabled both globally and on a route are configured alike in both places. */
  ghost predicate SharedAlike(global: seq<PluginInstance>, own: seq<PluginInstance>) {
    forall p, q | p in global && q in own && p.enabled && q.enabled && p.name == q.name :: Alike(p, q)
  }

  lemma SharedMustBeAlike(cfg: GatewayConfig, r: Route, registry: Registry, conforms: Conforms)
    requires ChainFor(cfg, r, registry, conforms).Ok? && IdsDetermine(ChainFor(cfg, r, registry, conforms).value)
    ensures SharedAlike(cfg.plugins.instances, r.plugins)
  {
    BoundExist(r.name, cfg.plugins.instances, registry, conforms);
    forall p, q | p in cfg.plugins.instances && q in r.plugins && p.enabled && q.enabled && p.name == q.name
      ensures Alike(p, q)
    {
      var a, b := Bind(r.name, registry[p.name], p), Bind(r.name, registry[q.name], q);
      assert BoundFrom(r.name, p, registry, a) && BoundFrom(r.name, q, registry, b);
      ChainMembers(cfg, r, registry, conforms, a);
      ChainMembers(cfg, r, registry, conforms, b);
    }
  }

  /** Bindings that carry the same id come from instances of the same plugin. */
  lemma SameIdSameBinding(route: string, global: seq<PluginInstance>, own: seq<PluginInstance>, registry: Registry,
                          a: Binding, b: Binding)
    requires UniquePlugins(global) && UniquePlugins(own) && SharedAlike(global, own)
    requires Bound(route, global, registry, a) || Bound(route, own, registry, a)
    requires Bound(route, global, registry, b) || Bound(route, own, registry, b)
    requires a.id == b.id
    ensures a == b
  {
    var p :| (p in global || p in own) && BoundFrom(route, p, registry, a);
    var q :| (q in global || q in own) && BoundFrom(route, q, registry, b);
    assert BoundFrom(route, p, registry, a) && BoundFrom(route, q, registry, b);
    SameRouteIds(route, p.name, q.name);
    assert a.id == BindingId(route, p.name) && b.id == BindingId(route, q.name);
    if p in global && q in own {
      assert Alike(p, q);
    } else if p in own && q in global {
      assert Alike(q, p);
    } else {
      assert p == q;
    }
  }

  /**
   Ids within a chain, exactly: when no name repeats among the global instances nor
   among the route's own, as validation ensures, an id stands for one binding of the
   chain if and only if every plugin enabled both globally and on the route is
   configured alike in both places.
   */
  lemma ChainIdsDetermineIff(cfg: GatewayConfig, r: Route, registry: Registry, conforms: Conforms)
    requires ChainFor(cfg, r, registry, conforms).Ok?
    requires UniquePlugins(cfg.plugins.instances) && UniquePlugins(r.plugins)
    ensures IdsDetermine(ChainFor(cfg, r, registry, conforms).value) <==> SharedAlike(cfg.plugins.instances, r.plugins)
  {
    var chain := ChainFor(cfg, r, registry, conforms).value;
    if IdsDetermine(chain) {
      SharedMustBeAlike(cfg, r, registry, conforms);
    }
    if SharedAlike(cfg.plugins.instances, r.plugins) {
      forall a, b | a in chain && b in chain && a.id == b.id
        ensures a == b
      {
        ChainMembers(cfg, r, registry, conforms, a);
        ChainMembers(cfg, r, registry, conforms, b);
        SameIdSameBinding(r.name, cfg.plugins.instances, r.plugins, registry, a, b);
      }
    }
  }

  /** Across routes, colon-free route names make the id determine route and plugin. */
  lemma CrossRouteIds(r1: string, p1: string, r2: string, p2: string)
    requires ':' !in r1 && ':' !in r2
    ensures BindingId(r1, p1) == BindingId(r2, p2) <==> r1 == r2 && p1 == p2
  {
    if BindingId(r1, p1) == BindingId(r2, p2) {
      FirstPart(r1, r2, p1, p2);
    }
  }

  /** Without that, two routes can produce the same id. */
  lemma IdsCanClash()
    ensures BindingId("a:b", "c") == BindingId("a", "b:c")
  {
    assert BindingId("a:b", "c") == "a:b:c";
  }
}
