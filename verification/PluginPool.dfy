/** Plugin instances cached per thread, and the engine whose runtime is swapped on reload. */
module PluginPool {
  import opened Wrappers
  import opened Config
  import opened PluginChain

  /** A plugin object: what evaluating a binding's source with its config yields. */
  datatype Instance = Instance(builtFrom: Binding)

  datatype Vm = Vm(generation: nat, instances: map<string, Instance>)

  const FRESH := Vm(0, map[])

  function Prepared(vm: Vm, generation: nat): Vm {
    if vm.generation != generation then Vm(generation, map[]) else vm
  }

  /** The instance handed out for a binding: the cached one, or a new one if it loads. */
  function Handed(vm: Vm, b: Binding, loads: bool): Option<Instance> {
    if b.id in vm.instances then Some(vm.instances[b.id]) else if loads then Some(Instance(b)) else None
  }

  function Caching(vm: Vm, b: Binding, loads: bool): Vm {
    if b.id !in vm.instances && loads then vm.(instances := vm.instances[b.id := Instance(b)]) else vm
  }

  class ThreadLocalVm {
    var generation: nat
    var instances: map<string, Instance>

    ghost function View(): Vm
      reads this
    {
      Vm(generation, instances)
    }

    constructor ()
      ensures View() == FRESH
    {
      generation, instances := 0, map[];
    }

    /** The cache is brought to the generation even when setting the limits then fails. */
    method Prepare(generation: nat, limitsSet: bool) returns (ok: bool)
      modifies this
      ensures View() == Prepared(old(View()), generation)
      ensures ok == limitsSet
    {
      if this.generation != generation {
        this.generation := generation;
        instances := map[];
      }
      ok := limitsSet;
    }

    method PluginInstance(b: Binding, loads: bool) returns (i: Option<Instance>)
      modifies this
      ensures i == Handed(old(View()), b, loads)
      ensures View() == Caching(old(View()), b, loads)
    {
      if b.id in instances {
        return Some(instances[b.id]);
      }
      if !loads {
        return None;
      }
      instances := instances[b.id := Instance(b)];
      i := Some(Instance(b));
    }
  }

  class PluginEngine {
    var runtime: Runtime
    var nextGeneration: nat

    ghost predicate Valid()
      reads this
    {
      runtime.generation < nextGeneration
    }

    constructor (runtime: Runtime)
      ensures Valid()
      ensures this.runtime == runtime && nextGeneration == runtime.generation + 1
    {
      this.runtime := runtime;
      this.nextGeneration := runtime.generation + 1;
    }

    method NextGeneration() returns (g: nat)
      requires Valid()
      modifies this`nextGeneration
      ensures Valid()
      ensures g == old(nextGeneration) && nextGeneration == g + 1
    {
      g := nextGeneration;
      nextGeneration := nextGeneration + 1;
    }

    /** A failed reload burns a generation and changes nothing else. */
    method ReloadFromConfig(cfg: GatewayConfig, disk: Disk, conforms: Conforms)
      returns (r: Result<(), PluginError>)
      requires Valid()
      modifies this
      ensures Valid()
      ensures nextGeneration == old(nextGeneration) + 1
      ensures
        var built := RuntimeFor(cfg, old(nextGeneration), disk, conforms);
        && (built.Ok? ==> r == Ok(()) && runtime == built.value)
        && (built.Err? ==> r == Err(built.error) && runtime == old(runtime))
    {
      var generation := NextGeneration();
      var built := BuildRuntime(cfg, generation, disk, conforms);
      if built.Err? {
        return Err(built.error);
      }
      runtime := built.value;
      r := Ok(());
    }
  }
}

/** Reloads and requests interleaved on any number of threads. */
module PluginPoolRuns {
  import opened Wrappers
  import opened PluginChain
  import opened PluginPool

  /**
   Engine, reloads that hold a generation but have not installed a runtime yet, requests
   that hold a clone of some runtime, and every thread's VM. `built` records which
   runtime was ever installed under a generation, `served` what was handed out.
   */
  datatype System = System(
    next: nat,
    installed: Runtime,
    pending: map<nat, nat>,
    held: map<nat, Runtime>,
    vms: map<nat, Vm>,
    built: map<nat, Runtime>,
    served: seq<Record>)

  /** Binding `asked` of runtime `runtime` was given `given`. */
  datatype Record = Record(runtime: Runtime, asked: Binding, given: Instance)

  datatype Step =
    | TakeGeneration(reload: nat)
    | Install(reload: nat, runtime: Runtime)
    | Abandon(reload: nat)
    | Clone(request: nat)
    | Serve(request: nat, thread: nat, route: string, position: nat, loads: bool)

  ghost predicate Enabled(s: System, step: Step) {
    match step
    case TakeGeneration(j) => j !in s.pending
    case Install(j, rt) => j in s.pending && rt.generation == s.pending[j]
    case Abandon(j) => j in s.pending
    case Clone(q) => true
    case Serve(q, t, route, i, loads) =>
      q in s.held && route in s.held[q].chains && i < |s.held[q].chains[route]|
  }

  ghost function Next(s: System, step: Step): System
    requires Enabled(s, step)
  {
    match step
    case TakeGeneration(j) => s.(next := s.next + 1, pending := s.pending[j := s.next])
    case Install(j, rt) => s.(installed := rt, pending := s.pending - {j}, built := s.built[rt.generation := rt])
    case Abandon(j) => s.(pending := s.pending - {j})
    case Clone(q) => s.(held := s.held[q := s.installed])
    case Serve(q, t, route, i, loads) =>
      var rt := s.held[q];
      var b := rt.chains[route][i];
      var vm := Prepared(if t in s.vms then s.vms[t] else FRESH, rt.generation);
      var given := Handed(vm, b, loads);
      s.(vms := s.vms[t := Caching(vm, b, loads)],
         served := if given.Some? then s.served + [Record(rt, b, given.value)] else s.served)
  }

  ghost function Start(runtime: Runtime): System {
    System(runtime.generation + 1, runtime, map[], map[], map[], map[runtime.generation := runtime], [])
  }

  /** The system after a run, if every step of it was possible. */
  ghost function After(runtime: Runtime, steps: seq<Step>): Option<System> {
    if steps == [] then Some(Start(runtime))
    else
      match After(runtime, steps[..|steps| - 1])
      case None => None
      case Some(s) => if Enabled(s, steps[|steps| - 1]) then Some(Next(s, steps[|steps| - 1])) else None
  }

  ghost predicate InRuntime(rt: Runtime, b: Binding) {
    exists route :: route in rt.chains && b in rt.chains[route]
  }

  ghost predicate IdsDetermineIn(rt: Runtime) {
    forall a, b | InRuntime(rt, a) && InRuntime(rt, b) && a.id == b.id :: a == b
  }

  /** A cached instance was built from a binding of the VM's own generation that carries the id. */
  ghost predicate VmOk(built: map<nat, Runtime>, vm: Vm) {
    forall id | id in vm.instances ::
      && vm.generation in built
      && vm.instances[id].builtFrom.id == id
      && InRuntime(built[vm.generation], vm.instances[id].builtFrom)
  }

  ghost predicate RecordOk(r: Record) {
    r.given.builtFrom.id == r.asked.id && InRuntime(r.runtime, r.given.builtFrom) && InRuntime(r.runtime, r.asked)
  }

  /** A runtime is known by its generation. */
  ghost predicate Known(built: map<nat, Runtime>, rt: Runtime) {
    rt.generation in built && built[rt.generation] == rt
  }

  ghost predicate GenerationsOk(s: System) {
    && (forall g | g in s.built :: g < s.next)
    && (forall j | j in s.pending :: s.pending[j] < s.next && s.pending[j] !in s.built)
    && (forall j, k | j in s.pending && k in s.pending && j != k :: s.pending[j] != s.pending[k])
  }

  ghost predicate Inv(s: System) {
    && GenerationsOk(s)
    && Known(s.built, s.installed)
    && (forall q | q in s.held :: Known(s.built, s.held[q]))
    && (forall t | t in s.vms :: VmOk(s.built, s.vms[t]))
    && (forall i | 0 <= i < |s.served| :: RecordOk(s.served[i]))
  }

  lemma ServeKeeps(s: System, step: Step)
    requires Inv(s) && Enabled(s, step) && step.Serve?
    ensures Inv(Next(s, step))
  {
    var rt := s.held[step.request];
    var b := rt.chains[step.route][step.position];
    assert InRuntime(rt, b);
    var vm := Prepared(if step.thread in s.vms then s.vms[step.thread] else FRESH, rt.generation);
    assert VmOk(s.built, vm);
    assert VmOk(s.built, Caching(vm, b, step.loads));
    var given := Handed(vm, b, step.loads);
    if given.Some? {
      assert RecordOk(Record(rt, b, given.value));
    }
  }

  lemma InstallKeeps(s: System, step: Step)
    requires Inv(s) && Enabled(s, step) && step.Install?
    ensures Inv(Next(s, step))
  {
    var s' := Next(s, step);
    forall t | t in s.vms
      ensures VmOk(s'.built, s.vms[t])
    {
      assert VmOk(s.built, s.vms[t]);
    }
  }

  lemma StepKeeps(s: System, step: Step)
    requires Inv(s) && Enabled(s, step)
    ensures Inv(Next(s, step))
  {
    match step
    case Serve(_, _, _, _, _) => ServeKeeps(s, step);
    case Install(_, _) => InstallKeeps(s, step);
    case TakeGeneration(_) =>
    case Abandon(_) =>
    case Clone(_) =>
  }

  lemma {:induction false} AlwaysInv(runtime: Runtime, steps: seq<Step>)
    requires After(runtime, steps).Some?
    ensures Inv(After(runtime, steps).value)
  {
    if steps != [] {
      var n := |steps| - 1;
      AlwaysInv(runtime, steps[..n]);
      StepKeeps(After(runtime, steps[..n]).value, steps[n]);
    }
  }

  /**
   The cache never mixes generations: in every interleaving of reloads, installed in any
   order, and requests still using old runtimes, on any threads, an instance handed out
   was built from a binding with the id asked for in the caller's own runtime, and is
   the one a rebuild would give whenever ids stand for one binding there.
   */
  lemma CacheAgreesWithRebuild(runtime: Runtime, steps: seq<Step>, r: Record)
    requires After(runtime, steps).Some? && r in After(runtime, steps).value.served
    ensures r.given.builtFrom.id == r.asked.id && InRuntime(r.runtime, r.given.builtFrom)
    ensures IdsDetermineIn(r.runtime) ==> r.given == Instance(r.asked)
  {
    AlwaysInv(runtime, steps);
    assert RecordOk(r);
  }

  /** Every run that starts with `rt` hands out, for bindings of `rt`, what a rebuild would give. */
  ghost predicate AlwaysRebuilds(rt: Runtime) {
    forall steps: seq<Step>, r: Record ::
      After(rt, steps).Some? && r in After(rt, steps).value.served && r.runtime == rt ==> r.given == Instance(r.asked)
  }

  /** Asking for `a` and then, on the same thread, for `b`. */
  lemma TwoRequests(rt: Runtime, ra: string, i: nat, rb: string, j: nat)
    requires ra in rt.chains && i < |rt.chains[ra]| && rb in rt.chains && j < |rt.chains[rb]|
    requires rt.chains[ra][i].id == rt.chains[rb][j].id
    ensures
      var steps := [Clone(0), Serve(0, 0, ra, i, true), Serve(0, 0, rb, j, true)];
      && After(rt, steps).Some?
      && Record(rt, rt.chains[rb][j], Instance(rt.chains[ra][i])) in After(rt, steps).value.served
  {
    var steps := [Clone(0), Serve(0, 0, ra, i, true), Serve(0, 0, rb, j, true)];
    assert steps[..2][..1] == steps[..1] && steps[..1][..0] == [];
    var s1 := Start(rt).(held := map[0 := rt]);
    assert After(rt, steps[..1]) == Some(s1);
    var s2 := Next(s1, steps[1]);
    assert After(rt, steps[..2]) == Some(s2);
    var s3 := Next(s2, steps[2]);
    assert After(rt, steps) == Some(s3);
    var last := Record(rt, rt.chains[rb][j], Instance(rt.chains[ra][i]));
    assert s3.served[|s3.served| - 1] == last;
  }

  /** The cache always agrees with a rebuild exactly when, in the runtime, an id stands for one binding. */
  lemma RebuildsIffIdsDetermine(rt: Runtime)
    ensures AlwaysRebuilds(rt) <==> IdsDetermineIn(rt)
  {
    if IdsDetermineIn(rt) {
      forall steps: seq<Step>, r: Record | After(rt, steps).Some? && r in After(rt, steps).value.served
          && r.runtime == rt
        ensures r.given == Instance(r.asked)
      {
        CacheAgreesWithRebuild(rt, steps, r);
      }
    }
    if AlwaysRebuilds(rt) {
      forall a, b | InRuntime(rt, a) && InRuntime(rt, b) && a.id == b.id
        ensures a == b
      {
        var ra :| ra in rt.chains && a in rt.chains[ra];
        var rb :| rb in rt.chains && b in rt.chains[rb];
        var i :| 0 <= i < |rt.chains[ra]| && rt.chains[ra][i] == a;
        var j :| 0 <= j < |rt.chains[rb]| && rt.chains[rb][j] == b;
        TwoRequests(rt, ra, i, rb, j);
      }
    }
  }
}

/** From configuration to cache: when the ids of a built runtime stand for one binding each. */
module PluginIds {
  import opened Config
  import opened Validation
  import opened Compiler
  import opened PluginChain
  import opened PluginPoolRuns

  lemma {:induction false} ChainKeys(cfg: GatewayConfig, routes: seq<Route>, registry: Registry,
                                     conforms: Conforms, name: string) returns (r: Route)
    requires ChainsFor(cfg, routes, registry, conforms).Ok?
    requires name in ChainsFor(cfg, routes, registry, conforms).value
    ensures r in routes && r.name == name
  {
    var n := |routes| - 1;
    if routes[n].name == name {
      r := routes[n];
    } else {
      r := ChainKeys(cfg, routes[..n], registry, conforms, name);
    }
  }

  /** A binding of a route's chain comes from an enabled instance that applies to the route. */
  lemma InstanceOf(cfg: GatewayConfig, r: Route, registry: Registry, conforms: Conforms, b: Binding)
    returns (p: PluginInstance)
    requires ChainFor(cfg, r, registry, conforms).Ok? && b in ChainFor(cfg, r, registry, conforms).value
    ensures Applies(cfg, r, p) && BoundFrom(r.name, p, registry, b)
  {
    ChainMembers(cfg, r, registry, conforms, b);
    p :| (p in cfg.plugins.instances || p in r.plugins) && BoundFrom(r.name, p, registry, b);
    assert BoundFrom(r.name, p, registry, b);
  }

  /** An enabled instance that applies to the route is bound in its chain. */
  lemma BindingOf(cfg: GatewayConfig, r: Route, registry: Registry, conforms: Conforms,
                  p: PluginInstance)
    requires ChainFor(cfg, r, registry, conforms).Ok? && Applies(cfg, r, p)
    ensures p.name in registry && Bind(r.name, registry[p.name], p) in ChainFor(cfg, r, registry, conforms).value
  {
    BoundExist(r.name, cfg.plugins.instances, registry, conforms);
    BoundExist(r.name, r.plugins, registry, conforms);
    var b := Bind(r.name, registry[p.name], p);
    assert BoundFrom(r.name, p, registry, b);
    ChainMembers(cfg, r, registry, conforms, b);
  }

  ghost predicate Applies(cfg: GatewayConfig, r: Route, p: PluginInstance) {
    p.enabled && (p in cfg.plugins.instances || p in r.plugins)
  }

  /** No plugin of one route has the id of a plugin of another route. */
  ghost predicate IdsApart(cfg: GatewayConfig) {
    forall r1, r2, p, q | r1 in cfg.routes && r2 in cfg.routes && r1.name != r2.name && Applies(cfg, r1, p)
        && Applies(cfg, r2, q) ::
      BindingId(r1.name, p.name) != BindingId(r2.name, q.name)
  }

  /** Colon-free route names keep ids apart. */
  lemma ColonFreeIsApart(cfg: GatewayConfig)
    requires forall r | r in cfg.routes :: ':' !in r.name
    ensures IdsApart(cfg)
  {
    forall r1, r2, p, q | r1 in cfg.routes && r2 in cfg.routes && r1.name != r2.name && Applies(cfg, r1, p)
        && Applies(cfg, r2, q)
      ensures BindingId(r1.name, p.name) != BindingId(r2.name, q.name)
    {
      CrossRouteIds(r1.name, p.name, r2.name, q.name);
    }
  }

  /** A plugin is registered under its own name, that of its file. */
  ghost predicate OwnNames(registry: Registry) {
    forall n | n in registry :: registry[n].name == n
  }

  /** What validation ensures: names distinct among routes, and among the plugins of one list. */
  ghost predicate Distinct(cfg: GatewayConfig) {
    && (forall i, j | 0 <= i < j < |cfg.routes| :: cfg.routes[i].name != cfg.routes[j].name)
    && UniquePlugins(cfg.plugins.instances)
    && (forall r | r in cfg.routes :: UniquePlugins(r.plugins))
  }

  ghost predicate AllAlike(cfg: GatewayConfig) {
    forall r | r in cfg.routes :: SharedAlike(cfg.plugins.instances, r.plugins)
  }

  lemma AcceptedAreDistinct(cfg: GatewayConfig, urlOk: string -> bool)
    requires Acceptable(cfg, urlOk)
    ensures Distinct(cfg)
  {
    AcceptedNames(cfg, urlOk);
    forall e
      ensures !PluginsViolation(Global, cfg.plugins.instances, e)
    {
      assert !Violates(cfg, urlOk, e);
    }
    UniqueFrom(cfg.plugins.instances, Global);
    forall r | r in cfg.routes
      ensures UniquePlugins(r.plugins)
    {
      forall e
        ensures !PluginsViolation(OfRoute(r.name), r.plugins, e)
      {
        assert !Violates(cfg, urlOk, e);
        assert !RouteViolation(r, e);
      }
      UniqueFrom(r.plugins, OfRoute(r.name));
    }
  }

  lemma UniqueFrom(plugins: seq<PluginInstance>, scope: Scope)
    requires forall e :: !PluginsViolation(scope, plugins, e)
    ensures UniquePlugins(plugins)
  {
    forall p, q | p in plugins && q in plugins && p.name == q.name
      ensures p == q
    {
      var names := PluginNames(plugins);
      var i :| 0 <= i < |plugins| && plugins[i] == p;
      var j :| 0 <= j < |plugins| && plugins[j] == q;
      assert !PluginsViolation(scope, plugins, DuplicateName(PluginKind(scope), p.name));
      assert !Repeated(names, p.name);
      assert names[i] == names[j] == p.name;
    }
  }

  /**
   Ids of a runtime, exactly: in the runtime of an accepted configuration an id stands for
   one binding if and only if every plugin that is enabled both globally and on some
   route is configured alike in both places, and no two routes have plugins whose ids
   coincide, as they can when a route name holds a colon.
   */
  lemma RuntimeIdsDetermineIff(cfg: GatewayConfig, generation: nat, registry: Registry, conforms: Conforms)
    requires Distinct(cfg) && OwnNames(registry)
    requires cfg.plugins.enabled && RuntimeFor(cfg, generation, Found(registry), conforms).Ok?
    ensures IdsDetermineIn(RuntimeFor(cfg, generation, Found(registry), conforms).value)
       <==> AllAlike(cfg) && IdsApart(cfg)
  {
    if IdsDetermineIn(RuntimeFor(cfg, generation, Found(registry), conforms).value) {
      MustBeAlike(cfg, generation, registry, conforms);
      MustBeApart(cfg, generation, registry, conforms);
    }
    if AllAlike(cfg) && IdsApart(cfg) {
      var rt := RuntimeFor(cfg, generation, Found(registry), conforms).value;
      forall a, b | InRuntime(rt, a) && InRuntime(rt, b) && a.id == b.id
        ensures a == b
      {
        SameIdInRuntime(cfg, generation, registry, conforms, a, b);
      }
    }
  }

  lemma MustBeAlike(cfg: GatewayConfig, generation: nat, registry: Registry, conforms: Conforms)
    requires Distinct(cfg) && cfg.plugins.enabled && RuntimeFor(cfg, generation, Found(registry), conforms).Ok?
    requires IdsDetermineIn(RuntimeFor(cfg, generation, Found(registry), conforms).value)
    ensures AllAlike(cfg)
  {
    var rt := RuntimeFor(cfg, generation, Found(registry), conforms).value;
    forall r | r in cfg.routes
      ensures SharedAlike(cfg.plugins.instances, r.plugins)
    {
      ChainOf(cfg, cfg.routes, registry, conforms, r);
      assert forall b | b in rt.chains[r.name] :: InRuntime(rt, b);
      ChainIdsDetermineIff(cfg, r, registry, conforms);
    }
  }

  lemma MustBeApart(cfg: GatewayConfig, generation: nat, registry: Registry, conforms: Conforms)
    requires Distinct(cfg) && OwnNames(registry)
    requires cfg.plugins.enabled && RuntimeFor(cfg, generation, Found(registry), conforms).Ok?
    requires IdsDetermineIn(RuntimeFor(cfg, generation, Found(registry), conforms).value)
    ensures IdsApart(cfg)
  {
    forall r1, r2, p, q | r1 in cfg.routes && r2 in cfg.routes && r1.name != r2.name && Applies(cfg, r1, p)
        && Applies(cfg, r2, q)
      ensures BindingId(r1.name, p.name) != BindingId(r2.name, q.name)
    {
      var a := BoundInRuntime(cfg, generation, registry, conforms, r1, p);
      var b := BoundInRuntime(cfg, generation, registry, conforms, r2, q);
      SamePluginIds(r1.name, r2.name, p.name);
    }
  }

  lemma BoundInRuntime(cfg: GatewayConfig, generation: nat, registry: Registry, conforms: Conforms,
                       r: Route, p: PluginInstance) returns (b: Binding)
    requires Distinct(cfg) && OwnNames(registry)
    requires cfg.plugins.enabled && RuntimeFor(cfg, generation, Found(registry), conforms).Ok?
    requires r in cfg.routes && Applies(cfg, r, p)
    ensures InRuntime(RuntimeFor(cfg, generation, Found(registry), conforms).value, b)
    ensures b.id == BindingId(r.name, p.name) && b.name == p.name
  {
    ChainOf(cfg, cfg.routes, registry, conforms, r);
    BindingOf(cfg, r, registry, conforms, p);
    b := Bind(r.name, registry[p.name], p);
    assert b in RuntimeFor(cfg, generation, Found(registry), conforms).value.chains[r.name];
  }

  lemma SamePluginIds(r1: string, r2: string, plugin: string)
    ensures BindingId(r1, plugin) == BindingId(r2, plugin) <==> r1 == r2
  {
    var a, b := BindingId(r1, plugin), BindingId(r2, plugin);
    if a == b {
      assert |a| == |r1| + 1 + |plugin| && |b| == |r2| + 1 + |plugin|;
      assert a[..|r1|] == r1 && b[..|r2|] == r2;
    }
  }

  lemma SameIdInRuntime(cfg: GatewayConfig, generation: nat, registry: Registry, conforms: Conforms,
                        a: Binding, b: Binding)
    requires Distinct(cfg) && AllAlike(cfg) && IdsApart(cfg)
    requires cfg.plugins.enabled && RuntimeFor(cfg, generation, Found(registry), conforms).Ok?
    requires
      var rt := RuntimeFor(cfg, generation, Found(registry), conforms).value;
      InRuntime(rt, a) && InRuntime(rt, b) && a.id == b.id
    ensures a == b
  {
    var rt := RuntimeFor(cfg, generation, Found(registry), conforms).value;
    var na :| na in rt.chains && a in rt.chains[na];
    var nb :| nb in rt.chains && b in rt.chains[nb];
    var ra := ChainKeys(cfg, cfg.routes, registry, conforms, na);
    var rb := ChainKeys(cfg, cfg.routes, registry, conforms, nb);
    ChainOf(cfg, cfg.routes, registry, conforms, ra);
    ChainOf(cfg, cfg.routes, registry, conforms, rb);
    var pa := InstanceOf(cfg, ra, registry, conforms, a);
    var pb := InstanceOf(cfg, rb, registry, conforms, b);
    assert na == nb;
    ChainIdsDetermineIff(cfg, ra, registry, conforms);
  }

  /** From the configuration to what requests get: every run serves what a rebuild would give, exactly then. */
  lemma ServedAsConfiguredIff(cfg: GatewayConfig, generation: nat, registry: Registry,
                              conforms: Conforms, urlOk: string -> bool)
    requires Acceptable(cfg, urlOk) && OwnNames(registry)
    requires cfg.plugins.enabled && RuntimeFor(cfg, generation, Found(registry), conforms).Ok?
    ensures AlwaysRebuilds(RuntimeFor(cfg, generation, Found(registry), conforms).value)
       <==> AllAlike(cfg) && IdsApart(cfg)
  {
    AcceptedAreDistinct(cfg, urlOk);
    RuntimeIdsDetermineIff(cfg, generation, registry, conforms);
    RebuildsIffIdsDetermine(RuntimeFor(cfg, generation, Found(registry), conforms).value);
  }
}
