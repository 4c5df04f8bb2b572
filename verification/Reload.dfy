/** Reloading the configuration: three stores updated one after the other. */
module Reload {
  import opened Wrappers
  import opened Config
  import opened Endpoints
  import opened Validation
  import opened Compiler
  import opened PluginChain
  import opened PluginPool
  import opened XdsSnapshots
  import opened XdsServer

  /** What reading and parsing the config file gives; YAML is not modelled. */
  datatype Source = Unreadable | Malformed(raw: string) | Parsed(raw: string, cfg: GatewayConfig)

  datatype ReloadError =
    | ReadFailed
    | ParseFailed
    | Invalid(errors: seq<ConfigError>)
    | PluginFailed(plugin: PluginError)
    | XdsFailed(endpoint: EndpointError)

  /** The outside world of one attempt: the file, the clock, the plugin directory. */
  datatype Attempt = Attempt(source: Source, now: int, disk: Disk)

  /** What stays fixed while the gateway runs: library predicates and the digest. */
  datatype Fixed = Fixed(urlOk: string -> bool, conforms: Conforms, digest: string -> string)

  datatype Engine = Engine(runtime: Runtime, nextGeneration: nat)

  datatype Plane = Plane(snapshot: Snapshot, version: nat)

  datatype Gateway = Gateway(
    config: GatewayConfig,
    sha: string,
    lastReload: int,
    lastOk: bool,
    engine: Option<Engine>,
    plane: Option<Plane>)

  // Specification on values

  function EngineReload(x: Fixed, e: Engine, cfg: GatewayConfig, disk: Disk): Engine {
    var built := RuntimeFor(cfg, e.nextGeneration, disk, x.conforms);
    Engine(if built.Ok? then built.value else e.runtime, e.nextGeneration + 1)
  }

  function PlaneRebuild(p: Plane, cfg: GatewayConfig): Plane {
    var built := Build(cfg, p.version + 1);
    Plane(if built.Ok? then built.value else p.snapshot, p.version + 1)
  }

  predicate PluginsBuild(x: Fixed, g: Gateway, cfg: GatewayConfig, disk: Disk) {
    g.engine.Some? ==> RuntimeFor(cfg, g.engine.value.nextGeneration, disk, x.conforms).Ok?
  }

  predicate XdsBuilds(g: Gateway, cfg: GatewayConfig) {
    g.plane.Some? ==> Build(cfg, g.plane.value.version + 1).Ok?
  }

  function EngineThen(x: Fixed, g: Gateway, cfg: GatewayConfig, disk: Disk): Option<Engine> {
    if g.engine.Some? then Some(EngineReload(x, g.engine.value, cfg, disk)) else None
  }

  function PlaneThen(g: Gateway, cfg: GatewayConfig): Option<Plane> {
    if g.plane.Some? then Some(PlaneRebuild(g.plane.value, cfg)) else None
  }

  /** Plugins first, then xDS, then the active config; the first failure stops it. */
  function Applied(x: Fixed, g: Gateway, raw: string, cfg: GatewayConfig, now: int, disk: Disk): Gateway {
    var engine := EngineThen(x, g, cfg, disk);
    if !PluginsBuild(x, g, cfg, disk) then g.(engine := engine, lastReload := now, lastOk := false)
    else
      var plane := PlaneThen(g, cfg);
      if !XdsBuilds(g, cfg) then g.(engine := engine, plane := plane, lastReload := now, lastOk := false)
      else Gateway(cfg, x.digest(raw), now, true, engine, plane)
  }

  ghost function Reloaded(x: Fixed, g: Gateway, a: Attempt): Gateway {
    if a.source.Parsed? && Acceptable(a.source.cfg, x.urlOk)
    then Applied(x, g, a.source.raw, a.source.cfg, a.now, a.disk)
    else g.(lastReload := a.now, lastOk := false)
  }

  // The handler

  class AppState {
    const x: Fixed
    const engine: PluginEngine?
    const xds: XdsControlPlane?
    var config: GatewayConfig
    var sha: string
    var lastReload: int
    var lastOk: bool
    var lastError: Option<ReloadError>

    ghost predicate Valid()
      reads this, engine, xds
      reads if xds != null then {xds.versions, xds.registry} else {}
    {
      && (engine != null ==> engine.Valid())
      && (xds != null ==> xds.registry.Valid())
      && (lastError.Some? <==> !lastOk)
    }

    ghost function View(): Gateway
      reads this, engine, xds
      reads if xds != null then {xds.versions} else {}
    {
      Gateway(config, sha, lastReload, lastOk,
              if engine != null then Some(Engine(engine.runtime, engine.nextGeneration)) else None,
              if xds != null then Some(Plane(xds.snapshot, xds.versions.next)) else None)
    }

    constructor (x: Fixed, engine: PluginEngine?, xds: XdsControlPlane?, raw: string, config: GatewayConfig, now: int)
      requires engine != null ==> engine.Valid()
      requires xds != null ==> xds.registry.Valid()
      ensures Valid() && this.x == x && this.engine == engine && this.xds == xds
      ensures this.config == config && sha == x.digest(raw) && lastReload == now && lastOk
    {
      this.x, this.engine, this.xds := x, engine, xds;
      this.config, this.sha := config, x.digest(raw);
      this.lastReload, this.lastOk, this.lastError := now, true, None;
    }

    method ReloadFailed(now: int, error: ReloadError) returns (r: Result<(), ReloadError>)
      requires Valid()
      modifies this
      ensures Valid()
      ensures r == Err(error) && lastError == Some(error)
      ensures View() == old(View()).(lastReload := now, lastOk := false)
    {
      lastReload, lastOk, lastError := now, false, Some(error);
      r := Err(error);
    }

    method Commit(raw: string, cfg: GatewayConfig, now: int)
      requires Valid()
      modifies this
      ensures Valid()
      ensures View() == Gateway(cfg, x.digest(raw), now, true, old(View()).engine, old(View()).plane)
    {
      config := cfg;
      sha := x.digest(raw);
      lastReload, lastOk, lastError := now, true, None;
    }

    method ReloadPlugins(cfg: GatewayConfig, disk: Disk) returns (r: Result<(), ReloadError>)
      requires Valid()
      modifies engine
      ensures Valid()
      ensures r.Ok? <==> PluginsBuild(x, old(View()), cfg, disk)
      ensures View() == old(View()).(engine := EngineThen(x, old(View()), cfg, disk))
    {
      r := Ok(());
      if engine != null {
        var e := engine.ReloadFromConfig(cfg, disk, x.conforms);
        if e.Err? {
          r := Err(PluginFailed(e.error));
        }
      }
    }

    method RebuildXds(cfg: GatewayConfig, accepts: map<nat, nat>) returns (r: Result<(), ReloadError>)
      requires Valid()
      requires xds != null ==> forall n | n in xds.registry.connections :: xds.registry.connections[n] in accepts
      modifies xds
      modifies if xds != null then {xds.versions, xds.registry} else {}
      ensures Valid()
      ensures r.Ok? <==> XdsBuilds(old(View()), cfg)
      ensures View() == old(View()).(plane := PlaneThen(old(View()), cfg))
    {
      r := Ok(());
      if xds != null {
        var e := xds.RebuildFromConfig(cfg, accepts);
        if e.Err? {
          r := Err(XdsFailed(e.error));
        }
      }
    }

    method ApplyConfigReload(raw: string, cfg: GatewayConfig, now: int, disk: Disk, accepts: map<nat, nat>)
      returns (r: Result<(), ReloadError>)
      requires Valid()
      requires xds != null ==> forall n | n in xds.registry.connections :: xds.registry.connections[n] in accepts
      modifies this, engine, xds
      modifies if xds != null then {xds.versions, xds.registry} else {}
      ensures Valid()
      ensures View() == Applied(x, old(View()), raw, cfg, now, disk)
      ensures r.Ok? <==> lastOk
    {
      var plugins := ReloadPlugins(cfg, disk);
      if plugins.Err? {
        r := ReloadFailed(now, plugins.error);
        return;
      }
      var rebuilt := RebuildXds(cfg, accepts);
      if rebuilt.Err? {
        r := ReloadFailed(now, rebuilt.error);
        return;
      }
      Commit(raw, cfg, now);
      r := Ok(());
    }

    method ConfigReload(a: Attempt, accepts: map<nat, nat>) returns (r: Result<(), ReloadError>)
      requires Valid()
      requires xds != null ==> forall n | n in xds.registry.connections :: xds.registry.connections[n] in accepts
      modifies this, engine, xds
      modifies if xds != null then {xds.versions, xds.registry} else {}
      ensures Valid()
      ensures View() == Reloaded(x, old(View()), a)
      ensures r.Ok? <==> lastOk
    {
      if a.source.Unreadable? {
        r := ReloadFailed(a.now, ReadFailed);
        return;
      }
      if a.source.Malformed? {
        r := ReloadFailed(a.now, ParseFailed);
        return;
      }
      var checked := Validate(a.source.cfg, x.urlOk);
      if checked.Err? {
        r := ReloadFailed(a.now, Invalid(checked.error));
        return;
      }
      r := ApplyConfigReload(a.source.raw, a.source.cfg, a.now, a.disk, accepts);
    }
  }

  // All or nothing

  /** The runtime is the one the plugin directory gives for this configuration. */
  ghost predicate ChainsFrom(x: Fixed, rt: Runtime, cfg: GatewayConfig, disk: Disk) {
    RuntimeFor(cfg, rt.generation, disk, x.conforms) == Ok(rt)
  }

  /** All three stores were built from the active configuration, the chains with the plugins of `disk`. */
  ghost predicate InStep(x: Fixed, g: Gateway, disk: Disk) {
    && Acceptable(g.config, x.urlOk)
    && (g.engine.Some? ==> ChainsFrom(x, g.engine.value.runtime, g.config, disk))
    && (g.plane.Some? ==> Build(g.config, g.plane.value.snapshot.version) == Ok(g.plane.value.snapshot))
  }

  ghost function AfterReloads(x: Fixed, g: Gateway, attempts: seq<Attempt>): Gateway {
    if attempts == [] then g
    else Reloaded(x, AfterReloads(x, g, attempts[..|attempts| - 1]), attempts[|attempts| - 1])
  }

  lemma RuntimeGeneration(cfg: GatewayConfig, generation: nat, disk: Disk, conforms: Conforms)
    requires RuntimeFor(cfg, generation, disk, conforms).Ok?
    ensures RuntimeFor(cfg, generation, disk, conforms).value.generation == generation
  {
  }

  lemma BuildIff(cfg: GatewayConfig, version: nat)
    ensures Build(cfg, version).Ok? <==> IsHostPort(cfg.gateway.listenAddress) && EndpointsOk(cfg.services)
    ensures Build(cfg, version).Ok? ==> Build(cfg, version).value.version == version
  {
    CompilesIff(cfg);
  }

  /** A validated configuration cannot make the xDS step fail. */
  lemma ValidatedBuilds(x: Fixed, g: Gateway, cfg: GatewayConfig)
    requires Acceptable(cfg, x.urlOk)
    ensures XdsBuilds(g, cfg)
  {
    AcceptedEndpoints(cfg, x.urlOk);
    if g.plane.Some? {
      BuildIff(cfg, g.plane.value.version + 1);
    }
  }

  /** A state of the gateway right after start up, with an engine and, if enabled, an xDS control plane. */
  function Started(x: Fixed, raw: string, cfg: GatewayConfig, now: int, runtime: Runtime,
                   snapshot: Option<Snapshot>): Gateway {
    Gateway(cfg, x.digest(raw), now, true, Some(Engine(runtime, runtime.generation + 1)),
            if snapshot.Some? then Some(Plane(snapshot.value, 1)) else None)
  }

  /** Start up from a validated file leaves the three stores in step. */
  lemma StartIsInStep(x: Fixed, raw: string, cfg: GatewayConfig, now: int, disk: Disk)
    requires Acceptable(cfg, x.urlOk) && RuntimeFor(cfg, 1, disk, x.conforms).Ok?
    ensures cfg.xds.enabled ==> Build(cfg, 1).Ok?
    ensures
      var snapshot := if cfg.xds.enabled then Some(Build(cfg, 1).value) else None;
      InStep(x, Started(x, raw, cfg, now, RuntimeFor(cfg, 1, disk, x.conforms).value, snapshot), disk)
  {
    RuntimeGeneration(cfg, 1, disk, x.conforms);
    AcceptedEndpoints(cfg, x.urlOk);
    BuildIff(cfg, 1);
  }

  /** The plugin directory the live chains come from: that of the last attempt that succeeded. */
  ghost function LastDisk(x: Fixed, g: Gateway, first: Disk, attempts: seq<Attempt>): Disk {
    if attempts == [] then first
    else
      var before, a := attempts[..|attempts| - 1], attempts[|attempts| - 1];
      if Reloaded(x, AfterReloads(x, g, before), a).lastOk then a.disk else LastDisk(x, g, first, before)
  }

  lemma ReloadKeepsStep(x: Fixed, g: Gateway, a: Attempt, disk: Disk)
    requires InStep(x, g, disk)
    ensures InStep(x, Reloaded(x, g, a), if Reloaded(x, g, a).lastOk then a.disk else disk)
  {
    if a.source.Parsed? && Acceptable(a.source.cfg, x.urlOk) {
      var cfg := a.source.cfg;
      ValidatedBuilds(x, g, cfg);
      if g.engine.Some? {
        var generation := g.engine.value.nextGeneration;
        if RuntimeFor(cfg, generation, a.disk, x.conforms).Ok? {
          RuntimeGeneration(cfg, generation, a.disk, x.conforms);
        }
      }
      if g.plane.Some? {
        BuildIff(cfg, g.plane.value.version + 1);
      }
    }
  }

  /**
   Serialised reloads are all or nothing: after every sequence of reload attempts, good
   or bad, the active config, the plugin chains and the xDS snapshot are built from one
   and the same validated configuration, the chains with the plugins that were on disk
   at the last attempt that succeeded.
   */
  lemma {:induction false} ReloadsStayInStep(x: Fixed, g: Gateway, first: Disk, attempts: seq<Attempt>)
    requires InStep(x, g, first)
    ensures InStep(x, AfterReloads(x, g, attempts), LastDisk(x, g, first, attempts))
  {
    if attempts != [] {
      var before, a := attempts[..|attempts| - 1], attempts[|attempts| - 1];
      ReloadsStayInStep(x, g, first, before);
      ReloadKeepsStep(x, AfterReloads(x, g, before), a, LastDisk(x, g, first, before));
    }
  }

  /**
   What one attempt does: it succeeds exactly when the file parses, the configuration is
   acceptable and the plugin runtime builds; otherwise the config, its digest, the
   runtime, the snapshot and the xDS version are as before.
   */
  lemma AttemptOutcome(x: Fixed, g: Gateway, a: Attempt)
    ensures
      var g' := Reloaded(x, g, a);
      var ok := a.source.Parsed? && Acceptable(a.source.cfg, x.urlOk) && PluginsBuild(x, g, a.source.cfg, a.disk);
      && g'.lastOk == ok
      && g'.lastReload == a.now
      && (ok ==> g'.config == a.source.cfg && g'.sha == x.digest(a.source.raw))
      && (!ok ==>
            && g'.config == g.config && g'.sha == g.sha && g'.plane == g.plane
            && g'.engine.Some? == g.engine.Some?
            && (g.engine.Some? ==> g'.engine.value.runtime == g.engine.value.runtime))
  {
    if a.source.Parsed? && Acceptable(a.source.cfg, x.urlOk) {
      ValidatedBuilds(x, g, a.source.cfg);
    }
  }

  /** Everything as before, apart from counters and the last-reload fields. */
  ghost predicate NothingChanged(g: Gateway, g': Gateway) {
    && g'.config == g.config && g'.sha == g.sha
    && (g.engine.Some? ==> g'.engine.Some? && g'.engine.value.runtime == g.engine.value.runtime)
    && (g.plane.Some? ==> g'.plane.Some? && g'.plane.value.snapshot == g.plane.value.snapshot)
  }

  /** Every store built from `cfg`. */
  ghost predicate AllChanged(x: Fixed, cfg: GatewayConfig, disk: Disk, g': Gateway) {
    && g'.config == cfg
    && (g'.engine.Some? ==> ChainsFrom(x, g'.engine.value.runtime, cfg, disk))
    && (g'.plane.Some? ==> Build(cfg, g'.plane.value.snapshot.version) == Ok(g'.plane.value.snapshot))
  }

  /**
   Without validation the apply step is all or nothing exactly when it is not the case
   that the plugins build while an address the xDS back end must parse is malformed:
   then the new chains are live under the old configuration. A reload request always
   validates first, so it never gets there.
   */
  lemma ApplyIsAtomicIff(x: Fixed, g: Gateway, raw: string, cfg: GatewayConfig, now: int, disk: Disk)
    requires g.engine.Some? ==> g.engine.value.runtime.generation < g.engine.value.nextGeneration
    ensures
      var g' := Applied(x, g, raw, cfg, now, disk);
      NothingChanged(g, g') || AllChanged(x, cfg, disk, g')
      <==> !(g.engine.Some? && g.plane.Some? && PluginsBuild(x, g, cfg, disk)
             && !(IsHostPort(cfg.gateway.listenAddress) && EndpointsOk(cfg.services)))
  {
    if g.engine.Some? {
      var generation := g.engine.value.nextGeneration;
      var built := RuntimeFor(cfg, generation, disk, x.conforms);
      if built.Ok? {
        RuntimeGeneration(cfg, generation, disk, x.conforms);
      }
    }
    if g.plane.Some? {
      BuildIff(cfg, g.plane.value.version + 1);
      BuildIff(cfg, g.plane.value.snapshot.version);
    }
  }
}

/** Reloads that overlap: each goes through the stores on its own, in any interleaving with the others. */
module ReloadRuns {
  import opened Wrappers
  import opened Config
  import opened Validation
  import opened PluginChain
  import opened XdsSnapshots
  import opened Reload

  /** How far a reload has come: each step is one atomic access to a store or a counter. */
  datatype Phase =
    | Accepted
    | Taken(generation: nat)
    | Installed
    | Numbered(version: nat)
    | Published
    | Committed

  /** What a reload brings: the configuration it read and the plugin directory it finds. */
  datatype Input = Input(cfg: GatewayConfig, disk: Disk)

  datatype Work = Work(input: Input, phase: Phase)

  /** `snapshot` is absent when the gateway was started without an xDS control plane. */
  datatype System = System(
    config: GatewayConfig,
    runtime: Runtime,
    nextGeneration: nat,
    snapshot: Option<Snapshot>,
    counter: nat,
    reloads: map<nat, Work>)

  /** Reload number 0 is start up. */
  datatype Step =
    | Accept(reload: nat, input: Input)
    | Take(reload: nat)
    | Install(reload: nat)
    | Number(reload: nat)
    | Publish(reload: nat)
    | Commit(reload: nat)

  ghost function Chains(x: Fixed, input: Input, generation: nat): Result<Runtime, PluginError> {
    RuntimeFor(input.cfg, generation, input.disk, x.conforms)
  }

  /** A reload whose chains cannot be built takes no further step. */
  ghost predicate Enabled(x: Fixed, s: System, step: Step) {
    if step.Accept? then step.reload !in s.reloads && Acceptable(step.input.cfg, x.urlOk)
    else
      && step.reload in s.reloads
      && var w := s.reloads[step.reload];
         match step
         case Take(_) => w.phase.Accepted?
         case Install(_) => w.phase.Taken? && Chains(x, w.input, w.phase.generation).Ok?
         case Number(_) => w.phase.Installed? && s.snapshot.Some?
         case Publish(_) => w.phase.Numbered? && Build(w.input.cfg, w.phase.version).Ok?
         case Commit(_) => w.phase.Published? || (w.phase.Installed? && s.snapshot.None?)
  }

  function Moved(s: System, j: nat, phase: Phase): map<nat, Work>
    requires j in s.reloads
  {
    s.reloads[j := s.reloads[j].(phase := phase)]
  }

  ghost function Next(x: Fixed, s: System, step: Step): System
    requires Enabled(x, s, step)
  {
    match step
    case Accept(j, input) => s.(reloads := s.reloads[j := Work(input, Accepted)])
    case Take(j) => s.(nextGeneration := s.nextGeneration + 1, reloads := Moved(s, j, Taken(s.nextGeneration)))
    case Install(j) =>
      var w := s.reloads[j];
      s.(runtime := Chains(x, w.input, w.phase.generation).value, reloads := Moved(s, j, Installed))
    case Number(j) => s.(counter := s.counter + 1, reloads := Moved(s, j, Numbered(s.counter + 1)))
    case Publish(j) =>
      var w := s.reloads[j];
      s.(snapshot := Some(Build(w.input.cfg, w.phase.version).value), reloads := Moved(s, j, Published))
    case Commit(j) => s.(config := s.reloads[j].input.cfg, reloads := Moved(s, j, Committed))
  }

  ghost predicate CanStart(x: Fixed, first: Input) {
    Acceptable(first.cfg, x.urlOk) && Chains(x, first, 1).Ok?
  }

  ghost function Start(x: Fixed, first: Input): System
    requires CanStart(x, first)
  {
    StartIsInStep(x, "", first.cfg, 0, first.disk);
    System(first.cfg, Chains(x, first, 1).value, 2,
           if first.cfg.xds.enabled then Some(Build(first.cfg, 1).value) else None, 1,
           map[0 := Work(first, Committed)])
  }

  ghost function After(x: Fixed, first: Input, steps: seq<Step>): Option<System>
    requires CanStart(x, first)
  {
    if steps == [] then Some(Start(x, first))
    else
      match After(x, first, steps[..|steps| - 1])
      case None => None
      case Some(s) => if Enabled(x, s, steps[|steps| - 1]) then Some(Next(x, s, steps[|steps| - 1])) else None
  }

  // Who came last

  /** What reload `j` brought. */
  function Brought(first: Input, steps: seq<Step>, j: nat): Input {
    if steps == [] then first
    else
      var last := steps[|steps| - 1];
      if last.Accept? && last.reload == j then last.input else Brought(first, steps[..|steps| - 1], j)
  }

  function LastInstall(steps: seq<Step>): nat {
    if steps == [] then 0
    else if steps[|steps| - 1].Install? then steps[|steps| - 1].reload
    else LastInstall(steps[..|steps| - 1])
  }

  function LastPublish(steps: seq<Step>): nat {
    if steps == [] then 0
    else if steps[|steps| - 1].Publish? then steps[|steps| - 1].reload
    else LastPublish(steps[..|steps| - 1])
  }

  function LastCommit(steps: seq<Step>): nat {
    if steps == [] then 0
    else if steps[|steps| - 1].Commit? then steps[|steps| - 1].reload
    else LastCommit(steps[..|steps| - 1])
  }

  /** Chains built from `c`, the snapshot from `p`, and `a` active. */
  ghost predicate Holds(x: Fixed, s: System, c: Input, p: Input, a: Input) {
    && Chains(x, c, s.runtime.generation) == Ok(s.runtime)
    && (s.snapshot.Some? ==> Build(p.cfg, s.snapshot.value.version) == Ok(s.snapshot.value))
    && s.config == a.cfg
  }

  /** The reloads of the system are those of the steps, all validated. */
  ghost predicate Remembers(x: Fixed, s: System, first: Input, steps: seq<Step>) {
    && 0 in s.reloads
    && forall j | j in s.reloads :: && s.reloads[j].input == Brought(first, steps, j)
                                    && Acceptable(s.reloads[j].input.cfg, x.urlOk)
  }

  /** One step: the store it writes holds what its reload brought, the others are as before. */
  lemma StepHolds(x: Fixed, s: System, step: Step, c: Input, p: Input, a: Input)
    requires Enabled(x, s, step) && Holds(x, s, c, p, a)
    ensures
      var own := if step.Accept? then step.input else s.reloads[step.reload].input;
      Holds(x, Next(x, s, step), if step.Install? then own else c, if step.Publish? then own else p,
            if step.Commit? then own else a)
  {
    if step.Install? {
      var w := s.reloads[step.reload];
      RuntimeGeneration(w.input.cfg, w.phase.generation, w.input.disk, x.conforms);
    } else if step.Publish? {
      var w := s.reloads[step.reload];
      BuildIff(w.input.cfg, w.phase.version);
    }
  }

  lemma StepRemembers(x: Fixed, s: System, first: Input, before: seq<Step>, step: Step)
    requires Remembers(x, s, first, before) && Enabled(x, s, step)
    ensures Remembers(x, Next(x, s, step), first, before + [step])
    ensures s.reloads.Keys + {step.reload} == Next(x, s, step).reloads.Keys
  {
    assert (before + [step])[..|before|] == before;
  }

  lemma {:induction false} ReloadsAreRemembered(x: Fixed, first: Input, steps: seq<Step>)
    requires CanStart(x, first) && After(x, first, steps).Some?
    ensures Remembers(x, After(x, first, steps).value, first, steps)
  {
    if steps != [] {
      var before, step := steps[..|steps| - 1], steps[|steps| - 1];
      ReloadsAreRemembered(x, first, before);
      StepRemembers(x, After(x, first, before).value, first, before, step);
      assert before + [step] == steps;
    }
  }

  /** The last to write each store are reloads of the system. */
  lemma {:induction false} LastAreReloads(x: Fixed, first: Input, steps: seq<Step>)
    requires CanStart(x, first) && After(x, first, steps).Some?
    ensures {LastInstall(steps), LastPublish(steps), LastCommit(steps)} <= After(x, first, steps).value.reloads.Keys
  {
    if steps != [] {
      var before, step := steps[..|steps| - 1], steps[|steps| - 1];
      LastAreReloads(x, first, before);
      ReloadsAreRemembered(x, first, before);
      StepRemembers(x, After(x, first, before).value, first, before, step);
    }
  }

  /** Reloads once accepted keep what they brought. */
  lemma BroughtIsKept(x: Fixed, first: Input, steps: seq<Step>, j: nat)
    requires CanStart(x, first) && After(x, first, steps).Some? && steps != []
    requires j in After(x, first, steps[..|steps| - 1]).value.reloads
    ensures Brought(first, steps, j) == Brought(first, steps[..|steps| - 1], j)
  {
  }

  /**
   Overlapping reloads: in every interleaving each of the three stores holds what the
   last reload to write it brought, and each of those configurations was validated.
   */
  lemma {:induction false} StoresHoldTheLast(x: Fixed, first: Input, steps: seq<Step>)
    requires CanStart(x, first) && After(x, first, steps).Some?
    ensures
      var c, p, a := LastInstall(steps), LastPublish(steps), LastCommit(steps);
      && Holds(x, After(x, first, steps).value,
               Brought(first, steps, c), Brought(first, steps, p), Brought(first, steps, a))
      && Acceptable(Brought(first, steps, c).cfg, x.urlOk)
      && Acceptable(Brought(first, steps, p).cfg, x.urlOk)
      && Acceptable(Brought(first, steps, a).cfg, x.urlOk)
  {
    ReloadsAreRemembered(x, first, steps);
    LastAreReloads(x, first, steps);
    if steps == [] {
      StartIsInStep(x, "", first.cfg, 0, first.disk);
    } else {
      var before, step := steps[..|steps| - 1], steps[|steps| - 1];
      var s := After(x, first, before).value;
      var c, p, a := LastInstall(before), LastPublish(before), LastCommit(before);
      StoresHoldTheLast(x, first, before);
      ReloadsAreRemembered(x, first, before);
      LastAreReloads(x, first, before);
      BroughtIsKept(x, first, steps, c);
      BroughtIsKept(x, first, steps, p);
      BroughtIsKept(x, first, steps, a);
      StepHolds(x, s, step, Brought(first, before, c), Brought(first, before, p), Brought(first, before, a));
    }
  }

  /** Chains and snapshot are those of the active configuration, with the plugins of `disk`. */
  ghost predicate StoresInStep(x: Fixed, s: System, disk: Disk) {
    && Chains(x, Input(s.config, disk), s.runtime.generation) == Ok(s.runtime)
    && (s.snapshot.Some? ==> Build(s.config, s.snapshot.value.version) == Ok(s.snapshot.value))
  }

  /** Two inputs give the same chains. */
  ghost predicate SameChains(x: Fixed, i: Input, k: Input, generation: nat) {
    Chains(x, i, generation) == Chains(x, k, generation)
  }

  /**
   When overlapping reloads leave the stores in step, exactly: when the configuration
   committed last gives the chains of the one installed last, with the plugins found
   then, and the snapshot of the one published last. In particular they do when one and
   the same reload was the last to write each store.
   */
  lemma InStepIff(x: Fixed, first: Input, steps: seq<Step>)
    requires CanStart(x, first) && After(x, first, steps).Some?
    ensures
      var s := After(x, first, steps).value;
      var c, p := Brought(first, steps, LastInstall(steps)), Brought(first, steps, LastPublish(steps));
      var a := Brought(first, steps, LastCommit(steps));
      && (StoresInStep(x, s, c.disk) <==>
            && SameChains(x, Input(a.cfg, c.disk), c, s.runtime.generation)
            && (s.snapshot.Some? ==> Build(a.cfg, s.snapshot.value.version) == Build(p.cfg, s.snapshot.value.version)))
      && (a.cfg == c.cfg == p.cfg ==> StoresInStep(x, s, c.disk))
  {
    StoresHoldTheLast(x, first, steps);
  }

  // An interleaving that mixes

  lemma OneMore(x: Fixed, first: Input, steps: seq<Step>, step: Step)
    requires CanStart(x, first) && After(x, first, steps).Some?
    requires Enabled(x, After(x, first, steps).value, step)
    ensures After(x, first, steps + [step]) == Some(Next(x, After(x, first, steps).value, step))
  {
    assert (steps + [step])[..|steps|] == steps;
  }

  /** An accepted reload installs its chains, undisturbed. */
  lemma InstallsChains(x: Fixed, first: Input, steps: seq<Step>, j: nat) returns (more: seq<Step>)
    requires CanStart(x, first) && After(x, first, steps).Some?
    requires
      var s := After(x, first, steps).value;
      j in s.reloads && s.reloads[j].phase.Accepted? && Chains(x, s.reloads[j].input, s.nextGeneration).Ok?
    ensures
      var s := After(x, first, steps).value;
      After(x, first, more)
      == Some(s.(runtime := Chains(x, s.reloads[j].input, s.nextGeneration).value,
                 nextGeneration := s.nextGeneration + 1, reloads := Moved(s, j, Installed)))
  {
    var s := After(x, first, steps).value;
    OneMore(x, first, steps, Take(j));
    var taken := steps + [Take(j)];
    OneMore(x, first, taken, Install(j));
    more := taken + [Install(j)];
    assert After(x, first, more).value.reloads == Moved(s, j, Installed);
  }

  /** After that it publishes its snapshot, undisturbed. */
  lemma PublishesSnapshot(x: Fixed, first: Input, steps: seq<Step>, j: nat) returns (more: seq<Step>)
    requires CanStart(x, first) && After(x, first, steps).Some?
    requires
      var s := After(x, first, steps).value;
      && j in s.reloads && s.reloads[j].phase.Installed? && s.snapshot.Some?
      && Build(s.reloads[j].input.cfg, s.counter + 1).Ok?
    ensures
      var s := After(x, first, steps).value;
      After(x, first, more)
      == Some(s.(snapshot := Some(Build(s.reloads[j].input.cfg, s.counter + 1).value), counter := s.counter + 1,
                 reloads := Moved(s, j, Published)))
  {
    var s := After(x, first, steps).value;
    OneMore(x, first, steps, Number(j));
    var numbered := steps + [Number(j)];
    OneMore(x, first, numbered, Publish(j));
    more := numbered + [Publish(j)];
    assert After(x, first, more).value.reloads == Moved(s, j, Published);
  }

  /** A reload that has written chains and snapshot, in a system as it was before. */
  ghost predicate Went(x: Fixed, s: System, t: System, j: nat) {
    && j in s.reloads && s.snapshot.Some?
    && var input := s.reloads[j].input;
       && Chains(x, input, s.nextGeneration) == Ok(t.runtime)
       && t.snapshot.Some? && Build(input.cfg, s.counter + 1) == Ok(t.snapshot.value)
       && t == System(s.config, t.runtime, s.nextGeneration + 1, t.snapshot, s.counter + 1, Moved(s, j, Published))
  }

  /** An accepted reload goes all the way to its commit, undisturbed. */
  lemma GoesThrough(x: Fixed, first: Input, steps: seq<Step>, j: nat) returns (more: seq<Step>)
    requires CanStart(x, first) && After(x, first, steps).Some?
    requires
      var s := After(x, first, steps).value;
      && j in s.reloads && s.reloads[j].phase.Accepted? && s.snapshot.Some?
      && Chains(x, s.reloads[j].input, s.nextGeneration).Ok?
    ensures After(x, first, more).Some?
    ensures Went(x, After(x, first, steps).value, After(x, first, more).value, j)
  {
    var s := After(x, first, steps).value;
    ReloadsAreRemembered(x, first, steps);
    ValidatedBuilds(x, Gateway(s.config, "", 0, true, None, Some(Plane(s.snapshot.value, s.counter))),
                    s.reloads[j].input.cfg);
    var installed := InstallsChains(x, first, steps, j);
    more := PublishesSnapshot(x, first, installed, j);
    assert After(x, first, more).value.reloads == Moved(s, j, Published);
  }

  /**
   Nothing orders the commits: for any two validated configurations whose chains can be
   built there is an interleaving of two reloads after which one is active while the
   chains and the snapshot are those of the other.
   */
  lemma ReloadsCanMix(x: Fixed, first: Input, one: Input, two: Input) returns (steps: seq<Step>)
    requires CanStart(x, first) && first.cfg.xds.enabled
    requires Acceptable(one.cfg, x.urlOk) && Acceptable(two.cfg, x.urlOk)
    requires Chains(x, one, 2).Ok? && Chains(x, two, 3).Ok?
    ensures After(x, first, steps).Some?
    ensures
      var s := After(x, first, steps).value;
      && s.config == one.cfg && Chains(x, two, 3) == Ok(s.runtime)
      && s.snapshot.Some? && Build(two.cfg, 3) == Ok(s.snapshot.value)
      && forall j | j in s.reloads :: s.reloads[j].phase.Committed?
  {
    OneMore(x, first, [], Accept(1, one));
    var half := [] + [Accept(1, one)];
    OneMore(x, first, half, Accept(2, two));
    var both := half + [Accept(2, two)];
    var oneDone := GoesThrough(x, first, both, 1);
    var bothDone := GoesThrough(x, first, oneDone, 2);
    OneMore(x, first, bothDone, Commit(2));
    OneMore(x, first, bothDone + [Commit(2)], Commit(1));
    steps := bothDone + [Commit(2)] + [Commit(1)];
  }
}
