/** xDS snapshots and the responses made from them. */
module XdsSnapshots {
  import opened Wrappers
  import opened Text
  import opened Config
  import opened Endpoints
  import opened Compiler

  /** Resource type URLs; `Other` is any text the server does not serve, the empty one included. */
  datatype TypeUrl = ClusterType | EndpointType | ListenerType | RouteType | Other(text: string)

  const TYPES_IN_ORDER := [ClusterType, EndpointType, ListenerType, RouteType]

  datatype Snapshot = Snapshot(version: nat, nonce: string, resources: map<TypeUrl, seq<Resource>>)

  datatype Response = Response(versionInfo: string, resources: seq<Resource>, typeUrl: TypeUrl, nonce: string)

  function Build(cfg: GatewayConfig, version: nat): Result<Snapshot, EndpointError> {
    var clusters :- ClusterResources(cfg);
    var endpoints :- EndpointResources(cfg);
    var listeners :- ListenerResources(cfg);
    Ok(Snapshot(version, "snapshot-" + Decimal(version),
                map[ClusterType := clusters, EndpointType := endpoints, ListenerType := listeners,
                    RouteType := RouteResources(cfg)]))
  }

  function ResponseFor(s: Snapshot, t: TypeUrl): Option<Response> {
    if t in s.resources then Some(Response(Decimal(s.version), s.resources[t], t, s.nonce)) else None
  }

  function Present(s: Snapshot, types: seq<TypeUrl>): seq<Response> {
    if types == [] then []
    else
      var r := ResponseFor(s, types[0]);
      (if r.Some? then [r.value] else []) + Present(s, types[1..])
  }

  function OrderedResponses(s: Snapshot): seq<Response> {
    Present(s, TYPES_IN_ORDER)
  }

  /** What a stream answers to a request for `t`: that type, or everything if the type is empty or unknown. */
  function Replies(s: Snapshot, t: TypeUrl): seq<Response> {
    var first := if t == Other("") then OrderedResponses(s)
                 else if ResponseFor(s, t).Some? then [ResponseFor(s, t).value] else [];
    if first == [] then Present(s, TYPES_IN_ORDER) else first
  }

  lemma PresentStep(s: Snapshot, t: TypeUrl, types: seq<TypeUrl>)
    requires t in s.resources
    ensures Present(s, [t] + types) == [ResponseFor(s, t).value] + Present(s, types)
  {
    assert ([t] + types)[1..] == types;
  }

  lemma PresentAll(s: Snapshot)
    requires ClusterType in s.resources && EndpointType in s.resources && ListenerType in s.resources
              && RouteType in s.resources
    ensures OrderedResponses(s) == [ResponseFor(s, ClusterType).value, ResponseFor(s, EndpointType).value,
                                    ResponseFor(s, ListenerType).value, ResponseFor(s, RouteType).value]
  {
    PresentStep(s, RouteType, []);
    PresentStep(s, ListenerType, [RouteType]);
    PresentStep(s, EndpointType, [ListenerType, RouteType]);
    PresentStep(s, ClusterType, [EndpointType, ListenerType, RouteType]);
    assert [RouteType] + [] == [RouteType];
    assert [ListenerType] + [RouteType] == [ListenerType, RouteType];
    assert [EndpointType] + [ListenerType, RouteType] == [EndpointType, ListenerType, RouteType];
    assert [ClusterType] + [EndpointType, ListenerType, RouteType] == TYPES_IN_ORDER;
  }

  /**
   A full push lists clusters, endpoints, listeners, routes, in that order, each once and
   all of one version; a request for one type gets that type alone, any other request a full push.
   */
  lemma PushOrder(cfg: GatewayConfig, version: nat, t: TypeUrl)
    requires Build(cfg, version).Ok?
    ensures
      var s := Build(cfg, version).value;
      var push := OrderedResponses(s);
      && |push| == 4
      && push[0].typeUrl == ClusterType && push[1].typeUrl == EndpointType
      && push[2].typeUrl == ListenerType && push[3].typeUrl == RouteType
      && (forall i | 0 <= i < 4 :: push[i].versionInfo == Decimal(version) && push[i].nonce == s.nonce
                                   && ResponseFor(s, push[i].typeUrl) == Some(push[i]))
      && Replies(s, t) == if t.Other? then push else [ResponseFor(s, t).value]
  {
    PresentAll(Build(cfg, version).value);
  }

  lemma {:induction false} PresentAre(s: Snapshot, types: seq<TypeUrl>, r: Response)
    requires r in Present(s, types)
    ensures ResponseFor(s, r.typeUrl) == Some(r)
  {
    var first := ResponseFor(s, types[0]);
    if first != Some(r) {
      assert r in Present(s, types[1..]);
      PresentAre(s, types[1..], r);
    }
  }

  /** Every response comes out of the snapshot it is made from. */
  lemma RepliesAre(s: Snapshot, t: TypeUrl, r: Response)
    requires r in Replies(s, t) || r in OrderedResponses(s)
    ensures ResponseFor(s, r.typeUrl) == Some(r)
  {
    if r in Present(s, TYPES_IN_ORDER) {
      PresentAre(s, TYPES_IN_ORDER, r);
    }
  }
}

/** The control plane's long-lived state, updated in place. */
module XdsServer {
  import opened Wrappers
  import opened Config
  import opened Endpoints
  import opened XdsSnapshots

  class VersionCounter {
    var next: nat

    constructor (initial: nat)
      ensures next == initial
    {
      next := initial;
    }

    method Increment() returns (v: nat)
      modifies this
      ensures v == old(next) + 1 && next == v
    {
      next := next + 1;
      v := next;
    }
  }

  /** What a channel that takes `accepts` sends receives. */
  function Taken(responses: seq<Response>, accepts: nat): seq<Response> {
    if accepts < |responses| then responses[..accepts] else responses
  }

  /** The channels once those in `done` have been sent the responses. */
  ghost function Delivered(channels: map<nat, seq<Response>>, done: set<nat>, responses: seq<Response>,
                           accepts: map<nat, nat>): map<nat, seq<Response>>
    requires done <= accepts.Keys
  {
    map c | c in channels :: if c in done then channels[c] + Taken(responses, accepts[c]) else channels[c]
  }

  /** The peers whose channel took all `count` sends. */
  ghost function Surviving(connections: map<string, nat>, count: nat, accepts: map<nat, nat>): map<string, nat>
    requires connections.Values <= accepts.Keys
  {
    map n | n in connections && count <= accepts[connections[n]] :: connections[n]
  }

  /** Active streams by node id, and what has been put into each stream's channel. */
  class XdsRegistry {
    var connections: map<string, nat>
    var channels: map<nat, seq<Response>>

    /** Every connection has a channel of its own. */
    ghost predicate Valid()
      reads this
    {
      && (forall n | n in connections :: connections[n] in channels)
      && (forall m, n | m in connections && n in connections && m != n :: connections[m] != connections[n])
    }

    constructor ()
      ensures Valid() && connections == map[] && channels == map[]
    {
      connections, channels := map[], map[];
    }

    method Register(node: string, channel: nat)
      requires Valid() && channel !in channels
      modifies this
      ensures Valid()
      ensures connections == old(connections)[node := channel]
      ensures channels == old(channels)[channel := []]
    {
      connections := connections[node := channel];
      channels := channels[channel := []];
    }

    method Remove(node: string)
      requires Valid()
      modifies this
      ensures Valid()
      ensures connections == old(connections) - {node} && channels == old(channels)
    {
      connections := connections - {node};
    }

    /** Sends responses to one channel until it turns out closed. */
    method SendTo(c: nat, responses: seq<Response>, accepts: nat) returns (alive: bool)
      requires c in channels
      modifies this`channels
      ensures alive <==> |responses| <= accepts
      ensures channels == old(channels)[c := old(channels)[c] + Taken(responses, accepts)]
    {
      var sent := 0;
      ghost var before := channels[c];
      while sent < |responses| && sent < accepts
        invariant 0 <= sent <= |responses| && sent <= accepts
        invariant channels.Keys == old(channels).Keys
        invariant channels[c] == before + responses[..sent]
        invariant forall d | d in channels && d != c :: channels[d] == old(channels)[d]
      {
        channels := channels[c := channels[c] + [responses[sent]]];
        sent := sent + 1;
        assert responses[..sent] == responses[..sent - 1] + [responses[sent - 1]];
      }
      assert responses[..sent] == Taken(responses, accepts);
      alive := sent == |responses|;
    }

    /** Sends to every connection and reports the peers that did not take everything. */
    method SendToAll(responses: seq<Response>, accepts: map<nat, nat>) returns (dead: set<string>)
      requires Valid() && forall n | n in connections :: connections[n] in accepts
      modifies this`channels
      ensures dead == set n | n in connections && accepts[connections[n]] < |responses|
      ensures channels == Delivered(old(channels), connections.Values, responses, accepts)
    {
      var rest := connections.Keys;
      dead := {};
      ghost var done: set<nat> := {};
      while rest != {}
        invariant rest <= connections.Keys
        invariant dead == set n | n in connections && n !in rest && accepts[connections[n]] < |responses|
        invariant forall n | n in connections :: connections[n] in done <==> n !in rest
        invariant done <= connections.Values
        invariant channels == Delivered(old(channels), done, responses, accepts)
        decreases rest
      {
        var n :| n in rest;
        var alive := SendTo(connections[n], responses, accepts[connections[n]]);
        if !alive {
          dead := dead + {n};
        }
        rest := rest - {n};
        done := done + {connections[n]};
      }
      assert done == connections.Values;
    }

    /**
     Sends the responses, in order, to every connection; `accepts` says how many sends
     the peer's channel takes before it turns out closed. Peers that did not take all
     of them are dropped, the others stay, and every peer has received a prefix.
     */
    method Broadcast(responses: seq<Response>, accepts: map<nat, nat>)
      requires Valid() && forall n | n in connections :: connections[n] in accepts
      modifies this
      ensures Valid()
      ensures connections == Surviving(old(connections), |responses|, accepts)
      ensures channels == Delivered(old(channels), old(connections).Values, responses, accepts)
    {
      var dead := SendToAll(responses, accepts);
      connections := connections - dead;
    }
  }

  class XdsControlPlane {
    var snapshot: Snapshot
    const versions: VersionCounter
    const registry: XdsRegistry

    constructor (initial: Snapshot, versions: VersionCounter, registry: XdsRegistry)
      ensures snapshot == initial && this.versions == versions && this.registry == registry
    {
      this.snapshot := initial;
      this.versions := versions;
      this.registry := registry;
    }

    /** Start up: the first snapshot has version 1, and nobody is connected. */
    static method New(cfg: GatewayConfig) returns (r: Result<XdsControlPlane, EndpointError>)
      ensures r.Ok? <==> Build(cfg, 1).Ok?
      ensures r.Err? ==> r.error == Build(cfg, 1).error
      ensures r.Ok? ==>
                && fresh(r.value) && fresh(r.value.versions) && fresh(r.value.registry)
                && r.value.snapshot == Build(cfg, 1).value && r.value.versions.next == 1
                && r.value.registry.Valid() && r.value.registry.connections == map[]
                    && r.value.registry.channels == map[]
    {
      var built := Build(cfg, 1);
      if built.Err? {
        return Err(built.error);
      }
      var versions := new VersionCounter(1);
      var registry := new XdsRegistry();
      var plane := new XdsControlPlane(built.value, versions, registry);
      r := Ok(plane);
    }

    /**
     Publishes the new snapshot and puts a full push on every connected stream, as far as
     the stream takes it; a rebuild that fails burns a version and changes nothing else.
     */
    method RebuildFromConfig(cfg: GatewayConfig, accepts: map<nat, nat>) returns (r: Result<(), EndpointError>)
      requires registry.Valid() && forall n | n in registry.connections :: registry.connections[n] in accepts
      modifies this, versions, registry
      ensures registry.Valid()
      ensures versions.next == old(versions.next) + 1
      ensures
        var built := Build(cfg, old(versions.next) + 1);
        && (built.Ok? ==>
              var push := OrderedResponses(built.value);
              && r == Ok(()) && snapshot == built.value
              && registry.connections == Surviving(old(registry.connections), |push|, accepts)
              && registry.channels
                  == Delivered(old(registry.channels), old(registry.connections).Values, push, accepts))
        && (built.Err? ==> r == Err(built.error) && snapshot == old(snapshot)
                           && registry.connections == old(registry.connections)
                               && registry.channels == old(registry.channels))
    {
      var version := versions.Increment();
      var built := Build(cfg, version);
      if built.Err? {
        return Err(built.error);
      }
      snapshot := built.value;
      registry.Broadcast(OrderedResponses(snapshot), accepts);
      r := Ok(());
    }
  }
}

/** Rebuilds, broadcasts and stream replies in any interleaving. */
module XdsRuns {
  import opened Wrappers
  import opened Text
  import opened Config
  import opened XdsSnapshots

  /** Responses on their way to one stream, in order: a push of some version, or the replies to a request. */
  datatype Box = Box(stream: nat, push: Option<nat>, responses: seq<Response>, next: nat)

  /** A response put on a stream, out of one box. */
  datatype Sent = Sent(box: nat, response: Response)

  /** `configs` records which configuration each version was given to, `published` which versions became snapshots. */
  datatype System = System(
    counter: nat,
    configs: map<nat, GatewayConfig>,
    published: set<nat>,
    snapshot: Snapshot,
    boxes: seq<Box>,
    sent: seq<Sent>)

  datatype Step =
    | Begin(cfg: GatewayConfig)
    | Publish(version: nat)
    | Push(version: nat, stream: nat)
    | Ask(stream: nat, typeUrl: TypeUrl)
    | Send(box: nat)

  /** A rebuild that fails, or a peer that is gone, takes no further step. */
  ghost predicate Enabled(s: System, step: Step) {
    match step
    case Begin(cfg) => true
    case Publish(v) => v in s.configs && v !in s.published && Build(s.configs[v], v).Ok?
    case Push(v, k) => v in s.published && v in s.configs && Build(s.configs[v], v).Ok?
    case Ask(k, t) => true
    case Send(b) => b < |s.boxes| && s.boxes[b].next < |s.boxes[b].responses|
  }

  /** The next response of a box. */
  function Taken(boxes: seq<Box>, b: nat): Sent
    requires b < |boxes| && boxes[b].next < |boxes[b].responses|
  {
    Sent(b, boxes[b].responses[boxes[b].next])
  }

  function Advanced(boxes: seq<Box>, b: nat): seq<Box>
    requires b < |boxes|
  {
    boxes[b := boxes[b].(next := boxes[b].next + 1)]
  }

  ghost function Next(s: System, step: Step): System
    requires Enabled(s, step)
  {
    match step
    case Begin(cfg) => s.(counter := s.counter + 1, configs := s.configs[s.counter + 1 := cfg])
    case Publish(v) => s.(published := s.published + {v}, snapshot := Build(s.configs[v], v).value)
    case Push(v, k) => s.(boxes := s.boxes + [Box(k, Some(v), OrderedResponses(Build(s.configs[v], v).value), 0)])
    case Ask(k, t) => s.(boxes := s.boxes + [Box(k, None, Replies(s.snapshot, t), 0)])
    case Send(b) => s.(boxes := Advanced(s.boxes, b), sent := s.sent + [Taken(s.boxes, b)])
  }

  ghost function Start(cfg: GatewayConfig): System
    requires Build(cfg, 1).Ok?
  {
    System(1, map[1 := cfg], {1}, Build(cfg, 1).value, [], [])
  }

  ghost function After(cfg: GatewayConfig, steps: seq<Step>): Option<System>
    requires Build(cfg, 1).Ok?
  {
    if steps == [] then Some(Start(cfg))
    else
      match After(cfg, steps[..|steps| - 1])
      case None => None
      case Some(s) => if Enabled(s, steps[|steps| - 1]) then Some(Next(s, steps[|steps| - 1])) else None
  }

  /** What came out of one box, in the order it was put on the stream. */
  ghost function OutOf(sent: seq<Sent>, b: nat): seq<Response> {
    if sent == [] then []
    else
      var n := |sent| - 1;
      OutOf(sent[..n], b) + if sent[n].box == b then [sent[n].response] else []
  }

  /** The snapshot is the one its version's configuration builds. */
  ghost predicate Genuine(configs: map<nat, GatewayConfig>, s: Snapshot) {
    s.version in configs && Build(configs[s.version], s.version) == Ok(s)
  }

  /** A response taken from the snapshot of version `v`. */
  ghost predicate From(configs: map<nat, GatewayConfig>, v: nat, r: Response) {
    && v in configs
    && Build(configs[v], v).Ok?
    && ResponseFor(Build(configs[v], v).value, r.typeUrl) == Some(r)
  }

  ghost predicate HasVersion(configs: map<nat, GatewayConfig>, r: Response) {
    exists v :: From(configs, v, r)
  }

  ghost predicate BoxOk(configs: map<nat, GatewayConfig>, b: Box) {
    && b.next <= |b.responses|
    && (forall r | r in b.responses :: HasVersion(configs, r))
    && (b.push.Some? ==>
          && b.push.value in configs
          && Build(configs[b.push.value], b.push.value).Ok?
          && b.responses == OrderedResponses(Build(configs[b.push.value], b.push.value).value))
  }

  /** What is on the streams from box `b` is what the box has given out so far. */
  ghost predicate Emptied(sent: seq<Sent>, boxes: seq<Box>, b: nat) {
    b < |boxes| && boxes[b].next <= |boxes[b].responses| && OutOf(sent, b) == boxes[b].responses[..boxes[b].next]
  }

  ghost predicate BoxesOk(configs: map<nat, GatewayConfig>, boxes: seq<Box>) {
    forall b | 0 <= b < |boxes| :: BoxOk(configs, boxes[b])
  }

  ghost predicate AllEmptied(sent: seq<Sent>, boxes: seq<Box>) {
    && (forall b | 0 <= b < |boxes| :: Emptied(sent, boxes, b))
    && (forall i | 0 <= i < |sent| :: sent[i].box < |boxes|)
  }

  ghost predicate SentOk(configs: map<nat, GatewayConfig>, sent: seq<Sent>) {
    forall i | 0 <= i < |sent| :: HasVersion(configs, sent[i].response)
  }

  ghost predicate Inv(s: System) {
    && (forall v | v in s.configs :: v <= s.counter)
    && Genuine(s.configs, s.snapshot)
    && BoxesOk(s.configs, s.boxes)
    && AllEmptied(s.sent, s.boxes)
    && SentOk(s.configs, s.sent)
  }

  lemma VersionGrows(configs: map<nat, GatewayConfig>, v: nat, cfg: GatewayConfig, r: Response)
    requires v !in configs && HasVersion(configs, r)
    ensures HasVersion(configs[v := cfg], r)
  {
    var w :| From(configs, w, r);
    assert From(configs[v := cfg], w, r);
  }

  lemma BoxGrows(configs: map<nat, GatewayConfig>, v: nat, cfg: GatewayConfig, b: Box)
    requires v !in configs && BoxOk(configs, b)
    ensures BoxOk(configs[v := cfg], b)
  {
    forall r | r in b.responses
      ensures HasVersion(configs[v := cfg], r)
    {
      VersionGrows(configs, v, cfg, r);
    }
  }

  lemma GenuineGrows(configs: map<nat, GatewayConfig>, v: nat, cfg: GatewayConfig, snapshot: Snapshot)
    requires v !in configs && Genuine(configs, snapshot)
    ensures Genuine(configs[v := cfg], snapshot)
  {
  }

  lemma AllGrow(configs: map<nat, GatewayConfig>, v: nat, cfg: GatewayConfig, boxes: seq<Box>, sent: seq<Sent>)
    requires v !in configs && BoxesOk(configs, boxes) && SentOk(configs, sent)
    ensures BoxesOk(configs[v := cfg], boxes) && SentOk(configs[v := cfg], sent)
  {
    forall b | 0 <= b < |boxes|
      ensures BoxOk(configs[v := cfg], boxes[b])
    {
      BoxGrows(configs, v, cfg, boxes[b]);
    }
    forall i | 0 <= i < |sent|
      ensures HasVersion(configs[v := cfg], sent[i].response)
    {
      VersionGrows(configs, v, cfg, sent[i].response);
    }
  }

  lemma BeginKeeps(s: System, step: Step)
    requires Inv(s) && Enabled(s, step) && step.Begin?
    ensures Inv(Next(s, step))
  {
    var v := s.counter + 1;
    assert v !in s.configs;
    var more := s.configs[v := step.cfg];
    GenuineGrows(s.configs, v, step.cfg, s.snapshot);
    AllGrow(s.configs, v, step.cfg, s.boxes, s.sent);
    BegunInv(s, Next(s, step), more);
  }

  lemma BegunInv(s: System, s': System, more: map<nat, GatewayConfig>)
    requires s' == s.(counter := s'.counter, configs := more) && forall v | v in more :: v <= s'.counter
    requires Genuine(more, s.snapshot) && BoxesOk(more, s.boxes) && SentOk(more, s.sent) && AllEmptied(s.sent, s.boxes)
    ensures Inv(s')
  {
  }

  lemma BuildVersion(cfg: GatewayConfig, v: nat)
    requires Build(cfg, v).Ok?
    ensures Build(cfg, v).value.version == v
  {
  }

  lemma MadeFrom(configs: map<nat, GatewayConfig>, s: Snapshot, t: TypeUrl)
    requires Genuine(configs, s)
    ensures forall r | r in Replies(s, t) || r in OrderedResponses(s) :: HasVersion(configs, r)
  {
    forall r | r in Replies(s, t) || r in OrderedResponses(s)
      ensures HasVersion(configs, r)
    {
      RepliesAre(s, t, r);
      assert From(configs, s.version, r);
    }
  }

  lemma {:induction false} NothingYet(sent: seq<Sent>, b: nat)
    requires forall i | 0 <= i < |sent| :: sent[i].box < b
    ensures OutOf(sent, b) == []
  {
    if sent != [] {
      NothingYet(sent[..|sent| - 1], b);
    }
  }

  lemma OpenKeeps(s: System, step: Step)
    requires Inv(s) && Enabled(s, step) && (step.Push? || step.Ask?)
    ensures Inv(Next(s, step))
  {
    var s' := Next(s, step);
    if step.Push? {
      BuildVersion(s.configs[step.version], step.version);
      MadeFrom(s.configs, Build(s.configs[step.version], step.version).value, ClusterType);
    } else {
      MadeFrom(s.configs, s.snapshot, step.typeUrl);
    }
    OpenEmptied(s.sent, s.boxes, s'.boxes[|s.boxes|]);
  }

  lemma OpenEmptied(sent: seq<Sent>, boxes: seq<Box>, box: Box)
    requires AllEmptied(sent, boxes) && box.next == 0
    ensures AllEmptied(sent, boxes + [box])
  {
    NothingYet(sent, |boxes|);
    forall b | 0 <= b < |boxes + [box]|
      ensures Emptied(sent, boxes + [box], b)
    {
      assert b < |boxes| ==> Emptied(sent, boxes, b);
    }
  }

  lemma SendEmptied(sent: seq<Sent>, boxes: seq<Box>, b: nat)
    requires AllEmptied(sent, boxes) && b < |boxes| && boxes[b].next < |boxes[b].responses|
    ensures AllEmptied(sent + [Taken(boxes, b)], Advanced(boxes, b))
  {
    var one, more := Taken(boxes, b), Advanced(boxes, b);
    forall c | 0 <= c < |more|
      ensures Emptied(sent + [one], more, c)
    {
      assert Emptied(sent, boxes, c);
      OutOfSnoc(sent, one, c);
      assert c == b ==> boxes[b].responses[..boxes[b].next + 1] == boxes[b].responses[..boxes[b].next] + [one.response];
    }
  }

  lemma OutOfSnoc(sent: seq<Sent>, one: Sent, b: nat)
    ensures OutOf(sent + [one], b) == OutOf(sent, b) + if one.box == b then [one.response] else []
  {
    assert (sent + [one])[..|sent|] == sent;
  }

  lemma SendKeeps(s: System, step: Step)
    requires Inv(s) && Enabled(s, step) && step.Send?
    ensures Inv(Next(s, step))
  {
    SendEmptied(s.sent, s.boxes, step.box);
    BoxesSent(s.configs, s.boxes, s.sent, step.box);
  }

  lemma BoxesSent(configs: map<nat, GatewayConfig>, boxes: seq<Box>, sent: seq<Sent>, b: nat)
    requires BoxesOk(configs, boxes) && SentOk(configs, sent) && b < |boxes| && boxes[b].next < |boxes[b].responses|
    ensures BoxesOk(configs, Advanced(boxes, b)) && SentOk(configs, sent + [Taken(boxes, b)])
  {
    assert BoxOk(configs, boxes[b]);
    assert Taken(boxes, b).response in boxes[b].responses;
  }

  lemma PublishKeeps(s: System, step: Step)
    requires Inv(s) && Enabled(s, step) && step.Publish?
    ensures Inv(Next(s, step))
  {
    BuildVersion(s.configs[step.version], step.version);
  }

  lemma {:induction false} AlwaysInv(cfg: GatewayConfig, steps: seq<Step>)
    requires Build(cfg, 1).Ok? && After(cfg, steps).Some?
    ensures Inv(After(cfg, steps).value)
  {
    if steps == [] {
      BuildVersion(cfg, 1);
    } else {
      var n := |steps| - 1;
      var s := After(cfg, steps[..n]).value;
      AlwaysInv(cfg, steps[..n]);
      match steps[n]
      case Begin(_) => BeginKeeps(s, steps[n]);
      case Publish(_) => PublishKeeps(s, steps[n]);
      case Push(_, _) => OpenKeeps(s, steps[n]);
      case Ask(_, _) => OpenKeeps(s, steps[n]);
      case Send(_) => SendKeeps(s, steps[n]);
    }
  }

  /**
   Version consistency: in every interleaving of rebuilds, concurrent ones included,
   broadcasts and stream replies, two responses sent with the same version and type are
   the same response, resources and nonce included.
   */
  lemma SameVersionSameResponse(cfg: GatewayConfig, steps: seq<Step>, i: nat, j: nat)
    requires Build(cfg, 1).Ok? && After(cfg, steps).Some?
    requires i < |After(cfg, steps).value.sent| && j < |After(cfg, steps).value.sent|
    ensures
      var a, b := After(cfg, steps).value.sent[i].response, After(cfg, steps).value.sent[j].response;
      a.versionInfo == b.versionInfo && a.typeUrl == b.typeUrl ==> a == b
  {
    var s := After(cfg, steps).value;
    AlwaysInv(cfg, steps);
    var a, b := s.sent[i].response, s.sent[j].response;
    assert HasVersion(s.configs, a) && HasVersion(s.configs, b);
    var v :| From(s.configs, v, a);
    var w :| From(s.configs, w, b);
    BuildVersion(s.configs[v], v);
    BuildVersion(s.configs[w], w);
    if a.versionInfo == b.versionInfo {
      DecimalInjective(v, w);
    }
  }

  /**
   Order of a push: in every interleaving, what one push puts on its stream is a prefix of
   that version's clusters, endpoints, listeners, routes, whatever else comes in between.
   */
  lemma PushesAreOrdered(cfg: GatewayConfig, steps: seq<Step>, b: nat)
    requires Build(cfg, 1).Ok? && After(cfg, steps).Some?
    requires b < |After(cfg, steps).value.boxes| && After(cfg, steps).value.boxes[b].push.Some?
    ensures
      var s := After(cfg, steps).value;
      var v := s.boxes[b].push.value;
      && v in s.configs && Build(s.configs[v], v).Ok?
      && OutOf(s.sent, b) <= OrderedResponses(Build(s.configs[v], v).value)
  {
    AlwaysInv(cfg, steps);
    var s := After(cfg, steps).value;
    assert BoxOk(s.configs, s.boxes[b]) && Emptied(s.sent, s.boxes, b);
  }
}
