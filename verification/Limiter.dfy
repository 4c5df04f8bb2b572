/** The rate limiter: Redis first, an in-memory bucket per key when Redis cannot answer. */
module Limiter {
  import opened Wrappers
  import opened Rounding
  import opened TokenBucket
  import opened RedisScript

  datatype Settings = Settings(survivability: bool, fallbackCapacity: nat, fallbackRate: real, failOpen: bool) {
    function FallbackParams(): Params {
      Params(fallbackCapacity as real, fallbackRate)
    }
  }

  datatype Mode = Redis | DegradedLocal | FailOpen

  datatype RateDecision = RateDecision(allowed: bool, limit: nat, remaining: int, retryMs: int, mode: Mode)

  datatype RateLimitError = NoConnection | LuaResponseParse | CommandOrTimeout | Unavailable

  /**
   What happens to one invocation of the script: the reply arrives, it arrives garbled,
   or the command fails or times out, in which case the script may have run all the same.
   */
  datatype Trip = Replied | Garbled | Lost(executed: bool)

  datatype Action =
    | Check(key: string, capacity: nat, rate: real, trip: Trip)
    | Ping(alive: bool, reconnects: bool)

  /** One step of the limiter. The fallback buckets run on a monotonic clock of their own. */
  datatype Step = Step(call: Call, local: real, action: Action)

  datatype World = World(connected: bool, hashes: map<string, Hash>, fallback: map<string, Bucket>)

  function RouteParams(capacity: nat, rate: real): Params {
    Params(capacity as real, rate)
  }

  /** The reply's numbers are read as 64-bit unsigned integers. */
  predicate Parses(r: Reply) {
    0 <= r.remaining <= U64_MAX && 0 <= r.retryMs <= U64_MAX
  }

  predicate Executes(w: World, trip: Trip) {
    w.connected && (trip.Lost? ==> trip.executed)
  }

  function ScriptReply(w: World, key: string, p: Params, c: Call): Reply
    requires p.rate > 0.0
  {
    Answer(p, 1.0, Visible(Lookup(w.hashes, key), c), c.now)
  }

  predicate ServedByRedis(w: World, key: string, p: Params, c: Call, trip: Trip)
    requires p.rate > 0.0
  {
    w.connected && trip.Replied? && Parses(ScriptReply(w, key, p, c))
  }

  function HashesAfter(w: World, key: string, p: Params, c: Call, trip: Trip): map<string, Hash> {
    if Executes(w, trip)
    then Put(w.hashes, key, Stored(p, 1.0, TtlSeconds(p), Visible(Lookup(w.hashes, key), c), c))
    else w.hashes
  }

  function FallbackBucket(fp: Params, fallback: map<string, Bucket>, key: string, now: real): Bucket {
    if key in fallback then fallback[key] else Full(fp, now)
  }

  /** Result of asking Redis, before any fallback. */
  function AskRedis(w: World, key: string, capacity: nat, rate: real, c: Call,
                    trip: Trip): Result<RateDecision, RateLimitError>
    requires rate > 0.0
  {
    var p := RouteParams(capacity, rate);
    if !w.connected then Err(NoConnection)
    else if trip.Lost? then Err(CommandOrTimeout)
    else if !ServedByRedis(w, key, p, c, trip) then Err(LuaResponseParse)
    else
      var r := ScriptReply(w, key, p, c);
      Ok(RateDecision(r.allowed, capacity, r.remaining, r.retryMs, Redis))
  }

  function Degraded(s: Settings, fallback: map<string, Bucket>, key: string, capacity: nat,
                    local: real): Result<RateDecision, RateLimitError> {
    if s.survivability then
      var d := Decide(s.FallbackParams(), FallbackBucket(s.FallbackParams(), fallback, key, local), local);
      Ok(RateDecision(d.allowed, s.fallbackCapacity, d.remaining, d.retryMs, DegradedLocal))
    else if s.failOpen then Ok(RateDecision(true, capacity, capacity, 0, FailOpen))
    else Err(Unavailable)
  }

  function FallbackAfter(s: Settings, fallback: map<string, Bucket>, key: string, local: real): map<string, Bucket> {
    if s.survivability
    then fallback[key := Consume(s.FallbackParams(), FallbackBucket(s.FallbackParams(), fallback, key, local), local)]
    else fallback
  }

  function Outcome(s: Settings, w: World, a: Action, c: Call, local: real): Result<RateDecision, RateLimitError>
    requires a.Check? && a.rate > 0.0
  {
    var r := AskRedis(w, a.key, a.capacity, a.rate, c, a.trip);
    if r.Ok? then r else Degraded(s, w.fallback, a.key, a.capacity, local)
  }

  function Next(s: Settings, w: World, step: Step): World
    requires step.action.Check? ==> step.action.rate > 0.0
  {
    match step.action
    case Check(key, capacity, rate, trip) =>
      var hashes := HashesAfter(w, key, RouteParams(capacity, rate), step.call, trip);
      if AskRedis(w, key, capacity, rate, step.call, trip).Ok? then w.(hashes := hashes)
      else World(w.connected && !trip.Lost?, hashes, FallbackAfter(s, w.fallback, key, step.local))
    case Ping(alive, reconnects) =>
      w.(connected := (w.connected && alive) || reconnects)
  }

  class RateLimiter {
    const settings: Settings
    const redis: RedisServer
    var connected: bool
    var fallback: map<string, LocalBucket>

    ghost predicate Valid()
      reads this
    {
      && (forall k | k in fallback :: fallback[k].Parameters() == settings.FallbackParams())
      && (forall j, k | j in fallback && k in fallback && j != k :: fallback[j] != fallback[k])
    }

    ghost function Buckets(): map<string, Bucket>
      reads this, fallback.Values
    {
      map k | k in fallback :: fallback[k].View()
    }

    ghost function View(): World
      reads this, redis, fallback.Values
    {
      World(connected, redis.hashes, Buckets())
    }

    constructor (settings: Settings, redis: RedisServer, reachable: bool)
      ensures Valid()
      ensures this.settings == settings && this.redis == redis
      ensures View() == World(reachable, redis.hashes, map[])
    {
      this.settings := settings;
      this.redis := redis;
      this.connected := reachable;
      this.fallback := map[];
    }

    method TryRedis(key: string, capacity: nat, rate: real, c: Call, trip: Trip)
      returns (r: Result<RateDecision, RateLimitError>)
      requires Valid() && rate > 0.0
      modifies this`connected, redis
      ensures Valid()
      ensures r == AskRedis(old(View()), key, capacity, rate, c, trip)
      ensures connected == (old(connected) && !trip.Lost?)
      ensures redis.hashes == HashesAfter(old(View()), key, RouteParams(capacity, rate), c, trip)
      ensures Buckets() == old(Buckets())
    {
      if !connected {
        return Err(NoConnection);
      }
      var p := RouteParams(capacity, rate);
      if trip.Lost? {
        if trip.executed {
          var _ := redis.Eval(key, c, p, 1.0, TtlSeconds(p));
        }
        connected := false;
        return Err(CommandOrTimeout);
      }
      var reply := redis.Eval(key, c, p, 1.0, TtlSeconds(p));
      if trip.Garbled? || !Parses(reply) {
        return Err(LuaResponseParse);
      }
      r := Ok(RateDecision(reply.allowed, capacity, reply.remaining, reply.retryMs, Redis));
    }

    method EnterDegraded(key: string, capacity: nat, local: real)
      returns (r: Result<RateDecision, RateLimitError>)
      requires Valid()
      modifies this`fallback, fallback.Values
      ensures Valid()
      ensures r == Degraded(settings, old(Buckets()), key, capacity, local)
      ensures Buckets() == FallbackAfter(settings, old(Buckets()), key, local)
    {
      if settings.survivability {
        if key !in fallback {
          var created := new LocalBucket(settings.fallbackCapacity as real, settings.fallbackRate, local);
          fallback := fallback[key := created];
        }
        var bucket := fallback[key];
        var d := bucket.TryConsume(local);
        return Ok(RateDecision(d.allowed, settings.fallbackCapacity, d.remaining, d.retryMs, DegradedLocal));
      }
      if settings.failOpen {
        return Ok(RateDecision(true, capacity, capacity, 0, FailOpen));
      }
      r := Err(Unavailable);
    }

    method CheckKey(step: Step) returns (r: Result<RateDecision, RateLimitError>)
      requires Valid() && step.action.Check? && step.action.rate > 0.0
      modifies this, redis, fallback.Values
      ensures Valid()
      ensures r == Outcome(settings, old(View()), step.action, step.call, step.local)
      ensures View() == Next(settings, old(View()), step)
    {
      var a := step.action;
      r := TryRedis(a.key, a.capacity, a.rate, step.call, a.trip);
      if r.Err? {
        r := EnterDegraded(a.key, a.capacity, step.local);
      }
    }

    method PingRedis(alive: bool, reconnects: bool) returns (ok: bool)
      requires Valid()
      modifies this`connected
      ensures Valid()
      ensures ok == connected
      ensures connected == ((old(connected) && alive) || reconnects)
      ensures Buckets() == old(Buckets())
    {
      if connected {
        if alive {
          return true;
        }
        connected := false;
      }
      connected := reconnects;
      ok := reconnects;
    }
  }
}

/** What the limiter promises over whole runs, with any pattern of Redis failures. */
module LimiterRuns {
  import opened Wrappers
  import opened Rounding
  import opened TokenBucket
  import opened BucketRuns
  import opened RedisScript
  import opened EagerLazy
  import opened Limiter

  /**
   Terms a run keeps on one key: no check uses more than the capacity and rate of `p`,
   hashes live at least `keep` milliseconds, and the server's clock is ahead of the
   gateway's by at least `offset` and at most `offset + skew`.
   */
  datatype Terms = Terms(p: Params, keep: real, offset: real, skew: real)

  /** Even the shortest-lived hash outlives the clock band and the time to fill the largest bucket. */
  ghost predicate Sound(t: Terms) {
    t.p.rate > 0.0 && t.p.capacity >= 0.0 && Gain(t.p, t.keep - t.skew) >= t.p.capacity
  }

  /** A check on `key` uses at most the capacity and rate of `p`. */
  ghost predicate StepWithin(key: string, p: Params, step: Step) {
    && (step.action.Check? ==> step.action.rate > 0.0)
    && (step.action.Check? && step.action.key == key ==>
          step.action.capacity as real <= p.capacity && step.action.rate <= p.rate)
  }

  ghost predicate RunWithin(key: string, p: Params, steps: seq<Step>) {
    forall i | 0 <= i < |steps| :: StepWithin(key, p, steps[i])
  }

  ghost predicate StepKeeps(key: string, t: Terms, step: Step) {
    && InBand(t.offset, t.skew, step.call)
    && (step.action.Check? ==> step.action.rate > 0.0)
    && (step.action.Check? && step.action.key == key ==>
          var q := RouteParams(step.action.capacity, step.action.rate);
          q.capacity <= t.p.capacity && q.rate <= t.p.rate && t.keep <= TtlMs(q))
  }

  /** The checks of a run may change parameters from one to the next, within the terms. */
  ghost predicate Keeps(key: string, t: Terms, steps: seq<Step>) {
    forall i | 0 <= i < |steps| :: StepKeeps(key, t, steps[i])
  }

  ghost predicate Positive(steps: seq<Step>) {
    forall i | 0 <= i < |steps| && steps[i].action.Check? :: steps[i].action.rate > 0.0
  }

  ghost function WorldAfter(s: Settings, w: World, steps: seq<Step>): World
    requires Positive(steps)
  {
    if steps == [] then w
    else Next(s, WorldAfter(s, w, steps[..|steps| - 1]), steps[|steps| - 1])
  }

  predicate Grants(s: Settings, w: World, step: Step, key: string)
    requires step.action.Check? ==> step.action.rate > 0.0
  {
    && step.action.Check?
    && step.action.key == key
    && var r := Outcome(s, w, step.action, step.call, step.local);
       r.Ok? && r.value.allowed
  }

  /** Requests on `key` allowed from step `i` up to step `j`, by whichever backend. */
  ghost function Granted(s: Settings, w: World, steps: seq<Step>, key: string, i: nat, j: nat): nat
    requires Positive(steps) && i <= j <= |steps|
  {
    if i == j then 0
    else
      var last := if Grants(s, WorldAfter(s, w, steps[..j - 1]), steps[j - 1], key) then 1 else 0;
      Granted(s, w, steps, key, i, j - 1) + last
  }

  ghost predicate InOrder(steps: seq<Step>) {
    forall i, j | 0 <= i <= j < |steps| ::
      steps[i].call.now <= steps[j].call.now && steps[i].local <= steps[j].local
  }

  /** A stored hash that is not from the future and does not expire too soon. */
  ghost predicate HashOk(t: Terms, h: Option<Hash>, now: real) {
    h.Some? ==>
      && 0.0 <= h.value.tokens
      && h.value.last <= now
      && t.offset + t.keep <= h.value.deadline - h.value.last
  }

  ghost function LocalLevel(fp: Params, fallback: map<string, Bucket>, key: string, local: real): real {
    Refilled(fp, FallbackBucket(fp, fallback, key, local), local)
  }

  ghost predicate BucketOk(fp: Params, fallback: map<string, Bucket>, key: string, local: real) {
    key in fallback ==> Sane(fp, fallback[key]) && fallback[key].last <= local
  }

  lemma LevelGrows(p: Params, h: Option<Hash>, now: real, later: real)
    requires p.rate > 0.0 && now <= later
    ensures Level(p, h, later) <= Level(p, h, now) + Gain(p, later - now)
    ensures Level(p, h, later) <= p.capacity
  {
    GainGrows(p, 0.0, later - now);
    if h.Some? {
      GainAdds(p, now - h.value.last, later - now);
    }
  }

  /** Smaller parameters see no more tokens in the same hash. */
  lemma LevelBelow(q: Params, p: Params, h: Option<Hash>, now: real)
    requires q.capacity <= p.capacity && q.rate <= p.rate
    requires h.Some? ==> h.value.last <= now
    ensures Level(q, h, now) <= Level(p, h, now)
  {
    if h.Some? {
      var seconds := (now - h.value.last) / 1000.0;
      assert (p.rate - q.rate) * seconds >= 0.0;
      assert Gain(q, now - h.value.last) <= Gain(p, now - h.value.last);
    }
  }

  /** The call finds the hash gone although the bucket of `p` was not yet full. */
  ghost predicate GoneEarly(p: Params, h: Option<Hash>, c: Call) {
    Visible(h, c) != h && Level(p, h, c.now) < p.capacity
  }

  ghost predicate NotFuture(h: Option<Hash>, now: real) {
    h.Some? ==> 0.0 <= h.value.tokens && h.value.last <= now
  }

  /**
   One execution of the script, with parameters of its own up to those of `p`, lowers what
   Redis holds for a key by at least what it grants, unless the hash was gone early: that
   puts back at most one capacity.
   */
  lemma ScriptSpends(p: Params, q: Params, h: Option<Hash>, c: Call)
    requires 0.0 <= q.capacity <= p.capacity && 0.0 < q.rate <= p.rate && NotFuture(h, c.now)
    ensures
      var h' := Stored(q, 1.0, TtlSeconds(q), Visible(h, c), c);
      && NotFuture(h', c.now)
      && Level(p, h', c.now) + (if Answer(q, 1.0, Visible(h, c), c.now).allowed then 1.0 else 0.0)
         <= Level(p, h, c.now) + if GoneEarly(p, h, c) then p.capacity else 0.0
  {
    LevelBelow(q, p, Visible(h, c), c.now);
    assert Gain(p, c.now - c.now) == 0.0;
    LevelNotNegative(p, h, c.now);
  }

  lemma LevelNotNegative(p: Params, h: Option<Hash>, now: real)
    requires p.capacity >= 0.0 && p.rate >= 0.0 && NotFuture(h, now)
    ensures Level(p, h, now) >= 0.0
  {
    if h.Some? {
      GainGrows(p, 0.0, now - h.value.last);
    }
  }

  lemma PutLookup(hashes: map<string, Hash>, key: string, h: Option<Hash>, other: string)
    ensures Lookup(Put(hashes, key, h), other) == if other == key then h else Lookup(hashes, other)
  {
  }

  /** The step runs the script on `key` and finds its hash gone early. */
  ghost predicate DropsEarly(w: World, step: Step, key: string, p: Params) {
    && step.action.Check? && step.action.key == key && Executes(w, step.action.trip)
    && GoneEarly(p, Lookup(w.hashes, key), step.call)
  }

  /** How many of the steps from `i` up to `j` do so. */
  ghost function EarlyDrops(s: Settings, w: World, steps: seq<Step>, key: string, p: Params, i: nat, j: nat): nat
    requires Positive(steps) && i <= j <= |steps|
  {
    if i == j then 0
    else
      var last := if DropsEarly(WorldAfter(s, w, steps[..j - 1]), steps[j - 1], key, p) then 1 else 0;
      EarlyDrops(s, w, steps, key, p, i, j - 1) + last
  }

  /** What one step does to the tokens Redis holds for `key`. */
  lemma RedisStep(s: Settings, w: World, step: Step, key: string, p: Params)
    requires p.rate > 0.0 && p.capacity >= 0.0 && StepWithin(key, p, step)
    requires NotFuture(Lookup(w.hashes, key), step.call.now)
    ensures
      var h := Lookup(w.hashes, key);
      var h' := Lookup(Next(s, w, step).hashes, key);
      var byRedis := step.action.Check? && step.action.key == key
                     && AskRedis(w, key, step.action.capacity, step.action.rate, step.call, step.action.trip).Ok?
                     && Grants(s, w, step, key);
      && NotFuture(h', step.call.now)
      && Level(p, h', step.call.now) + (if byRedis then 1.0 else 0.0)
         <= Level(p, h, step.call.now) + if DropsEarly(w, step, key, p) then p.capacity else 0.0
  {
    if step.action.Check? {
      var q := RouteParams(step.action.capacity, step.action.rate);
      var seen := Visible(Lookup(w.hashes, step.action.key), step.call);
      PutLookup(w.hashes, step.action.key, Stored(q, 1.0, TtlSeconds(q), seen, step.call), key);
      if step.action.key == key {
        ScriptSpends(p, q, Lookup(w.hashes, key), step.call);
      }
    }
  }

  /** What one step does to the tokens of the fallback bucket of `key`. */
  lemma LocalStep(s: Settings, w: World, step: Step, key: string)
    requires s.survivability && s.fallbackRate >= 0.0
    requires step.action.Check? ==> step.action.rate > 0.0
    requires BucketOk(s.FallbackParams(), w.fallback, key, step.local)
    ensures
      var fp := s.FallbackParams();
      var w' := Next(s, w, step);
      var byLocal := step.action.Check? && step.action.key == key
                     && AskRedis(w, key, step.action.capacity, step.action.rate, step.call, step.action.trip).Err?
                     && Grants(s, w, step, key);
      && BucketOk(fp, w'.fallback, key, step.local)
      && LocalLevel(fp, w'.fallback, key, step.local) + (if byLocal then 1.0 else 0.0)
         <= LocalLevel(fp, w.fallback, key, step.local)
  {
    var fp := s.FallbackParams();
    var b := FallbackBucket(fp, w.fallback, key, step.local);
    ConsumeConserves(fp, b, step.local);
    GainGrows(fp, 0.0, step.local - b.last);
    assert Gain(fp, step.local - step.local) == 0.0;
  }

  lemma LocalLevelGrows(fp: Params, fallback: map<string, Bucket>, key: string, local: real, later: real)
    requires fp.rate >= 0.0 && fp.capacity >= 0.0 && local <= later && BucketOk(fp, fallback, key, local)
    ensures LocalLevel(fp, fallback, key, later) <= LocalLevel(fp, fallback, key, local) + Gain(fp, later - local)
    ensures LocalLevel(fp, fallback, key, later) <= fp.capacity
    ensures LocalLevel(fp, fallback, key, later) >= 0.0
  {
    GainGrows(fp, 0.0, later - local);
    if key in fallback {
      GainAdds(fp, local - fallback[key].last, later - local);
      GainGrows(fp, 0.0, later - fallback[key].last);
    }
  }

  /** What the two buckets may hand out between two steps: each its capacity and what its rate earns. */
  function Budget(s: Settings, p: Params, start: Step, now: Step): real {
    (p.capacity + Gain(p, now.call.now - start.call.now))
    + (s.fallbackCapacity as real + Gain(s.FallbackParams(), now.local - start.local))
  }

  /**
   A state in which both backends of `key` are consistent, and what they hold plus what was
   granted is within budget, with some slack.
   */
  ghost predicate WithinBudget(s: Settings, w: World, key: string, p: Params, start: Step, now: Step, granted: nat,
                               slack: real)
  {
    && NotFuture(Lookup(w.hashes, key), now.call.now)
    && BucketOk(s.FallbackParams(), w.fallback, key, now.local)
    && granted as real + Level(p, Lookup(w.hashes, key), now.call.now)
       + LocalLevel(s.FallbackParams(), w.fallback, key, now.local)
       <= Budget(s, p, start, now) + slack
  }

  /** One capacity for each of `n` early drops. */
  ghost function Refunds(p: Params, n: nat): (r: real)
    ensures n == 0 ==> r == 0.0
  {
    if n == 0 then 0.0 else Refunds(p, n - 1) + p.capacity
  }

  lemma {:induction false} RefundsAre(p: Params, n: nat)
    ensures Refunds(p, n) == p.capacity * n as real
  {
    if n > 0 {
      RefundsAre(p, n - 1);
      assert p.capacity * ((n - 1) as real + 1.0) == p.capacity * (n - 1) as real + p.capacity;
    }
  }

  lemma BudgetStep(s: Settings, w: World, key: string, p: Params, start: Step, before: Step, step: Step, granted: nat,
                   slack: real)
    requires s.survivability && s.fallbackRate >= 0.0
    requires p.rate > 0.0 && p.capacity >= 0.0 && StepWithin(key, p, step)
    requires before.call.now <= step.call.now && before.local <= step.local
    requires WithinBudget(s, w, key, p, start, before, granted, slack)
    ensures WithinBudget(s, Next(s, w, step), key, p, start, step,
                         granted + (if Grants(s, w, step, key) then 1 else 0),
                         slack + (if DropsEarly(w, step, key, p) then p.capacity else 0.0))
  {
    LevelGrows(p, Lookup(w.hashes, key), before.call.now, step.call.now);
    GainAdds(p, before.call.now - start.call.now, step.call.now - before.call.now);
    LocalLevelGrows(s.FallbackParams(), w.fallback, key, before.local, step.local);
    GainAdds(s.FallbackParams(), before.local - start.local, step.local - before.local);
    RedisStep(s, w, step, key, p);
    LocalStep(s, w, step, key);
  }

  lemma {:induction false} BudgetKept(s: Settings, w: World, steps: seq<Step>, key: string, p: Params, i: nat, j: nat)
    requires s.survivability && s.fallbackRate >= 0.0
    requires p.rate > 0.0 && p.capacity >= 0.0 && RunWithin(key, p, steps) && Positive(steps) && InOrder(steps)
    requires w.hashes == map[] && w.fallback == map[]
    requires i <= j <= |steps| && i < |steps|
    ensures WithinBudget(s, WorldAfter(s, w, steps[..j]), key, p, steps[i], if i == j then steps[i] else steps[j - 1],
                         Granted(s, w, steps, key, i, j), Refunds(p, EarlyDrops(s, w, steps, key, p, i, j)))
    decreases j, if i == j then 1 else 0
  {
    if j == 0 {
      assert steps[..0] == [];
    } else {
      var prev := steps[j - 1];
      if i == j {
        BudgetKept(s, w, steps, key, p, j - 1, j);
        FreshWindow(s, WorldAfter(s, w, steps[..j]), key, p, prev, steps[j]);
      } else {
        BudgetKept(s, w, steps, key, p, i, j - 1);
        BudgetExtends(s, w, steps, key, p, i, j);
      }
    }
  }

  lemma BudgetExtends(s: Settings, w: World, steps: seq<Step>, key: string, p: Params, i: nat, j: nat)
    requires s.survivability && s.fallbackRate >= 0.0
    requires p.rate > 0.0 && p.capacity >= 0.0 && RunWithin(key, p, steps) && Positive(steps) && InOrder(steps)
    requires i < j <= |steps|
    requires WithinBudget(s, WorldAfter(s, w, steps[..j - 1]), key, p,
                          steps[i], if i == j - 1 then steps[i] else steps[j - 2],
                          Granted(s, w, steps, key, i, j - 1), Refunds(p, EarlyDrops(s, w, steps, key, p, i, j - 1)))
    ensures WithinBudget(s, WorldAfter(s, w, steps[..j]), key, p, steps[i], steps[j - 1],
                         Granted(s, w, steps, key, i, j), Refunds(p, EarlyDrops(s, w, steps, key, p, i, j)))
  {
    assert steps[..j][..j - 1] == steps[..j - 1];
    var before := if i == j - 1 then steps[i] else steps[j - 2];
    assert StepWithin(key, p, steps[j - 1]);
    BudgetStep(s, WorldAfter(s, w, steps[..j - 1]), key, p, steps[i], before, steps[j - 1],
               Granted(s, w, steps, key, i, j - 1), Refunds(p, EarlyDrops(s, w, steps, key, p, i, j - 1)));
  }

  /** A window may open at any reachable state: both levels are capped. */
  lemma FreshWindow(s: Settings, w: World, key: string, p: Params, before: Step, start: Step)
    requires s.fallbackRate >= 0.0 && p.rate > 0.0
    requires before.call.now <= start.call.now && before.local <= start.local
    requires NotFuture(Lookup(w.hashes, key), before.call.now)
    requires BucketOk(s.FallbackParams(), w.fallback, key, before.local)
    ensures WithinBudget(s, w, key, p, start, start, 0, 0.0)
  {
    LevelGrows(p, Lookup(w.hashes, key), before.call.now, start.call.now);
    LocalLevelGrows(s.FallbackParams(), w.fallback, key, before.local, start.local);
    assert Gain(p, start.call.now - start.call.now) == 0.0;
    assert Gain(s.FallbackParams(), start.local - start.local) == 0.0;
  }

  /**
   Admission bound without any condition on lifetimes. With survivability mode on, in every
   window of every run, whatever Redis does (refuses, times out with or without running the
   script, garbles a reply, drops expired keys, comes back after a ping), and however the
   capacity and rate of the route change from check to check, the requests allowed on one
   key are at most what a Redis bucket of the largest capacity and rate and the fallback
   bucket may together hand out over the window, plus one capacity for each time the key
   expired before that bucket was full.
   */
  lemma OverdraftBound(s: Settings, connected: bool, steps: seq<Step>, key: string, p: Params, i: nat, j: nat)
    requires s.survivability && s.fallbackRate >= 0.0
    requires p.rate > 0.0 && p.capacity >= 0.0 && RunWithin(key, p, steps) && InOrder(steps)
    requires i < j <= |steps|
    ensures Positive(steps)
    ensures
      var w := World(connected, map[], map[]);
      Granted(s, w, steps, key, i, j) as real
      <= Budget(s, p, steps[i], steps[j - 1]) + Refunds(p, EarlyDrops(s, w, steps, key, p, i, j))
  {
    var w := World(connected, map[], map[]);
    WithinPositive(key, p, steps);
    GrantsAreWithin(s, w, steps, key, p, i, j);
  }

  lemma GrantsAreWithin(s: Settings, w: World, steps: seq<Step>, key: string, p: Params, i: nat, j: nat)
    requires s.survivability && s.fallbackRate >= 0.0
    requires p.rate > 0.0 && p.capacity >= 0.0 && RunWithin(key, p, steps) && Positive(steps) && InOrder(steps)
    requires w.hashes == map[] && w.fallback == map[] && i < j <= |steps|
    ensures Granted(s, w, steps, key, i, j) as real
            <= Budget(s, p, steps[i], steps[j - 1]) + Refunds(p, EarlyDrops(s, w, steps, key, p, i, j))
  {
    BudgetKept(s, w, steps, key, p, i, j);
    SpentIsWithin(s, WorldAfter(s, w, steps[..j]), key, p, steps[i], steps[j - 1],
                  Granted(s, w, steps, key, i, j), Refunds(p, EarlyDrops(s, w, steps, key, p, i, j)));
  }

  /** What is still held does not count. */
  lemma SpentIsWithin(s: Settings, w: World, key: string, p: Params, start: Step, now: Step, granted: nat, slack: real)
    requires s.fallbackRate >= 0.0 && p.rate > 0.0 && p.capacity >= 0.0
    requires WithinBudget(s, w, key, p, start, now, granted, slack)
    ensures granted as real <= Budget(s, p, start, now) + slack
  {
    LevelNotNegative(p, Lookup(w.hashes, key), now.call.now);
    LocalLevelGrows(s.FallbackParams(), w.fallback, key, now.local, now.local);
  }

  lemma WithinPositive(key: string, p: Params, steps: seq<Step>)
    requires RunWithin(key, p, steps)
    ensures Positive(steps)
  {
    forall i | 0 <= i < |steps| && steps[i].action.Check?
      ensures steps[i].action.rate > 0.0
    {
      assert StepWithin(key, p, steps[i]);
    }
  }

  // Hashes that live long enough

  /** A hash that has expired by the server's clock has had the time to fill the bucket. */
  lemma NotGoneEarly(t: Terms, h: Option<Hash>, c: Call)
    requires Sound(t) && InBand(t.offset, t.skew, c) && HashOk(t, h, c.now)
    ensures !GoneEarly(t.p, h, c)
  {
    if Visible(h, c) != h {
      FullByNow(t.p, h.value, c.now, t.keep - t.skew);
    }
  }

  lemma FullByNow(p: Params, s: Hash, now: real, fill: real)
    requires p.rate > 0.0 && 0.0 <= s.tokens && fill <= now - s.last && Gain(p, fill) >= p.capacity
    ensures Level(p, Some(s), now) == p.capacity
  {
    GainGrows(p, fill, now - s.last);
  }

  lemma HashStaysOk(s: Settings, w: World, step: Step, key: string, t: Terms)
    requires StepKeeps(key, t, step) && HashOk(t, Lookup(w.hashes, key), step.call.now)
    ensures HashOk(t, Lookup(Next(s, w, step).hashes, key), step.call.now)
  {
    if step.action.Check? {
      var q := RouteParams(step.action.capacity, step.action.rate);
      var seen := Visible(Lookup(w.hashes, step.action.key), step.call);
      PutLookup(w.hashes, step.action.key, Stored(q, 1.0, TtlSeconds(q), seen, step.call), key);
    }
  }

  lemma {:induction false} HashKept(s: Settings, w: World, steps: seq<Step>, key: string, t: Terms, n: nat)
    requires Keeps(key, t, steps) && Positive(steps) && InOrder(steps) && w.hashes == map[] && n < |steps|
    ensures HashOk(t, Lookup(WorldAfter(s, w, steps[..n]).hashes, key), steps[n].call.now)
  {
    if n == 0 {
      assert steps[..n] == [];
    } else {
      HashKept(s, w, steps, key, t, n - 1);
      assert steps[..n][..n - 1] == steps[..n - 1];
      assert StepKeeps(key, t, steps[n - 1]);
      HashStaysOk(s, WorldAfter(s, w, steps[..n - 1]), steps[n - 1], key, t);
    }
  }

  lemma {:induction false} NoEarlyDrops(s: Settings, w: World, steps: seq<Step>, key: string, t: Terms, i: nat, j: nat)
    requires Sound(t) && Keeps(key, t, steps) && Positive(steps) && InOrder(steps) && w.hashes == map[]
    requires i <= j <= |steps|
    ensures EarlyDrops(s, w, steps, key, t.p, i, j) == 0
  {
    if i < j {
      NoEarlyDrops(s, w, steps, key, t, i, j - 1);
      HashKept(s, w, steps, key, t, j - 1);
      assert StepKeeps(key, t, steps[j - 1]);
      NotGoneEarly(t, Lookup(WorldAfter(s, w, steps[..j - 1]).hashes, key), steps[j - 1].call);
    }
  }

  /**
   Two-backend admission bound: when every hash lives long enough, the requests allowed on
   one key are at most what a Redis bucket of the largest capacity and rate and the
   fallback bucket may together hand out over the window.
   */
  lemma TwoBackendBound(s: Settings, connected: bool, steps: seq<Step>, key: string, t: Terms, i: nat, j: nat)
    requires s.survivability && s.fallbackRate >= 0.0
    requires Sound(t) && Keeps(key, t, steps) && InOrder(steps)
    requires i < j <= |steps|
    ensures Positive(steps)
    ensures Granted(s, World(connected, map[], map[]), steps, key, i, j) as real
            <= Budget(s, t.p, steps[i], steps[j - 1])
  {
    forall n | 0 <= n < |steps|
      ensures StepWithin(key, t.p, steps[n])
    {
      assert StepKeeps(key, t, steps[n]);
    }
    OverdraftBound(s, connected, steps, key, t.p, i, j);
    NoEarlyDrops(s, World(connected, map[], map[]), steps, key, t, i, j);
  }

  /** Every check of `key` uses the parameters `p`. */
  ghost predicate Fixed(key: string, p: Params, steps: seq<Step>) {
    forall i | 0 <= i < |steps| && steps[i].action.Check? && steps[i].action.key == key ::
      RouteParams(steps[i].action.capacity, steps[i].action.rate) == p
  }

  /**
   With parameters that do not change the time to live is always long enough, even if
   the two clocks drift apart by the time it takes to fill the bucket.
   */
  lemma FixedParametersBound(s: Settings, connected: bool, steps: seq<Step>, key: string, p: Params, offset: real,
                             i: nat, j: nat)
    requires s.survivability && s.fallbackRate >= 0.0
    requires p.rate > 0.0 && p.capacity >= 0.0 && (p.capacity / p.rate) * 2.0 <= U64_MAX as real
    requires Positive(steps) && Fixed(key, p, steps) && InOrder(steps)
    requires forall n | 0 <= n < |steps| :: InBand(offset, (p.capacity / p.rate) * 1000.0, steps[n].call)
    requires i < j <= |steps|
    ensures Granted(s, World(connected, map[], map[]), steps, key, i, j) as real <= Budget(s, p, steps[i], steps[j - 1])
  {
    var skew := (p.capacity / p.rate) * 1000.0;
    var t := Terms(p, TtlMs(p), offset, skew);
    TtlOutlivesRefill(p, skew);
    forall n | 0 <= n < |steps|
      ensures StepKeeps(key, t, steps[n])
    {
      assert InBand(offset, skew, steps[n].call);
    }
    TwoBackendBound(s, connected, steps, key, t, i, j);
  }

  // Isolation of the fallback buckets

  /** A call that reached the fallback map. */
  datatype Fallen = Fallen(key: string, now: real)

  function Buckets(s: Settings, calls: seq<Fallen>): map<string, Bucket> {
    if calls == [] then map[]
    else
      var n := |calls| - 1;
      FallbackAfter(s, Buckets(s, calls[..n]), calls[n].key, calls[n].now)
  }

  /** Times of the calls on one key, in order. */
  function OnKey(calls: seq<Fallen>, key: string): seq<real> {
    if calls == [] then []
    else
      var n := |calls| - 1;
      OnKey(calls[..n], key) + if calls[n].key == key then [calls[n].now] else []
  }

  lemma {:induction false} BucketOfKey(s: Settings, calls: seq<Fallen>, key: string)
    requires s.survivability
    ensures key in Buckets(s, calls) <==> OnKey(calls, key) != []
    ensures
      var ts := OnKey(calls, key);
      ts != [] ==> Buckets(s, calls)[key] == After(s.FallbackParams(), Full(s.FallbackParams(), ts[0]), ts)
  {
    if calls != [] {
      var n := |calls| - 1;
      BucketOfKey(s, calls[..n], key);
      var ts := OnKey(calls[..n], key);
      if calls[n].key != key {
        assert OnKey(calls, key) == ts;
      } else {
        assert OnKey(calls, key)[..|ts|] == ts;
        if ts == [] {
          assert OnKey(calls, key) == [calls[n].now];
          assert After(s.FallbackParams(), Full(s.FallbackParams(), calls[n].now), [])
              == Full(s.FallbackParams(), calls[n].now);
        }
      }
    }
  }

  /** The calls of a run that Redis did not answer, in order. */
  ghost function FallenCalls(s: Settings, w: World, steps: seq<Step>): seq<Fallen>
    requires Positive(steps)
  {
    if steps == [] then []
    else
      var n := |steps| - 1;
      FallenCalls(s, w, steps[..n]) + FallenCall(WorldAfter(s, w, steps[..n]), steps[n])
  }

  function FallenCall(w: World, step: Step): seq<Fallen>
    requires step.action.Check? ==> step.action.rate > 0.0
  {
    if step.action.Check?
       && AskRedis(w, step.action.key, step.action.capacity, step.action.rate, step.call, step.action.trip).Err?
    then [Fallen(step.action.key, step.local)]
    else []
  }

  lemma BucketsSnoc(s: Settings, calls: seq<Fallen>, call: Fallen)
    ensures Buckets(s, calls + [call]) == FallbackAfter(s, Buckets(s, calls), call.key, call.now)
  {
    assert (calls + [call])[..|calls|] == calls;
  }

  /** The fallback map after any run is what the calls that fell back made of it. */
  lemma {:induction false} FallbackIsBuckets(s: Settings, connected: bool, steps: seq<Step>)
    requires Positive(steps)
    ensures
      var w := World(connected, map[], map[]);
      WorldAfter(s, w, steps).fallback == Buckets(s, FallenCalls(s, w, steps))
  {
    if steps != [] {
      var w := World(connected, map[], map[]);
      var n := |steps| - 1;
      FallbackIsBuckets(s, connected, steps[..n]);
      var fallen := FallenCall(WorldAfter(s, w, steps[..n]), steps[n]);
      var before := FallenCalls(s, w, steps[..n]);
      if fallen == [] {
        assert before + fallen == before;
      } else {
        BucketsSnoc(s, before, fallen[0]);
        assert fallen == [fallen[0]];
      }
    }
  }

  /**
   Per-key isolation: in every run, whatever happens on other keys, the answer to a check
   that falls back is the answer of a lone bucket that has seen only the earlier calls on
   the same key that fell back.
   */
  lemma KeysAreIsolated(s: Settings, connected: bool, steps: seq<Step>, n: nat)
    requires s.survivability && Positive(steps) && n < |steps| && steps[n].action.Check?
    ensures
      var w := World(connected, map[], map[]);
      var v := WorldAfter(s, w, steps[..n]);
      var a := steps[n].action;
      AskRedis(v, a.key, a.capacity, a.rate, steps[n].call, a.trip).Err? ==>
        var ts := OnKey(FallenCalls(s, w, steps[..n]), a.key);
        var start := if ts == [] then steps[n].local else ts[0];
        var d := Decide(s.FallbackParams(), After(s.FallbackParams(), Full(s.FallbackParams(), start), ts),
            steps[n].local);
        Outcome(s, v, a, steps[n].call, steps[n].local)
        == Ok(RateDecision(d.allowed, s.fallbackCapacity, d.remaining, d.retryMs, DegradedLocal))
  {
    var w := World(connected, map[], map[]);
    FallbackIsBuckets(s, connected, steps[..n]);
    BucketOfKey(s, FallenCalls(s, w, steps[..n]), steps[n].action.key);
  }
}

/** The key of a bucket: when two requests share one. */
module BucketKey {
  import opened Text

  function Head(prefix: string, route: string, dimension: string): string {
    prefix + ":" + route + ":" + dimension + ":"
  }

  function BuildKey(prefix: string, route: string, dimension: string, value: string): string {
    Head(prefix, route, dimension) + value
  }

  /**
   For two routes and the dimensions they count by, some pair of values shares a key
   exactly when one of the heads is a prefix of the other.
   */
  lemma KeysClashIff(prefix: string, r1: string, d1: string, r2: string, d2: string)
    ensures (exists v1, v2 :: BuildKey(prefix, r1, d1, v1) == BuildKey(prefix, r2, d2, v2))
       <==> (StartsWith(Head("", r1, d1), Head("", r2, d2)) || StartsWith(Head("", r2, d2), Head("", r1, d1)))
  {
    var h1, h2 := Head("", r1, d1), Head("", r2, d2);
    assert forall r, d :: Head(prefix, r, d) == prefix + Head("", r, d);
    forall v1, v2 | BuildKey(prefix, r1, d1, v1) == BuildKey(prefix, r2, d2, v2)
      ensures StartsWith(h1, h2) || StartsWith(h2, h1)
    {
      var k := BuildKey(prefix, r1, d1, v1);
      assert k[|prefix|..] == h1 + v1 == h2 + v2;
      assert (h1 + v1)[..|h1|] == h1 && (h2 + v2)[..|h2|] == h2;
      if |h1| <= |h2| {
        assert h2[..|h1|] == (h2 + v2)[..|h1|];
      } else {
        assert h1[..|h2|] == (h1 + v1)[..|h2|];
      }
    }
    if StartsWith(h1, h2) {
      assert BuildKey(prefix, r1, d1, "") == BuildKey(prefix, r2, d2, h1[|h2|..]);
    } else if StartsWith(h2, h1) {
      assert BuildKey(prefix, r1, d1, h2[|h1|..]) == BuildKey(prefix, r2, d2, "");
    }
  }

  /** Text before the first colon is recovered from any text that has a colon right after it. */
  lemma FirstPart(a: string, b: string, x: string, y: string)
    requires ':' !in a && ':' !in b
    requires a + ":" + x == b + ":" + y
    ensures a == b && x == y
  {
    var s, t := a + ":" + x, b + ":" + y;
    assert s[|a|] == ':' && t[|b|] == ':';
    assert forall i | 0 <= i < |b| :: t[i] == b[i];
    assert forall i | 0 <= i < |a| :: s[i] == a[i];
    assert |a| == |b|;
    assert s[..|a|] == a && t[..|b|] == b;
    assert s[|a| + 1..] == x && t[|b| + 1..] == y;
  }

  /** Without colons in route names and dimensions the key determines route, dimension and value. */
  lemma KeyIsInjective(prefix: string, r1: string, d1: string, v1: string, r2: string, d2: string, v2: string)
    requires ':' !in r1 && ':' !in r2 && ':' !in d1 && ':' !in d2
    requires BuildKey(prefix, r1, d1, v1) == BuildKey(prefix, r2, d2, v2)
    ensures r1 == r2 && d1 == d2 && v1 == v2
  {
    var x1, x2 := d1 + ":" + v1, d2 + ":" + v2;
    var k1, k2 := BuildKey(prefix, r1, d1, v1), BuildKey(prefix, r2, d2, v2);
    assert k1 == prefix + ":" + (r1 + ":" + x1) && k2 == prefix + ":" + (r2 + ":" + x2);
    assert k1[|prefix| + 1..] == r1 + ":" + x1 && k2[|prefix| + 1..] == r2 + ":" + x2;
    FirstPart(r1, r2, x1, x2);
    FirstPart(d1, d2, v1, v2);
  }

  /** A colon in a route name is enough to break that: the validator allows one. */
  lemma KeysCanClash()
    ensures BuildKey("rl", "a", "ip", "b:ip:v") == BuildKey("rl", "a:ip:b", "ip", "v")
  {
    assert BuildKey("rl", "a", "ip", "b:ip:v") == "rl:a:ip:b:ip:v";
  }
}
