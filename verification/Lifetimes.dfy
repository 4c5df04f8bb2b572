/** How long hashes have to live: the exact condition for the admission bound when parameters change. */
module Lifetimes {
  import opened Wrappers
  import opened Rounding
  import opened TokenBucket
  import opened BucketRuns
  import opened RedisScript
  import opened EagerLazy
  import opened Limiter
  import opened LimiterRuns

  /** Capacity and rate of a route, as one configuration or another has them. */
  datatype Rate = Rate(capacity: nat, rate: real) {
    function Params(): Params {
      RouteParams(capacity, rate)
    }
  }

  /** `p` is one of the rates and the largest in both respects. */
  ghost predicate Largest(p: Rate, rates: set<Rate>) {
    && p in rates && p.capacity <= U64_MAX
    && forall q | q in rates :: 1 <= q.capacity <= p.capacity && 0.0 < q.rate <= p.rate
  }

  /** A run whose checks on `key` use these rates, in any order, with the clocks within the band. */
  ghost predicate Draws(key: string, rates: set<Rate>, offset: real, skew: real, steps: seq<Step>) {
    && InOrder(steps) && Positive(steps)
    && (forall i | 0 <= i < |steps| :: InBand(offset, skew, steps[i].call))
    && (forall i | 0 <= i < |steps| && steps[i].action.Check? && steps[i].action.key == key ::
          Rate(steps[i].action.capacity, steps[i].action.rate) in rates)
  }

  /** In the time a hash of `q` lives, less the width of the band, the bucket of `p` fills. */
  ghost predicate LivesLong(p: Rate, q: Rate, skew: real) {
    Gain(p.Params(), TtlMs(q.Params()) - skew) >= p.capacity as real
  }

  /** No window of any run lets more through than the two buckets may hand out. */
  ghost predicate NeverOverdrawn(key: string, rates: set<Rate>, p: Rate, offset: real, skew: real) {
    forall s: Settings, connected: bool, steps: seq<Step>, i: nat, j: nat
      | s.survivability && s.fallbackRate >= 0.0 && Draws(key, rates, offset, skew, steps) && i < j <= |steps| ::
      Granted(s, World(connected, map[], map[]), steps, key, i, j) as real
      <= Budget(s, p.Params(), steps[i], steps[j - 1])
  }

  // Long lives suffice

  function FillMs(p: Rate): real
    requires p.rate > 0.0
  {
    (p.capacity as real / p.rate) * 1000.0
  }

  lemma FillFills(p: Rate)
    requires p.rate > 0.0
    ensures Gain(p.Params(), FillMs(p)) == p.capacity as real
  {
    var seconds := p.capacity as real / p.rate;
    assert FillMs(p) / 1000.0 == seconds;
    assert p.rate * seconds == p.capacity as real;
  }

  lemma LivesLongIff(p: Rate, q: Rate, skew: real)
    requires p.rate > 0.0
    ensures LivesLong(p, q, skew) <==> skew + FillMs(p) <= TtlMs(q.Params())
  {
    var gap := TtlMs(q.Params()) - skew;
    FillFills(p);
    if gap >= FillMs(p) {
      GainGrows(p.Params(), FillMs(p), gap);
    } else {
      assert p.rate * ((FillMs(p) - gap) / 1000.0) > 0.0;
      GainAdds(p.Params(), gap, FillMs(p) - gap);
    }
  }

  lemma LongLivesSuffice(key: string, rates: set<Rate>, p: Rate, offset: real, skew: real, s: Settings, connected: bool,
                         steps: seq<Step>, i: nat, j: nat)
    requires Largest(p, rates) && forall q | q in rates :: LivesLong(p, q, skew)
    requires s.survivability && s.fallbackRate >= 0.0 && Draws(key, rates, offset, skew, steps) && i < j <= |steps|
    ensures Granted(s, World(connected, map[], map[]), steps, key, i, j) as real
            <= Budget(s, p.Params(), steps[i], steps[j - 1])
  {
    var t := Terms(p.Params(), skew + FillMs(p), offset, skew);
    FillFills(p);
    forall n | 0 <= n < |steps|
      ensures StepKeeps(key, t, steps[n])
    {
      var a := steps[n].action;
      if a.Check? && a.key == key {
        LivesLongIff(p, Rate(a.capacity, a.rate), skew);
      }
    }
    TwoBackendBound(s, connected, steps, key, t, i, j);
  }

  // Short lives overdraw

  /** When the hash that `q` writes at time zero has expired by the server's clock. */
  function Later(q: Rate, skew: real): real {
    if TtlMs(q.Params()) < skew then 0.0 else TtlMs(q.Params()) - skew
  }

  function AskAt(key: string, r: Rate, now: real, server: real, dropped: bool): Step {
    Step(Call(now, server, dropped), now, Check(key, r.capacity, r.rate, Replied))
  }

  /** Drain the bucket of `p`, the last token with `q`; drain it again as soon as the hash is gone. */
  function DrainStep(key: string, p: Rate, q: Rate, offset: real, skew: real, k: nat): Step {
    if k < p.capacity then AskAt(key, if k + 1 < p.capacity then p else q, 0.0, offset, false)
    else AskAt(key, p, Later(q, skew), Later(q, skew) + offset + skew, k == p.capacity)
  }

  function DrainTwice(key: string, p: Rate, q: Rate, offset: real, skew: real): (steps: seq<Step>)
    ensures |steps| == 2 * p.capacity
    ensures forall k | 0 <= k < |steps| :: steps[k] == DrainStep(key, p, q, offset, skew, k)
  {
    seq(2 * p.capacity, k requires 0 <= k < 2 * p.capacity => DrainStep(key, p, q, offset, skew, k))
  }

  ghost predicate Holds(w: World, key: string, tokens: real, last: real, deadline: real) {
    w.connected && Lookup(w.hashes, key) == Some(Hash(tokens, last, deadline))
  }

  /** What Redis holds after `k` of the steps. */
  ghost predicate Drained(w: World, key: string, p: Rate, q: Rate, offset: real, skew: real, k: nat) {
    if k == 0 then w.connected && key !in w.hashes
    else if k < p.capacity then Holds(w, key, (p.capacity - k) as real, 0.0, offset + TtlMs(p.Params()))
    else if k == p.capacity then Holds(w, key, 0.0, 0.0, offset + TtlMs(q.Params()))
    else
      Holds(w, key, (2 * p.capacity - k) as real, Later(q, skew),
            Later(q, skew) + offset + skew + TtlMs(p.Params()))
  }

  /** A check with a token to spare is granted and leaves one less, with a new deadline. */
  lemma Spends(s: Settings, w: World, key: string, r: Rate, now: real, server: real, dropped: bool, level: real)
    requires w.connected && 1.0 <= level <= r.capacity as real && r.capacity <= U64_MAX && r.rate > 0.0
    requires Level(r.Params(), Visible(Lookup(w.hashes, key), Call(now, server, dropped)), now) == level
    ensures Grants(s, w, AskAt(key, r, now, server, dropped), key)
    ensures Holds(Next(s, w, AskAt(key, r, now, server, dropped)), key, level - 1.0, now, server + TtlMs(r.Params()))
  {
    var c := Call(now, server, dropped);
    var h := Visible(Lookup(w.hashes, key), c);
    PutLookup(w.hashes, key, Stored(r.Params(), 1.0, TtlSeconds(r.Params()), h, c), key);
  }

  /** The tokens the next step finds. */
  lemma TokensLeft(w: World, key: string, p: Rate, q: Rate, offset: real, skew: real, k: nat)
    requires 1 <= q.capacity <= p.capacity && 0.0 < q.rate && 0.0 < p.rate
    requires k < 2 * p.capacity && Drained(w, key, p, q, offset, skew, k)
    ensures
      var step := DrainStep(key, p, q, offset, skew, k);
      var r := Rate(step.action.capacity, step.action.rate);
      Level(r.Params(), Visible(Lookup(w.hashes, key), step.call), step.call.now)
      == (if k < p.capacity then p.capacity - k else 2 * p.capacity - k) as real
  {
    var step := DrainStep(key, p, q, offset, skew, k);
    assert Gain(p.Params(), step.call.now - step.call.now) == 0.0;
    assert Gain(q.Params(), step.call.now - step.call.now) == 0.0;
  }

  lemma DrainOne(s: Settings, w: World, key: string, p: Rate, q: Rate, offset: real, skew: real, k: nat)
    requires 1 <= q.capacity <= p.capacity <= U64_MAX && 0.0 < q.rate && 0.0 < p.rate
    requires k < 2 * p.capacity && Drained(w, key, p, q, offset, skew, k)
    ensures Grants(s, w, DrainStep(key, p, q, offset, skew, k), key)
    ensures Drained(Next(s, w, DrainStep(key, p, q, offset, skew, k)), key, p, q, offset, skew, k + 1)
  {
    var step := DrainStep(key, p, q, offset, skew, k);
    TokensLeft(w, key, p, q, offset, skew, k);
    Spends(s, w, key, Rate(step.action.capacity, step.action.rate), step.call.now, step.call.server, step.call.dropped,
           (if k < p.capacity then p.capacity - k else 2 * p.capacity - k) as real);
  }

  lemma GrantedOne(s: Settings, w: World, steps: seq<Step>, key: string, k: nat)
    requires Positive(steps) && k < |steps|
    requires Grants(s, WorldAfter(s, w, steps[..k]), steps[k], key)
    ensures Granted(s, w, steps, key, 0, k + 1) == Granted(s, w, steps, key, 0, k) + 1
    ensures WorldAfter(s, w, steps[..k + 1]) == Next(s, WorldAfter(s, w, steps[..k]), steps[k])
  {
    assert steps[..k + 1][..k] == steps[..k];
  }

  ghost predicate DrainedTo(s: Settings, w: World, steps: seq<Step>, key: string, p: Rate, q: Rate, offset: real,
                            skew: real, k: nat)
    requires Positive(steps) && k <= |steps|
  {
    Granted(s, w, steps, key, 0, k) == k && Drained(WorldAfter(s, w, steps[..k]), key, p, q, offset, skew, k)
  }

  lemma DrainMore(s: Settings, w: World, steps: seq<Step>, key: string, p: Rate, q: Rate, offset: real, skew: real,
                  k: nat)
    requires 1 <= q.capacity <= p.capacity <= U64_MAX && 0.0 < q.rate && 0.0 < p.rate
    requires Positive(steps) && k < |steps| == 2 * p.capacity && steps[k] == DrainStep(key, p, q, offset, skew, k)
    requires DrainedTo(s, w, steps, key, p, q, offset, skew, k)
    ensures DrainedTo(s, w, steps, key, p, q, offset, skew, k + 1)
  {
    DrainOne(s, WorldAfter(s, w, steps[..k]), key, p, q, offset, skew, k);
    GrantedOne(s, w, steps, key, k);
  }

  lemma NoneDrained(s: Settings, w: World, steps: seq<Step>, key: string, p: Rate, q: Rate, offset: real, skew: real)
    requires Positive(steps) && w.connected && key !in w.hashes
    ensures DrainedTo(s, w, steps, key, p, q, offset, skew, 0)
  {
    assert steps[..0] == [];
  }

  lemma DrainsAll(s: Settings, w: World, steps: seq<Step>, key: string, p: Rate, q: Rate, offset: real, skew: real,
                  n: nat)
    requires 1 <= q.capacity <= p.capacity <= U64_MAX && 0.0 < q.rate && 0.0 < p.rate
    requires steps == DrainTwice(key, p, q, offset, skew) && Positive(steps) && n <= |steps|
    requires w.connected && key !in w.hashes
    ensures DrainedTo(s, w, steps, key, p, q, offset, skew, n)
  {
    NoneDrained(s, w, steps, key, p, q, offset, skew);
    for k := 0 to n
      invariant DrainedTo(s, w, steps, key, p, q, offset, skew, k)
    {
      DrainMore(s, w, steps, key, p, q, offset, skew, k);
    }
  }

  lemma DrainIsRun(key: string, rates: set<Rate>, p: Rate, q: Rate, offset: real, skew: real)
    requires Largest(p, rates) && q in rates && skew >= 0.0
    ensures Draws(key, rates, offset, skew, DrainTwice(key, p, q, offset, skew))
  {
    var steps := DrainTwice(key, p, q, offset, skew);
    forall i | 0 <= i < |steps|
      ensures InBand(offset, skew, steps[i].call)
      ensures steps[i].action.Check? && steps[i].action.rate > 0.0
      ensures Rate(steps[i].action.capacity, steps[i].action.rate) in rates
    {
      assert steps[i] == DrainStep(key, p, q, offset, skew, i);
    }
  }

  const NO_FALLBACK := Settings(true, 0, 0.0, false)

  lemma DrainBudget(key: string, p: Rate, q: Rate, offset: real, skew: real)
    requires p.capacity >= 1 && p.rate > 0.0 && !LivesLong(p, q, skew)
    ensures
      var steps := DrainTwice(key, p, q, offset, skew);
      Budget(NO_FALLBACK, p.Params(), steps[0], steps[|steps| - 1]) < (2 * p.capacity) as real
  {
    var later := Later(q, skew);
    assert Gain(NO_FALLBACK.FallbackParams(), later - 0.0) == 0.0;
    assert Gain(p.Params(), 0.0) == 0.0;
    assert later - 0.0 == later;
  }

  /** Twice the capacity passes in less time than it takes to earn the second half. */
  lemma ShortLifeOverdraws(key: string, rates: set<Rate>, p: Rate, q: Rate, offset: real, skew: real)
    requires Largest(p, rates) && q in rates && skew >= 0.0 && !LivesLong(p, q, skew)
    ensures
      var steps := DrainTwice(key, p, q, offset, skew);
      && Draws(key, rates, offset, skew, steps)
      && Granted(NO_FALLBACK, World(true, map[], map[]), steps, key, 0, |steps|) as real
         > Budget(NO_FALLBACK, p.Params(), steps[0], steps[|steps| - 1])
  {
    var steps := DrainTwice(key, p, q, offset, skew);
    DrainIsRun(key, rates, p, q, offset, skew);
    DrainsAll(NO_FALLBACK, World(true, map[], map[]), steps, key, p, q, offset, skew, |steps|);
    DrainBudget(key, p, q, offset, skew);
  }

  /**
   The lifetime condition, exactly. When the checks on a key use any of a set of capacities
   and rates of which one is the largest, no window of any run, with any pattern of Redis
   failures, lets more through than the two buckets may hand out, if and only if a hash
   written under each of them lives long enough, less the drift of the clocks, to fill the
   largest bucket.
   */
  lemma NeverOverdrawnIff(key: string, rates: set<Rate>, p: Rate, offset: real, skew: real)
    requires Largest(p, rates) && skew >= 0.0
    ensures NeverOverdrawn(key, rates, p, offset, skew) <==> forall q | q in rates :: LivesLong(p, q, skew)
  {
    if q :| q in rates && !LivesLong(p, q, skew) {
      ShortLifeOverdraws(key, rates, p, q, offset, skew);
    } else {
      forall s: Settings, connected: bool, steps: seq<Step>, i: nat, j: nat
        | s.survivability && s.fallbackRate >= 0.0 && Draws(key, rates, offset, skew, steps) && i < j <= |steps|
        ensures Granted(s, World(connected, map[], map[]), steps, key, i, j) as real
                <= Budget(s, p.Params(), steps[i], steps[j - 1])
      {
        LongLivesSuffice(key, rates, p, offset, skew, s, connected, steps, i, j);
      }
    }
  }

  /** Capacity three lowered to one and raised again, at one token a second: six requests pass where five may. */
  lemma ShrinkingOverdraws(key: string)
    ensures !NeverOverdrawn(key, {Rate(3, 1.0), Rate(1, 1.0)}, Rate(3, 1.0), 0.0, 0.0)
  {
    var p, q := Rate(3, 1.0), Rate(1, 1.0);
    assert q.Params().capacity / q.Params().rate == 1.0;
    assert TtlSeconds(q.Params()) == 2;
    assert Gain(p.Params(), 2000.0) == 2.0;
    NeverOverdrawnIff(key, {p, q}, p, 0.0, 0.0);
  }
}

/**
 The two halves of checks as separate steps. Checks overlap, so that calls of the script
 and of the fallback bucket interleave freely, each half on a clock of its own, and a
 script that has timed out may run after later ones, with a time of the past.
 */
module Halves {
  import opened Wrappers
  import opened Rounding
  import opened TokenBucket
  import opened BucketRuns
  import opened RedisScript
  import opened LimiterRuns

  /**
   Half of a check on one key. A script runs at time `at` with the time it was sent; only
   one whose reply arrives counts, and those run as they are sent.
   */
  datatype Half =
    | Script(at: real, call: Call, capacity: nat, counted: bool)
    | Local(now: real)

  function ParamsOf(p: Params, half: Half): Params
    requires half.Script?
  {
    Params(half.capacity as real, p.rate)
  }

  function HashAfterHalves(p: Params, halves: seq<Half>): Option<Hash> {
    if halves == [] then None
    else HashThen(p, HashAfterHalves(p, halves[..|halves| - 1]), halves[|halves| - 1])
  }

  function HashThen(p: Params, h: Option<Hash>, half: Half): Option<Hash> {
    if half.Local? then h
    else
      var q := ParamsOf(p, half);
      Stored(q, 1.0, TtlSeconds(q), Visible(h, half.call), half.call)
  }

  predicate ScriptGrants(p: Params, h: Option<Hash>, half: Half)
    requires p.rate > 0.0
  {
    half.Script? && half.counted && Answer(ParamsOf(p, half), 1.0, Visible(h, half.call), half.call.now).allowed
  }

  /** Grants of the script from half `i` up to half `j`. */
  function ByScript(p: Params, halves: seq<Half>, i: nat, j: nat): nat
    requires p.rate > 0.0 && i <= j <= |halves|
  {
    if i == j then 0
    else
      var last := if ScriptGrants(p, HashAfterHalves(p, halves[..j - 1]), halves[j - 1]) then 1 else 0;
      ByScript(p, halves, i, j - 1) + last
  }

  /** Times of the fallback calls. */
  function Locals(halves: seq<Half>): seq<real> {
    if halves == [] then []
    else
      var n := |halves| - 1;
      Locals(halves[..n]) + if halves[n].Local? then [halves[n].now] else []
  }

  /** Grants of the fallback bucket, made full at its first call, from half `i` up to half `j`. */
  function ByLocal(fp: Params, halves: seq<Half>, i: nat, j: nat): nat
    requires i <= j <= |halves|
  {
    var times := Locals(halves);
    if times == [] then 0
    else
      LocalsGrow(halves, i, j);
      Count(Admissions(fp, Full(fp, times[0]), times)[|Locals(halves[..i])|..|Locals(halves[..j])|])
  }

  lemma {:induction false} LocalsPrefix(halves: seq<Half>, j: nat)
    requires j <= |halves|
    ensures Locals(halves[..j]) <= Locals(halves)
  {
    if j == |halves| {
      assert halves[..j] == halves;
    } else {
      var n := |halves| - 1;
      LocalsPrefix(halves[..n], j);
      assert halves[..n][..j] == halves[..j];
    }
  }

  lemma LocalsGrow(halves: seq<Half>, i: nat, j: nat)
    requires i <= j <= |halves|
    ensures |Locals(halves[..i])| <= |Locals(halves[..j])| <= |Locals(halves)|
  {
    LocalsPrefix(halves, j);
    LocalsPrefix(halves[..j], i);
    assert halves[..j][..i] == halves[..i];
  }

  /** Each backend's halves are in the order of its clock, and scripts keep the terms. */
  ghost predicate HalfKeeps(t: Terms, half: Half) {
    half.Script? ==>
      && half.call.now <= half.at && (half.counted ==> half.call.now == half.at)
      && t.offset <= half.call.server - half.at <= t.offset + t.skew
      && half.capacity as real <= t.p.capacity && t.keep <= TtlMs(ParamsOf(t.p, half))
  }

  ghost predicate HalvesKeep(t: Terms, halves: seq<Half>) {
    && (forall k | 0 <= k < |halves| :: HalfKeeps(t, halves[k]))
    && (forall i, j | 0 <= i <= j < |halves| && halves[i].Script? && halves[j].Script? :: halves[i].at <= halves[j].at)
    && (forall i, j | 0 <= i <= j < |halves| && halves[i].Local? && halves[j].Local? :: halves[i].now <= halves[j].now)
  }

  /** All scripts so far ran by time `time`. */
  ghost predicate RanBy(halves: seq<Half>, k: nat, time: real) {
    forall i | 0 <= i < k && i < |halves| && halves[i].Script? :: halves[i].at <= time
  }

  /** A hash that is gone by the time of the script makes no difference: the bucket was full. */
  lemma SeenIsSame(t: Terms, h: Option<Hash>, half: Half)
    requires Sound(t) && half.Script? && HalfKeeps(t, half) && HashOk(t, h, half.at)
    ensures HashOk(t, Visible(h, half.call), half.at)
    ensures Level(t.p, Visible(h, half.call), half.at) == Level(t.p, h, half.at)
  {
    if Visible(h, half.call) != h {
      FullByNow(t.p, h.value, half.at, t.keep - t.skew);
    }
  }

  /** Taking one of the tokens there are, below two caps, with more to come if the script is late. */
  lemma LateTake(tokens: real, wait: real, cap: real, largest: real, counted: bool)
    requires wait >= 0.0 && (counted ==> wait == 0.0) && cap <= largest
    ensures Min(Min(tokens, cap) - 1.0 + wait, largest) + (if counted then 1.0 else 0.0) <= Min(tokens + wait, largest)
  {
  }

  /** What the script leaves, on the hash it sees. */
  lemma ScriptTakes(t: Terms, seen: Option<Hash>, half: Half)
    requires Sound(t) && half.Script? && HalfKeeps(t, half) && HashOk(t, seen, half.at)
    ensures
      var q := ParamsOf(t.p, half);
      var h' := Stored(q, 1.0, TtlSeconds(q), seen, half.call);
      && HashOk(t, h', half.at)
      && Level(t.p, h', half.at)
         + (if half.counted && Answer(q, 1.0, seen, half.call.now).allowed then 1.0 else 0.0)
         <= Level(t.p, seen, half.at)
  {
    var now, at, q := half.call.now, half.at, ParamsOf(t.p, half);
    var wait := Gain(t.p, at - now);
    GainGrows(t.p, 0.0, at - now);
    assert half.counted ==> wait == 0.0;
    if seen.Some? {
      var h := seen.value;
      GainAdds(t.p, now - h.last, at - now);
      assert Gain(q, now - h.last) == Gain(t.p, now - h.last);
      LateTake(h.tokens + Gain(t.p, now - h.last), wait, q.capacity, t.p.capacity, half.counted);
    } else {
      LateTake(t.p.capacity, wait, q.capacity, t.p.capacity, half.counted);
    }
  }

  /** Whether it counts or not, whether it is late or not, a script takes at least what it grants. */
  lemma ScriptHalf(t: Terms, h: Option<Hash>, half: Half)
    requires Sound(t) && half.Script? && HalfKeeps(t, half) && HashOk(t, h, half.at)
    ensures HashOk(t, HashThen(t.p, h, half), half.at)
    ensures Level(t.p, HashThen(t.p, h, half), half.at) + (if ScriptGrants(t.p, h, half) then 1.0 else 0.0)
            <= Level(t.p, h, half.at)
  {
    SeenIsSame(t, h, half);
    ScriptTakes(t, Visible(h, half.call), half);
  }

  lemma {:induction false} HashOfHalves(t: Terms, halves: seq<Half>, k: nat, time: real)
    requires Sound(t) && HalvesKeep(t, halves) && k <= |halves| && RanBy(halves, k, time)
    ensures HashOk(t, HashAfterHalves(t.p, halves[..k]), time)
  {
    if k == 0 {
      assert halves[..k] == [];
    } else {
      assert halves[..k][..k - 1] == halves[..k - 1];
      var half := halves[k - 1];
      if half.Script? {
        HashOfHalves(t, halves, k - 1, half.at);
        assert HalfKeeps(t, half);
        ScriptHalf(t, HashAfterHalves(t.p, halves[..k - 1]), half);
      } else {
        HashOfHalves(t, halves, k - 1, time);
      }
    }
  }

  /** A script and the time after it, measured against the time since `from`. */
  lemma LevelLater(t: Terms, h: Option<Hash>, half: Half, from: real, time: real)
    requires Sound(t) && half.Script? && HalfKeeps(t, half) && HashOk(t, h, half.at) && half.at <= time
    ensures Level(t.p, HashThen(t.p, h, half), time) + (if ScriptGrants(t.p, h, half) then 1.0 else 0.0)
            <= Level(t.p, h, half.at) + (Gain(t.p, time - from) - Gain(t.p, half.at - from))
  {
    ScriptHalf(t, h, half);
    LevelGrows(t.p, HashThen(t.p, h, half), half.at, time);
    GainAdds(t.p, half.at - from, time - half.at);
  }

  lemma {:induction false} ScriptBudget(t: Terms, halves: seq<Half>, i: nat, j: nat, from: real, time: real)
    requires Sound(t) && HalvesKeep(t, halves) && i <= j <= |halves| && from <= time && RanBy(halves, j, time)
    requires forall k | i <= k < j && halves[k].Script? :: from <= halves[k].at
    ensures ByScript(t.p, halves, i, j) as real + Level(t.p, HashAfterHalves(t.p, halves[..j]), time)
            <= t.p.capacity + Gain(t.p, time - from)
  {
    GainGrows(t.p, 0.0, time - from);
    if i < j {
      assert halves[..j][..j - 1] == halves[..j - 1];
      var half := halves[j - 1];
      var h := HashAfterHalves(t.p, halves[..j - 1]);
      if half.Script? {
        ScriptBudget(t, halves, i, j - 1, from, half.at);
        HashOfHalves(t, halves, j - 1, half.at);
        assert HalfKeeps(t, half);
        LevelLater(t, h, half, from, time);
      } else {
        ScriptBudget(t, halves, i, j - 1, from, time);
      }
    }
  }

  lemma {:induction false} LocalsBelow(halves: seq<Half>, time: real)
    requires forall k | 0 <= k < |halves| && halves[k].Local? :: halves[k].now <= time
    ensures forall a | 0 <= a < |Locals(halves)| :: Locals(halves)[a] <= time
  {
    if halves != [] {
      LocalsBelow(halves[..|halves| - 1], time);
    }
  }

  lemma {:induction false} LocalsSorted(halves: seq<Half>)
    requires forall i, j | 0 <= i <= j < |halves| && halves[i].Local? && halves[j].Local? ::
               halves[i].now <= halves[j].now
    ensures forall a, b | 0 <= a <= b < |Locals(halves)| :: Locals(halves)[a] <= Locals(halves)[b]
  {
    if halves != [] {
      var n := |halves| - 1;
      LocalsSorted(halves[..n]);
      if halves[n].Local? {
        LocalsBelow(halves[..n], halves[n].now);
      }
    }
  }

  /** Time between the first and the last fallback call of a window. */
  function LocalSpan(halves: seq<Half>, i: nat, j: nat): real
    requires i <= j <= |halves|
  {
    LocalsGrow(halves, i, j);
    var a, b := |Locals(halves[..i])|, |Locals(halves[..j])|;
    if a < b then Locals(halves)[b - 1] - Locals(halves)[a] else 0.0
  }

  lemma LocalBudget(t: Terms, fp: Params, halves: seq<Half>, i: nat, j: nat)
    requires HalvesKeep(t, halves) && fp.capacity >= 0.0 && fp.rate >= 0.0 && i <= j <= |halves|
    ensures ByLocal(fp, halves, i, j) as real <= fp.capacity + Gain(fp, LocalSpan(halves, i, j))
  {
    var times := Locals(halves);
    LocalsGrow(halves, i, j);
    LocalsSorted(halves);
    var a, b := |Locals(halves[..i])|, |Locals(halves[..j])|;
    assert Gain(fp, 0.0) == 0.0;
    if a < b {
      WindowBound(fp, Full(fp, times[0]), times, a, b);
    }
  }

  /**
   The bound with overlapping checks: for one rate, in every window of every interleaving of
   script runs and fallback calls, late runs of scripts that had timed out included, what
   both backends grant is at most what the two buckets may hand out, each over the time
   its own calls take.
   */
  lemma OverlappingChecksBound(t: Terms, fp: Params, halves: seq<Half>, i: nat, j: nat, from: real, to: real)
    requires Sound(t) && HalvesKeep(t, halves) && fp.capacity >= 0.0 && fp.rate >= 0.0
    requires i <= j <= |halves| && from <= to && RanBy(halves, j, to)
    requires forall k | i <= k < j && halves[k].Script? :: from <= halves[k].at
    ensures (ByScript(t.p, halves, i, j) + ByLocal(fp, halves, i, j)) as real
            <= (t.p.capacity + Gain(t.p, to - from)) + (fp.capacity + Gain(fp, LocalSpan(halves, i, j)))
  {
    ScriptBudget(t, halves, i, j, from, to);
    HashOfHalves(t, halves, j, to);
    LevelNotNegative(t.p, HashAfterHalves(t.p, halves[..j]), to);
    LocalBudget(t, fp, halves, i, j);
  }
}
