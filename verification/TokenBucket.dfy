/** Rounding and saturating casts between the reals that stand for `f64` and whole numbers. */
module Rounding {

  const U64_MAX: int := 0xFFFF_FFFF_FFFF_FFFF

  function Ceil(x: real): (n: int)
    ensures n as real - 1.0 < x <= n as real
  {
    -((-x).Floor)
  }

  /** Rust's `as u64` on a whole float: saturates at both ends. */
  function ToU64(n: int): (r: int)
    ensures 0 <= r <= U64_MAX
    ensures 0 <= n <= U64_MAX <==> r == n
  {
    if n < 0 then 0 else if n > U64_MAX then U64_MAX else n
  }

  function Min(a: real, b: real): real {
    if a <= b then a else b
  }
}

/**
 The in-memory token bucket. Times are milliseconds of a clock with any resolution,
 rates are tokens per second, and tokens are reals.
 */
module TokenBucket {
  import opened Rounding

  datatype Params = Params(capacity: real, rate: real)

  /** Token count as of the instant it was last brought up to date. */
  datatype Bucket = Bucket(tokens: real, last: real)

  datatype Decision = Decision(allowed: bool, remaining: int, retryMs: int)

  function Gain(p: Params, elapsedMs: real): real {
    p.rate * (elapsedMs / 1000.0)
  }

  /** `Instant::duration_since` never goes below zero. */
  function Elapsed(last: real, now: real): real {
    if now < last then 0.0 else now - last
  }

  function Refilled(p: Params, b: Bucket, now: real): real {
    Min(b.tokens + Gain(p, Elapsed(b.last, now)), p.capacity)
  }

  function RetryMs(p: Params, tokens: real): int {
    if p.rate > 0.0 then ToU64(Ceil(((1.0 - tokens) / p.rate) * 1000.0)) else U64_MAX
  }

  function Decide(p: Params, b: Bucket, now: real): Decision {
    var t := Refilled(p, b, now);
    if t >= 1.0 then Decision(true, ToU64((t - 1.0).Floor), 0)
    else Decision(false, 0, RetryMs(p, t))
  }

  function Consume(p: Params, b: Bucket, now: real): Bucket {
    var t := Refilled(p, b, now);
    Bucket(if t >= 1.0 then t - 1.0 else t, now)
  }

  function Full(p: Params, now: real): Bucket {
    Bucket(p.capacity, now)
  }

  class LocalBucket {
    var tokens: real
    const capacity: real
    const refillRate: real
    var lastRefill: real

    ghost function View(): Bucket
      reads this
    {
      Bucket(tokens, lastRefill)
    }

    function Parameters(): Params {
      Params(capacity, refillRate)
    }

    constructor (capacity: real, refillRate: real, now: real)
      ensures Parameters() == Params(capacity, refillRate)
      ensures View() == Full(Parameters(), now)
    {
      this.tokens := capacity;
      this.capacity := capacity;
      this.refillRate := refillRate;
      this.lastRefill := now;
    }

    method Refill(now: real)
      modifies this
      ensures View() == Bucket(Refilled(Parameters(), old(View()), now), now)
    {
      var elapsed := Elapsed(lastRefill, now) / 1000.0;
      var refilled := refillRate * elapsed;
      assert refilled == Gain(Parameters(), Elapsed(lastRefill, now));
      tokens := Min(tokens + refilled, capacity);
      lastRefill := now;
    }

    method TryConsume(now: real) returns (d: Decision)
      modifies this
      ensures d == Decide(Parameters(), old(View()), now)
      ensures View() == Consume(Parameters(), old(View()), now)
    {
      Refill(now);
      if tokens >= 1.0 {
        tokens := tokens - 1.0;
        d := Decision(true, ToU64(tokens.Floor), 0);
      } else {
        var deficit := 1.0 - tokens;
        var retry := if refillRate > 0.0 then ToU64(Ceil((deficit / refillRate) * 1000.0)) else U64_MAX;
        d := Decision(false, 0, retry);
      }
    }
  }
}

/** What every run of one bucket keeps, and what its answers mean. */
module BucketRuns {
  import opened Rounding
  import opened TokenBucket

  /** Request times from `start` on, on a clock that never goes back. */
  ghost predicate Clocked(start: real, times: seq<real>) {
    && (forall i | 0 <= i < |times| :: start <= times[i])
    && (forall i, j | 0 <= i <= j < |times| :: times[i] <= times[j])
  }

  function After(p: Params, b: Bucket, times: seq<real>): Bucket {
    if times == [] then b
    else Consume(p, After(p, b, times[..|times| - 1]), times[|times| - 1])
  }

  /** Which requests of a run the bucket admits. */
  function Admissions(p: Params, b: Bucket, times: seq<real>): (a: seq<bool>)
    ensures |a| == |times|
  {
    if times == [] then []
    else
      var before := times[..|times| - 1];
      Admissions(p, b, before) + [Decide(p, After(p, b, before), times[|times| - 1]).allowed]
  }

  function Count(choice: seq<bool>): nat {
    if choice == [] then 0
    else Count(choice[..|choice| - 1]) + if choice[|choice| - 1] then 1 else 0
  }

  lemma GainGrows(p: Params, a: real, b: real)
    requires 0.0 <= p.rate && a <= b
    ensures Gain(p, a) <= Gain(p, b)
  {
    assert p.rate * ((b - a) / 1000.0) >= 0.0;
  }

  lemma GainAdds(p: Params, a: real, b: real)
    ensures Gain(p, a + b) == Gain(p, a) + Gain(p, b)
  {
  }

  ghost predicate Sane(p: Params, b: Bucket) {
    0.0 <= p.rate && 0.0 <= b.tokens <= p.capacity
  }

  lemma AfterPrefix(p: Params, b: Bucket, times: seq<real>, n: nat)
    requires n < |times|
    ensures After(p, b, times[..n + 1]) == Consume(p, After(p, b, times[..n]), times[n])
  {
    assert times[..n + 1][..n] == times[..n];
  }

  lemma {:induction false} AdmissionAt(p: Params, b: Bucket, times: seq<real>, n: nat)
    requires n < |times|
    ensures Admissions(p, b, times)[n] == Decide(p, After(p, b, times[..n]), times[n]).allowed
    ensures Admissions(p, b, times)[..n] == Admissions(p, b, times[..n])
  {
    var before := times[..|times| - 1];
    if n < |before| {
      AdmissionAt(p, b, before, n);
      assert before[..n] == times[..n];
    }
  }

  lemma {:induction false} SaneAfter(p: Params, b: Bucket, times: seq<real>)
    requires Sane(p, b) && Clocked(b.last, times)
    ensures Sane(p, After(p, b, times))
    ensures After(p, b, times).last == if times == [] then b.last else times[|times| - 1]
  {
    if times != [] {
      var before := times[..|times| - 1];
      SaneAfter(p, b, before);
      var prev := After(p, b, before);
      GainGrows(p, 0.0, Elapsed(prev.last, times[|times| - 1]));
    }
  }

  /** One request spends exactly what it admits: tokens come only from the refill, under the cap. */
  lemma ConsumeConserves(p: Params, b: Bucket, now: real)
    requires 0.0 <= p.rate && b.last <= now
    ensures Consume(p, b, now).tokens + (if Decide(p, b, now).allowed then 1.0 else 0.0)
            == Min(b.tokens + Gain(p, now - b.last), p.capacity)
  {
  }

  function Admits(p: Params, b: Bucket, now: real): nat {
    if Decide(p, b, now).allowed then 1 else 0
  }

  lemma WindowStep(p: Params, b: Bucket, start: real, now: real, count: nat)
    requires 0.0 <= p.rate && start <= b.last <= now
    requires count as real + b.tokens <= p.capacity + Gain(p, b.last - start)
    ensures (count + Admits(p, b, now)) as real + Consume(p, b, now).tokens <= p.capacity + Gain(p, now - start)
  {
    ConsumeConserves(p, b, now);
    GainAdds(p, b.last - start, now - b.last);
  }

  /**
   Admission bound: in every window of every run the bucket admits at most its
   capacity plus what the rate earns over the window. What is left in the bucket at
   the end of the window was not spent, so it counts against the bound too.
   */
  lemma {:induction false} WindowBound(p: Params, b: Bucket, times: seq<real>, i: nat, j: nat)
    requires Sane(p, b) && Clocked(b.last, times)
    requires i < j <= |times|
    ensures Count(Admissions(p, b, times)[i..j]) as real + After(p, b, times[..j]).tokens
            <= p.capacity + Gain(p, times[j - 1] - times[i])
    ensures After(p, b, times[..j]).tokens >= 0.0
    decreases j
  {
    var a := Admissions(p, b, times);
    var n := j - 1;
    var prev := After(p, b, times[..n]);
    SaneAfter(p, b, times[..n]);
    SaneAfter(p, b, times[..j]);
    AfterPrefix(p, b, times, n);
    AdmissionAt(p, b, times, n);
    CountStep(a, i, n);
    if i < n {
      WindowBound(p, b, times, i, n);
      WindowStep(p, prev, times[i], times[n], Count(a[i..n]));
    } else {
      WindowStart(p, prev, times[n]);
      assert a[n..n] == [];
    }
  }

  lemma WindowStart(p: Params, b: Bucket, now: real)
    requires 0.0 <= p.rate && b.last <= now
    ensures Admits(p, b, now) as real + Consume(p, b, now).tokens <= p.capacity + Gain(p, now - now)
  {
    ConsumeConserves(p, b, now);
    assert Gain(p, now - now) == 0.0;
  }

  lemma CountStep(a: seq<bool>, i: nat, n: nat)
    requires i <= n < |a|
    ensures Count(a[i..n + 1]) == Count(a[i..n]) + if a[n] then 1 else 0
  {
    assert a[i..n + 1][..n - i] == a[i..n];
  }

  // Greedy optimality

  /** Bucket level when the requests marked in `choice` are admitted, whatever the level is. */
  function UnderPolicy(p: Params, b: Bucket, times: seq<real>, choice: seq<bool>): Bucket
    requires |times| == |choice|
  {
    if times == [] then b
    else
      var n := |times| - 1;
      var t := Refilled(p, UnderPolicy(p, b, times[..n], choice[..n]), times[n]);
      Bucket(if choice[n] then t - 1.0 else t, times[n])
  }

  /** A choice of admissions that never overdraws the bucket. */
  ghost predicate Feasible(p: Params, b: Bucket, times: seq<real>, choice: seq<bool>) {
    && |times| == |choice|
    && forall n | 0 <= n <= |times| :: UnderPolicy(p, b, times[..n], choice[..n]).tokens >= 0.0
  }

  lemma {:induction false} OwnPolicy(p: Params, b: Bucket, times: seq<real>)
    ensures UnderPolicy(p, b, times, Admissions(p, b, times)) == After(p, b, times)
  {
    if times != [] {
      var n := |times| - 1;
      OwnPolicy(p, b, times[..n]);
      assert Admissions(p, b, times)[..n] == Admissions(p, b, times[..n]);
    }
  }

  lemma GreedyIsFeasible(p: Params, b: Bucket, times: seq<real>)
    requires Sane(p, b) && Clocked(b.last, times)
    ensures Feasible(p, b, times, Admissions(p, b, times))
  {
    var a := Admissions(p, b, times);
    forall n | 0 <= n <= |times|
      ensures UnderPolicy(p, b, times[..n], a[..n]).tokens >= 0.0
    {
      if n < |times| {
        AdmissionAt(p, b, times, n);
      } else {
        assert times[..n] == times && a[..n] == a;
      }
      OwnPolicy(p, b, times[..n]);
      SaneAfter(p, b, times[..n]);
    }
  }

  lemma FeasiblePrefix(p: Params, b: Bucket, times: seq<real>, choice: seq<bool>, n: nat)
    requires Feasible(p, b, times, choice) && n <= |times|
    ensures Feasible(p, b, times[..n], choice[..n])
  {
    forall m | 0 <= m <= n
      ensures UnderPolicy(p, b, times[..n][..m], choice[..n][..m]).tokens >= 0.0
    {
      assert times[..n][..m] == times[..m] && choice[..n][..m] == choice[..m];
    }
  }

  /** The greedy bucket is ahead by a whole number of admissions, and that lead covers any shortfall of tokens. */
  lemma {:induction false} GreedyLead(p: Params, b: Bucket, times: seq<real>, choice: seq<bool>)
    requires Sane(p, b) && Clocked(b.last, times)
    requires Feasible(p, b, times, choice)
    ensures Count(choice) <= Count(Admissions(p, b, times))
    ensures UnderPolicy(p, b, times, choice).tokens
            <= After(p, b, times).tokens + (Count(Admissions(p, b, times)) - Count(choice)) as real
    ensures UnderPolicy(p, b, times, choice).last == After(p, b, times).last
  {
    if times != [] {
      var n := |times| - 1;
      FeasiblePrefix(p, b, times, choice, n);
      GreedyLead(p, b, times[..n], choice[..n]);
      assert times[..n + 1] == times && choice[..n + 1] == choice;
      assert UnderPolicy(p, b, times[..n + 1], choice[..n + 1]).tokens >= 0.0;
      assert Admissions(p, b, times)[..n] == Admissions(p, b, times[..n]);
    }
  }

  /**
   Greedy optimality: after every prefix of every run the bucket has admitted at least
   as many requests as any other choice that never overdraws a bucket of the same
   capacity and rate, and its own choice is such a choice.
   */
  lemma GreedyOptimal(p: Params, b: Bucket, times: seq<real>, choice: seq<bool>, n: nat)
    requires Sane(p, b) && Clocked(b.last, times)
    requires Feasible(p, b, times, choice) && n <= |times|
    ensures Count(choice[..n]) <= Count(Admissions(p, b, times)[..n])
    ensures Feasible(p, b, times, Admissions(p, b, times))
  {
    GreedyIsFeasible(p, b, times);
    FeasiblePrefix(p, b, times, choice, n);
    GreedyLead(p, b, times[..n], choice[..n]);
    if n < |times| {
      AdmissionAt(p, b, times, n);
    } else {
      assert times[..n] == times && Admissions(p, b, times)[..n] == Admissions(p, b, times);
    }
  }

  // Exact retry times

  /** The wait that refills `deficit` tokens, in whole milliseconds, is the least one that does. */
  lemma WaitIsExact(p: Params, deficit: real, d: int)
    requires p.rate > 0.0
    ensures Gain(p, d as real) >= deficit <==> d >= Ceil((deficit / p.rate) * 1000.0)
  {
    var x := (deficit / p.rate) * 1000.0;
    assert Gain(p, x) == deficit by {
      assert (x / 1000.0) == deficit / p.rate;
      assert p.rate * (deficit / p.rate) == deficit;
    }
    if d >= Ceil(x) {
      GainGrows(p, x, d as real);
    } else {
      assert p.rate * ((x - d as real) / 1000.0) > 0.0;
      GainAdds(p, d as real, x - d as real);
    }
  }

  function Wait(p: Params, tokens: real): int
    requires p.rate > 0.0
  {
    Ceil(((1.0 - tokens) / p.rate) * 1000.0)
  }

  lemma RetryAt(p: Params, b: Bucket, d: nat)
    requires 0.0 <= b.tokens < 1.0 <= p.capacity && p.rate > 0.0
    ensures Wait(p, b.tokens) > 0
    ensures Decide(p, b, b.last + d as real).allowed <==> d >= Wait(p, b.tokens)
  {
    WaitIsExact(p, 1.0 - b.tokens, d);
    WaitIsExact(p, 1.0 - b.tokens, 0);
    assert Elapsed(b.last, b.last + d as real) == d as real;
  }

  /** What a denial says about the requests that follow it. */
  lemma RetryFrom(p: Params, b: Bucket, now: real, d: nat)
    requires Sane(p, b) && b.last <= now && p.capacity >= 1.0 && p.rate > 0.0
    requires !Decide(p, b, now).allowed
    ensures
      var denied := Consume(p, b, now);
      var wait := Wait(p, denied.tokens);
      && wait > 0
      && (Decide(p, denied, now + d as real).allowed <==> d >= wait)
      && Decide(p, b, now).retryMs == (if wait <= U64_MAX then wait else U64_MAX)
  {
    GainGrows(p, 0.0, now - b.last);
    RetryAt(p, Consume(p, b, now), d);
  }

  /**
   Retry times are exact: after any run that ends in a denial, the next request `d`
   whole milliseconds later is admitted exactly when `d` reaches the wait. The answer
   reports that wait exactly when it fits 64 bits, and the largest 64-bit number otherwise.
   */
  lemma RetryIsExact(p: Params, b: Bucket, times: seq<real>, now: real, d: nat)
    requires Sane(p, b) && p.capacity >= 1.0 && p.rate > 0.0
    requires Clocked(b.last, times + [now])
    requires !Decide(p, After(p, b, times), now).allowed
    ensures
      var denied := After(p, b, times + [now]);
      var wait := Wait(p, denied.tokens);
      && wait > 0
      && (Decide(p, denied, now + d as real).allowed <==> d >= wait)
      && Decide(p, After(p, b, times), now).retryMs == (if wait <= U64_MAX then wait else U64_MAX)
  {
    var all := times + [now];
    assert all[..|times|] == times && all[|times|] == now;
    assert Clocked(b.last, times) by {
      assert forall i | 0 <= i < |times| :: times[i] == all[i];
    }
    SaneAfter(p, b, times);
    RetryFrom(p, After(p, b, times), now, d);
  }
}
