/**
 The Redis form of the token bucket: a script that runs atomically on the server, writes
 its hash only when it admits, and lets the key expire.
 */
module RedisScript {
  import opened Wrappers
  import opened Rounding
  import opened TokenBucket

  /** Fields of the stored hash, and the server time from which Redis may drop it. */
  datatype Hash = Hash(tokens: real, last: real, deadline: real)

  datatype Reply = Reply(allowed: bool, remaining: int, retryMs: int)

  /**
   One execution of the script: the gateway clock it is given, the server's own clock,
   and whether the server has by then dropped the key if it was free to do so.
   */
  datatype Call = Call(now: real, server: real, dropped: bool)

  function TtlSeconds(p: Params): int {
    if p.rate <= 0.0 then 3600 else ToU64(Ceil((p.capacity / p.rate) * 2.0))
  }

  function TtlMs(p: Params): real {
    TtlSeconds(p) as real * 1000.0
  }

  /** Redis keeps a hash until its deadline; from then on it may be gone. */
  function Visible(h: Option<Hash>, c: Call): Option<Hash> {
    if h.Some? && h.value.deadline <= c.server && c.dropped then None else h
  }

  /** Tokens available to a request at `now`: an absent key counts as a full bucket. */
  function Level(p: Params, h: Option<Hash>, now: real): real {
    match h
    case None => p.capacity
    case Some(s) => Min(s.tokens + Gain(p, now - s.last), p.capacity)
  }

  function Answer(p: Params, requested: real, h: Option<Hash>, now: real): Reply
    requires p.rate > 0.0
  {
    var t := Level(p, h, now);
    if t >= requested then Reply(true, (t - requested).Floor, 0)
    else Reply(false, 0, Ceil(((requested - t) / p.rate) * 1000.0))
  }

  function Stored(p: Params, requested: real, ttlSeconds: int, h: Option<Hash>, c: Call): Option<Hash> {
    var t := Level(p, h, c.now);
    if t >= requested then Some(Hash(t - requested, c.now, c.server + ttlSeconds as real * 1000.0))
    else h
  }

  function Lookup(hashes: map<string, Hash>, key: string): Option<Hash> {
    if key in hashes then Some(hashes[key]) else None
  }

  function Put(hashes: map<string, Hash>, key: string, h: Option<Hash>): map<string, Hash> {
    if h.Some? then hashes[key := h.value] else hashes - {key}
  }

  class RedisServer {
    var hashes: map<string, Hash>

    constructor ()
      ensures hashes == map[]
    {
      hashes := map[];
    }

    method Eval(key: string, c: Call, p: Params, requested: real, ttlSeconds: int) returns (r: Reply)
      requires p.rate > 0.0
      modifies this
      ensures r == Answer(p, requested, Visible(old(Lookup(hashes, key)), c), c.now)
      ensures hashes == Put(old(hashes), key, Stored(p, requested, ttlSeconds, Visible(old(Lookup(hashes, key)), c), c))
    {
      if key in hashes && hashes[key].deadline <= c.server && c.dropped {
        hashes := hashes - {key};
      }
      var tokens := if key in hashes then hashes[key].tokens else p.capacity;
      var last := if key in hashes then hashes[key].last else c.now;
      var elapsed := (c.now - last) / 1000.0;
      var refilled := p.rate * elapsed;
      assert refilled == Gain(p, c.now - last);
      var newTokens := Min(tokens + refilled, p.capacity);
      if newTokens >= requested {
        newTokens := newTokens - requested;
        hashes := hashes[key := Hash(newTokens, c.now, c.server + ttlSeconds as real * 1000.0)];
        r := Reply(true, newTokens.Floor, 0);
      } else {
        var deficit := requested - newTokens;
        r := Reply(false, 0, Ceil((deficit / p.rate) * 1000.0));
      }
    }
  }
}

/** The script against the in-memory bucket: same answers, expired keys included. */
module EagerLazy {
  import opened Wrappers
  import opened Rounding
  import opened TokenBucket
  import opened BucketRuns
  import opened RedisScript

  function Times(calls: seq<Call>): (ts: seq<real>)
    ensures |ts| == |calls|
    ensures forall i | 0 <= i < |calls| :: ts[i] == calls[i].now
  {
    seq(|calls|, i requires 0 <= i < |calls| => calls[i].now)
  }

  /** The hash after a run of single-token requests on a key that starts absent. */
  function HashAfter(p: Params, calls: seq<Call>): Option<Hash> {
    if calls == [] then None
    else
      var n := |calls| - 1;
      Stored(p, 1.0, TtlSeconds(p), Visible(HashAfter(p, calls[..n]), calls[n]), calls[n])
  }

  function AnswerAt(p: Params, calls: seq<Call>, n: nat): Reply
    requires p.rate > 0.0 && n < |calls|
  {
    Answer(p, 1.0, Visible(HashAfter(p, calls[..n]), calls[n]), calls[n].now)
  }

  /** Server clock minus gateway clock stays within a band of width `skew`. */
  ghost predicate InBand(offset: real, skew: real, c: Call) {
    offset <= c.server - c.now <= offset + skew
  }

  ghost predicate Banded(offset: real, skew: real, calls: seq<Call>) {
    forall i | 0 <= i < |calls| :: InBand(offset, skew, calls[i])
  }

  /** A key that outlives `skew` and the time to fill the bucket from empty. */
  ghost predicate OutlivesRefill(p: Params, skew: real) {
    Gain(p, TtlMs(p) - skew) >= p.capacity
  }

  /** What the stored hash says about the bucket that writes on every call. */
  ghost predicate Mirrors(p: Params, offset: real, skew: real, b: Bucket, h: Option<Hash>) {
    match h
    case None => b.tokens == p.capacity
    case Some(s) =>
      && 0.0 <= s.tokens
      && s.last <= b.last
      && offset <= s.deadline - TtlMs(p) - s.last <= offset + skew
      && b.tokens == Min(s.tokens + Gain(p, b.last - s.last), p.capacity)
  }

  ghost predicate SameAnswer(d: Decision, r: Reply) {
    d.allowed == r.allowed && d.remaining == ToU64(r.remaining) && d.retryMs == ToU64(r.retryMs)
  }

  lemma LevelsMeet(p: Params, offset: real, skew: real, b: Bucket, h: Option<Hash>, c: Call)
    requires p.rate > 0.0 && b.last <= c.now && InBand(offset, skew, c)
    requires OutlivesRefill(p, skew) && Mirrors(p, offset, skew, b, h)
    ensures Level(p, Visible(h, c), c.now) == Refilled(p, b, c.now)
  {
    GainGrows(p, 0.0, c.now - b.last);
    if h.Some? {
      var s := h.value;
      assert Level(p, h, c.now) == Min(s.tokens + Gain(p, c.now - s.last), p.capacity);
      GainAdds(p, b.last - s.last, c.now - b.last);
      if Visible(h, c) != h {
        GainGrows(p, TtlMs(p) - skew, c.now - s.last);
      }
    }
  }

  lemma MirrorStep(p: Params, offset: real, skew: real, b: Bucket, h: Option<Hash>, c: Call)
    requires p.rate > 0.0 && b.last <= c.now && InBand(offset, skew, c)
    requires OutlivesRefill(p, skew) && Mirrors(p, offset, skew, b, h)
    ensures Mirrors(p, offset, skew, Consume(p, b, c.now), Stored(p, 1.0, TtlSeconds(p), Visible(h, c), c))
    ensures SameAnswer(Decide(p, b, c.now), Answer(p, 1.0, Visible(h, c), c.now))
  {
    LevelsMeet(p, offset, skew, b, h, c);
    assert Gain(p, c.now - c.now) == 0.0;
  }

  lemma {:induction false} MirrorsAlways(p: Params, offset: real, skew: real, start: real, calls: seq<Call>)
    requires p.rate > 0.0 && OutlivesRefill(p, skew)
    requires Clocked(start, Times(calls)) && Banded(offset, skew, calls)
    ensures
      var b := After(p, Full(p, start), Times(calls));
      && Mirrors(p, offset, skew, b, HashAfter(p, calls))
      && b.last == if calls == [] then start else calls[|calls| - 1].now
  {
    if calls != [] {
      var n := |calls| - 1;
      assert Times(calls)[..n] == Times(calls[..n]);
      MirrorsAlways(p, offset, skew, start, calls[..n]);
      MirrorStep(p, offset, skew, After(p, Full(p, start), Times(calls[..n])), HashAfter(p, calls[..n]), calls[n]);
    }
  }

  /**
   Eager and lazy agree: over every run on a clock that does not go back, the script,
   which writes nothing when it denies and may lose its key once the key has expired,
   gives the answers of the in-memory bucket, which writes every time. Its numbers are
   the script's cast to 64 bits.
   */
  lemma EagerLazyAgree(p: Params, offset: real, skew: real, start: real, calls: seq<Call>, n: nat)
    requires p.rate > 0.0 && OutlivesRefill(p, skew)
    requires Clocked(start, Times(calls)) && Banded(offset, skew, calls)
    requires n < |calls|
    ensures SameAnswer(Decide(p, After(p, Full(p, start), Times(calls)[..n]), calls[n].now), AnswerAt(p, calls, n))
  {
    assert Times(calls)[..n] == Times(calls[..n]);
    MirrorsAlways(p, offset, skew, start, calls[..n]);
    MirrorStep(p, offset, skew, After(p, Full(p, start), Times(calls[..n])), HashAfter(p, calls[..n]), calls[n]);
  }

  /** The time to live covers twice the refill time exactly when that fits 64 bits. */
  lemma TtlCoversTwoRefills(p: Params)
    requires p.rate > 0.0 && p.capacity >= 0.0
    ensures TtlSeconds(p) as real >= (p.capacity / p.rate) * 2.0 <==> (p.capacity / p.rate) * 2.0 <= U64_MAX as real
  {
    var x := (p.capacity / p.rate) * 2.0;
    assert p.capacity / p.rate >= 0.0;
    assert x <= Ceil(x) as real < x + 1.0;
  }

  /** With that time to live a key outlives a refill even if the clocks drift apart by a whole refill. */
  lemma TtlOutlivesRefill(p: Params, skew: real)
    requires p.rate > 0.0 && p.capacity >= 0.0
    requires (p.capacity / p.rate) * 2.0 <= U64_MAX as real
    requires skew <= (p.capacity / p.rate) * 1000.0
    ensures OutlivesRefill(p, skew)
  {
    TtlCoversTwoRefills(p);
    var fill := p.capacity / p.rate;
    GainGrows(p, fill * 1000.0, TtlMs(p) - skew);
    assert p.rate * fill == p.capacity;
  }

  /** The tokens the script sees are those of the bucket that writes on every call. */
  lemma LevelAt(p: Params, offset: real, skew: real, start: real, calls: seq<Call>, n: nat)
    requires p.rate > 0.0 && OutlivesRefill(p, skew)
    requires Clocked(start, Times(calls)) && Banded(offset, skew, calls)
    requires n < |calls|
    ensures Level(p, Visible(HashAfter(p, calls[..n]), calls[n]), calls[n].now)
         == Refilled(p, After(p, Full(p, start), Times(calls)[..n]), Times(calls)[n])
  {
    assert Times(calls)[..n] == Times(calls[..n]);
    MirrorsAlways(p, offset, skew, start, calls[..n]);
    LevelsMeet(p, offset, skew, After(p, Full(p, start), Times(calls[..n])), HashAfter(p, calls[..n]), calls[n]);
  }

  /**
   Expiry cannot be observed: two runs of the script that differ only in when Redis
   drops expired keys give the same reply to every call, even if the two clocks drift
   apart by as much as the time to fill the bucket.
   */
  lemma ExpiryInvisible(p: Params, offset: real, calls: seq<Call>, others: seq<Call>, n: nat)
    requires p.rate > 0.0 && p.capacity >= 0.0
    requires (p.capacity / p.rate) * 2.0 <= U64_MAX as real
    requires |calls| == |others| && n < |calls|
    requires forall i | 0 <= i < |calls| :: calls[i].now == others[i].now
    requires Clocked(calls[0].now, Times(calls))
    requires Banded(offset, (p.capacity / p.rate) * 1000.0, calls)
    requires Banded(offset, (p.capacity / p.rate) * 1000.0, others)
    ensures AnswerAt(p, calls, n) == AnswerAt(p, others, n)
  {
    var skew := (p.capacity / p.rate) * 1000.0;
    var start := calls[0].now;
    TtlOutlivesRefill(p, skew);
    assert Times(calls) == Times(others);
    LevelAt(p, offset, skew, start, calls, n);
    LevelAt(p, offset, skew, start, others, n);
  }

  lemma ScriptRetryStep(p: Params, offset: real, skew: real, b: Bucket, h: Option<Hash>, c: Call, next: Call, d: nat)
    requires p.rate > 0.0 && p.capacity >= 1.0 && Sane(p, b) && b.last <= c.now
    requires InBand(offset, skew, c) && InBand(offset, skew, next) && next.now == c.now + d as real
    requires OutlivesRefill(p, skew) && Mirrors(p, offset, skew, b, h)
    requires !Answer(p, 1.0, Visible(h, c), c.now).allowed
    ensures
      var after := Stored(p, 1.0, TtlSeconds(p), Visible(h, c), c);
      Answer(p, 1.0, Visible(after, next), next.now).allowed
      <==> d >= Answer(p, 1.0, Visible(h, c), c.now).retryMs
  {
    LevelsMeet(p, offset, skew, b, h, c);
    var denied := Consume(p, b, c.now);
    MirrorStep(p, offset, skew, b, h, c);
    MirrorStep(p, offset, skew, denied, Stored(p, 1.0, TtlSeconds(p), Visible(h, c), c), next);
    GainGrows(p, 0.0, c.now - b.last);
    RetryAt(p, denied, d);
  }

  /** The script's waits are exact as well: it keeps the hash it denied on. */
  lemma ScriptRetryIsExact(p: Params, offset: real, skew: real, start: real, calls: seq<Call>, next: Call, d: nat)
    requires p.rate > 0.0 && p.capacity >= 1.0 && OutlivesRefill(p, skew)
    requires calls != [] && next.now == calls[|calls| - 1].now + d as real
    requires Clocked(start, Times(calls)) && Banded(offset, skew, calls) && InBand(offset, skew, next)
    requires !AnswerAt(p, calls, |calls| - 1).allowed
    ensures AnswerAt(p, calls + [next], |calls|).allowed <==> d >= AnswerAt(p, calls, |calls| - 1).retryMs
  {
    var n := |calls| - 1;
    var b := After(p, Full(p, start), Times(calls[..n]));
    assert Times(calls)[..n] == Times(calls[..n]) && (calls + [next])[..n + 1] == calls;
    MirrorsAlways(p, offset, skew, start, calls[..n]);
    SaneAfter(p, Full(p, start), Times(calls[..n]));
    ScriptRetryStep(p, offset, skew, b, HashAfter(p, calls[..n]), calls[n], next, d);
  }
}
