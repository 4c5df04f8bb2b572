/** Token validation against a provider's key set, and the cache that holds the set. */
module Jwks {
  import opened Wrappers

  datatype RawKey = RawKey(kty: string, kid: string, n: string, e: string)

  datatype Key = Key(kid: string, n: string, e: string)

  datatype Header = Header(rs256: bool, kid: Option<string>)

  datatype Claims = Claims(
    sub: Option<string>,
    iss: Option<string>,
    aud: seq<string>,
    scope: Option<string>,
    scp: Option<seq<string>>,
    exp: Option<int>)

  datatype Identity = Identity(sub: string, iss: string, aud: seq<string>, scopes: seq<string>, exp: int)

  /** The ways signature and claim verification can fail. */
  datatype VerifyError = BadSignature | BadIssuer | BadAudience | Expired | NotYetValid | Other

  datatype AuthError =
    | InvalidToken
    | UnsupportedAlgorithm
    | UnknownKeyId
    | InvalidSignature
    | InvalidIssuer
    | InvalidAudience
    | TokenExpired
    | TokenNotYetValid
    | MissingSubject
    | InsufficientScopes
    | AuthProviderUnavailable
    | JwksFetch

  /** What the libraries decide: RSA components, token headers, signatures and claims at a time, white space. */
  datatype Library = Library(
    rsaOk: (string, string) -> bool,
    header: string -> Option<Header>,
    verify: (string, Key, real) -> Result<Claims, VerifyError>,
    words: string -> seq<string>)

  // Key sets

  predicate Usable(x: Library, raw: RawKey) {
    raw.kty == "RSA" ==> x.rsaOk(raw.n, raw.e)
  }

  /** The RSA keys of a document, in order. */
  function RsaKeys(doc: seq<RawKey>): seq<Key> {
    if doc == [] then []
    else
      var n := |doc| - 1;
      RsaKeys(doc[..n]) + if doc[n].kty == "RSA" then [Key(doc[n].kid, doc[n].n, doc[n].e)] else []
  }

  /** One RSA key that does not parse spoils the whole document; keys of other types are skipped. */
  method ParseJwksKeys(x: Library, doc: seq<RawKey>) returns (r: Result<seq<Key>, AuthError>)
    ensures r.Ok? <==> forall i | 0 <= i < |doc| :: Usable(x, doc[i])
    ensures r.Ok? ==> r.value == RsaKeys(doc)
    ensures r.Err? ==> r.error == JwksFetch
  {
    var keys := [];
    for i := 0 to |doc|
      invariant forall j | 0 <= j < i :: Usable(x, doc[j])
      invariant keys == RsaKeys(doc[..i])
    {
      var raw := doc[i];
      assert doc[..i + 1][..i] == doc[..i];
      if raw.kty == "RSA" {
        if !x.rsaOk(raw.n, raw.e) {
          return Err(JwksFetch);
        }
        keys := keys + [Key(raw.kid, raw.n, raw.e)];
      }
    }
    assert doc[..|doc|] == doc;
    r := Ok(keys);
  }

  /** The first key with the given id. */
  function FindKey(keys: seq<Key>, kid: string): (r: Option<Key>)
    ensures r.None? <==> forall k | k in keys :: k.kid != kid
    ensures r.Some? ==> r.value in keys && r.value.kid == kid
  {
    if keys == [] then None
    else if keys[0].kid == kid then Some(keys[0])
    else FindKey(keys[1..], kid)
  }

  predicate FirstWithId(keys: seq<Key>, kid: string, i: int) {
    0 <= i < |keys| && keys[i].kid == kid && forall j | 0 <= j < i :: keys[j].kid != kid
  }

  /** The key found is the first with the id, counted from the front. */
  lemma {:induction false} FoundIsFirst(keys: seq<Key>, kid: string, i: int)
    requires FirstWithId(keys, kid, i)
    ensures FindKey(keys, kid) == Some(keys[i])
  {
    if i > 0 {
      FoundIsFirst(keys[1..], kid, i - 1);
    }
  }

  lemma {:induction false} FirstExists(keys: seq<Key>, kid: string) returns (i: int)
    requires FindKey(keys, kid).Some?
    ensures FirstWithId(keys, kid, i)
  {
    if keys[0].kid == kid {
      i := 0;
    } else {
      i := FirstExists(keys[1..], kid);
      i := i + 1;
    }
  }

  ghost predicate Unambiguous(keys: seq<Key>) {
    forall j, k | j in keys && k in keys && j.kid == k.kid :: j == k
  }

  ghost predicate SameKeys(a: seq<Key>, b: seq<Key>) {
    forall k :: k in a <==> k in b
  }

  /**
   Look-up by id depends on the set of keys alone, not on their order or repetition,
   exactly when no id is shared by two different keys.
   */
  lemma LookupByIdIff(keys: seq<Key>)
    ensures Unambiguous(keys)
       <==> forall other, kid | SameKeys(keys, other) :: FindKey(other, kid) == FindKey(keys, kid)
  {
    if !Unambiguous(keys) {
      var j, k :| j in keys && k in keys && j.kid == k.kid && j != k;
      var a, b := [j] + keys, [k] + keys;
      assert SameKeys(keys, a) && SameKeys(keys, b);
      assert FindKey(a, j.kid) == Some(j) && FindKey(b, j.kid) == Some(k);
    }
  }

  // Tokens

  function Mapped(e: VerifyError): AuthError {
    match e
    case BadSignature => InvalidSignature
    case BadIssuer => InvalidIssuer
    case BadAudience => InvalidAudience
    case Expired => TokenExpired
    case NotYetValid => TokenNotYetValid
    case Other => InvalidToken
  }

  function Scopes(x: Library, c: Claims): seq<string> {
    if c.scope.Some? then x.words(c.scope.value) else if c.scp.Some? then c.scp.value else []
  }

  /** Accepts only on a verified signature by a key of the set, with every required scope and a subject. */
  function ValidateToken(x: Library, token: string, keys: seq<Key>, required: seq<string>,
                         now: real): (r: Result<Identity, AuthError>)
    ensures r == Err(UnknownKeyId) <==>
            && x.header(token).Some? && x.header(token).value.rs256
            && (x.header(token).value.kid.Some? ==> forall k | k in keys :: k.kid != x.header(token).value.kid.value)
    ensures r.Ok? ==>
              && (forall s | s in required :: s in r.value.scopes)
              && exists k | k in keys ::
                  x.verify(token, k, now).Ok? && x.verify(token, k, now).value.sub == Some(r.value.sub)
    ensures r.Err? ==> r.error != AuthProviderUnavailable && r.error != JwksFetch
  {
    var header := x.header(token);
    if header.None? then Err(InvalidToken)
    else if !header.value.rs256 then Err(UnsupportedAlgorithm)
    else if header.value.kid.None? then Err(UnknownKeyId)
    else
      var key := FindKey(keys, header.value.kid.value);
      if key.None? then Err(UnknownKeyId)
      else
        match x.verify(token, key.value, now)
        case Err(e) => Err(Mapped(e))
        case Ok(claims) =>
          var scopes := Scopes(x, claims);
          if exists s | s in required :: s !in scopes then Err(InsufficientScopes)
          else if claims.sub.None? then Err(MissingSubject)
          else
            Ok(Identity(
                 claims.sub.value,
                 if claims.iss.Some? then claims.iss.value else "",
                 claims.aud,
                 scopes,
                 if claims.exp.Some? then claims.exp.value else 0))
  }

  /** The identity that verified claims stand for. */
  ghost predicate Stands(x: Library, c: Claims, who: Identity) {
    && c.sub == Some(who.sub)
    && who.iss == (if c.iss.Some? then c.iss.value else "")
    && who.aud == c.aud
    && who.exp == (if c.exp.Some? then c.exp.value else 0)
    && who.scopes == Scopes(x, c)
  }

  /**
   Acceptance, exactly: a readable RS256 header whose key id is that of a key in the set,
   a token that the first such key verifies now, every required scope, and a subject.
   */
  lemma AcceptsIff(x: Library, token: string, keys: seq<Key>, required: seq<string>, now: real, who: Identity)
    ensures ValidateToken(x, token, keys, required, now) == Ok(who) <==>
            exists kid, i :: && x.header(token) == Some(Header(true, Some(kid)))
                             && FirstWithId(keys, kid, i)
                             && x.verify(token, keys[i], now).Ok?
                             && Stands(x, x.verify(token, keys[i], now).value, who)
                             && forall s | s in required :: s in who.scopes
  {
    var header := x.header(token);
    if header.Some? && header.value.rs256 && header.value.kid.Some? {
      var kid := header.value.kid.value;
      assert header == Some(Header(true, Some(kid)));
      if FindKey(keys, kid).Some? {
        var i := FirstExists(keys, kid);
        FoundIsFirst(keys, kid, i);
      }
    }
  }

  /** The token's header is in order and the first key with its id gives this outcome. */
  ghost predicate Comes(x: Library, token: string, keys: seq<Key>, now: real, outcome: Result<Claims, VerifyError>) {
    exists kid, i :: && x.header(token) == Some(Header(true, Some(kid)))
                     && FirstWithId(keys, kid, i)
                     && x.verify(token, keys[i], now) == outcome
  }

  /** Refusals, exactly: which error for which cause. */
  lemma RefusesIff(x: Library, token: string, keys: seq<Key>, required: seq<string>, now: real, e: VerifyError)
    ensures
      var r := ValidateToken(x, token, keys, required, now);
      && (r == Err(UnsupportedAlgorithm) <==> x.header(token).Some? && !x.header(token).value.rs256)
      && (r == Err(InsufficientScopes) <==>
            exists c :: Comes(x, token, keys, now, Ok(c)) && exists s | s in required :: s !in Scopes(x, c))
      && (r == Err(MissingSubject) <==>
            exists c :: Comes(x, token, keys, now, Ok(c)) && (forall s | s in required :: s in Scopes(x, c))
                && c.sub.None?)
      && (r == Err(Mapped(e)) <==> Comes(x, token, keys, now, Err(e)) || (e == Other && x.header(token).None?))
  {
    var header := x.header(token);
    if header.Some? && header.value.rs256 && header.value.kid.Some? {
      var kid := header.value.kid.value;
      assert header == Some(Header(true, Some(kid)));
      if FindKey(keys, kid).Some? {
        var i := FirstExists(keys, kid);
        FoundIsFirst(keys, kid, i);
        assert Comes(x, token, keys, now, x.verify(token, keys[i], now));
      }
    }
    forall outcome | Comes(x, token, keys, now, outcome)
      ensures header.Some? && header.value.rs256 && header.value.kid.Some?
      ensures FindKey(keys, header.value.kid.value).Some?
      ensures x.verify(token, FindKey(keys, header.value.kid.value).value, now) == outcome
    {
      var kid, i :| header == Some(Header(true, Some(kid))) && FirstWithId(keys, kid, i)
          && x.verify(token, keys[i], now) == outcome;
      FoundIsFirst(keys, kid, i);
    }
  }

  // The cache

  const STALE_FACTOR: nat := 10

  datatype Cache = Cache(keys: seq<Key>, fetchedAt: real)

  /** Times are in seconds. */
  predicate Stale(c: Cache, ttlSeconds: nat, now: real) {
    now - c.fetchedAt > (ttlSeconds * STALE_FACTOR) as real
  }

  /** What one fetch brought back: nothing usable, or a document. */
  ghost predicate Delivers(x: Library, fetched: Option<seq<RawKey>>) {
    fetched.Some? && forall i | 0 <= i < |fetched.value| :: Usable(x, fetched.value[i])
  }

  ghost function Fetched(x: Library, c: Cache, fetched: Option<seq<RawKey>>, now: real): Cache {
    if Delivers(x, fetched) then Cache(RsaKeys(fetched.value), now) else c
  }

  class JwksCache {
    const x: Library
    const ttlSeconds: nat
    var keys: seq<Key>
    var fetchedAt: real

    ghost function View(): Cache
      reads this
    {
      Cache(keys, fetchedAt)
    }

    /** Empty until the first fetch. */
    constructor (x: Library, ttlSeconds: nat, now: real)
      ensures this.x == x && this.ttlSeconds == ttlSeconds && View() == Cache([], now)
    {
      this.x, this.ttlSeconds := x, ttlSeconds;
      keys, fetchedAt := [], now;
    }

    method FetchAndStore(fetched: Option<seq<RawKey>>, now: real) returns (r: Result<(), AuthError>)
      modifies this
      ensures View() == Fetched(x, old(View()), fetched, now)
      ensures r.Ok? <==> Delivers(x, fetched)
    {
      if fetched.None? {
        return Err(JwksFetch);
      }
      var parsed := ParseJwksKeys(x, fetched.value);
      if parsed.Err? {
        return Err(parsed.error);
      }
      keys := parsed.value;
      fetchedAt := now;
      r := Ok(());
    }
  }
}

/** Key fetches and token checks in any interleaving. */
module JwksRuns {
  import opened Wrappers
  import opened Jwks

  /** Where a call of `validate_with_refresh` stands. */
  datatype Phase =
    | Begun
    | Fresh
    | Holding(keys: seq<Key>)
    | Waiting
    | Done(result: Result<Identity, AuthError>, upTo: nat, at: real)

  /**
   `upTo` and `at` say how long the history was and what time it was when a call ended; `began` is
   the index of the key set that was current when the call started.
   */
  datatype Check = Check(token: string, required: seq<string>, began: nat, start: real, tries: nat, phase: Phase)

  /** `history` lists every state the cache has had, oldest first. */
  datatype System = System(cache: Cache, history: seq<Cache>, now: real, checks: map<nat, Check>)

  datatype Step =
    | Tick(to: real)
    | Fetch(fetched: Option<seq<RawKey>>)
    | Enter(id: nat, token: string, required: seq<string>)
    | TestStale(id: nat)
    | ReadKeys(id: nat)
    | Judge(id: nat)

  ghost predicate Enabled(s: System, step: Step) {
    match step
    case Tick(to) => s.now <= to
    case Fetch(_) => true
    case Enter(id, _, _) => id !in s.checks
    case TestStale(id) => id in s.checks && s.checks[id].phase.Begun?
    case ReadKeys(id) => id in s.checks && (s.checks[id].phase.Fresh? || s.checks[id].phase.Waiting?)
    case Judge(id) => id in s.checks && s.checks[id].phase.Holding?
  }

  /** Validation with the keys in hand; the first unknown key id triggers a refresh and a second read. */
  function Judged(x: Library, c: Check, upTo: nat, now: real): Check
    requires c.phase.Holding?
  {
    var r := ValidateToken(x, c.token, c.phase.keys, c.required, now);
    c.(tries := c.tries + 1, phase := if r == Err(UnknownKeyId) && c.tries == 0 then Waiting else Done(r, upTo, now))
  }

  ghost function Next(x: Library, ttl: nat, s: System, step: Step): System
    requires s.history != [] && Enabled(s, step)
  {
    match step
    case Tick(to) => s.(now := to)
    case Fetch(fetched) =>
      var cache := Fetched(x, s.cache, fetched, s.now);
      s.(cache := cache, history := s.history + if Delivers(x, fetched) then [cache] else [])
    case Enter(id, token, required) =>
      s.(checks := s.checks[id := Check(token, required, |s.history| - 1, s.now, 0, Begun)])
    case TestStale(id) =>
      var phase := if Stale(s.cache, ttl, s.now) then Done(Err(AuthProviderUnavailable), |s.history|, s.now) else Fresh;
      s.(checks := s.checks[id := s.checks[id].(phase := phase)])
    case ReadKeys(id) =>
      s.(checks := s.checks[id := s.checks[id].(phase := Holding(s.cache.keys))])
    case Judge(id) =>
      s.(checks := s.checks[id := Judged(x, s.checks[id], |s.history|, s.now)])
  }

  /** Start up succeeds only with a first fetch that delivers. */
  function Start(doc: seq<RawKey>, now: real): System {
    var cache := Cache(RsaKeys(doc), now);
    System(cache, [cache], now, map[])
  }

  ghost function After(x: Library, ttl: nat, doc: seq<RawKey>, at: real, steps: seq<Step>): (r: Option<System>)
    ensures r.Some? ==> r.value.history != []
  {
    if steps == [] then Some(Start(doc, at))
    else
      match After(x, ttl, doc, at, steps[..|steps| - 1])
      case None => None
      case Some(s) => if Enabled(s, steps[|steps| - 1]) then Some(Next(x, ttl, s, steps[|steps| - 1])) else None
  }

  // What is in the cache

  /** Clock after the steps. */
  ghost function Clock(at: real, steps: seq<Step>): real {
    if steps == [] then at
    else if steps[|steps| - 1].Tick? then steps[|steps| - 1].to
    else Clock(at, steps[..|steps| - 1])
  }

  /** The last delivering fetch of the run, with the time of its commit. */
  ghost function LastDelivery(x: Library, doc: seq<RawKey>, at: real, steps: seq<Step>): (seq<RawKey>, real) {
    if steps == [] then (doc, at)
    else
      var n := |steps| - 1;
      if steps[n].Fetch? && Delivers(x, steps[n].fetched) then (steps[n].fetched.value, Clock(at, steps[..n]))
      else LastDelivery(x, doc, at, steps[..n])
  }

  lemma {:induction false} ClockIs(x: Library, ttl: nat, doc: seq<RawKey>, at: real, steps: seq<Step>)
    requires After(x, ttl, doc, at, steps).Some?
    ensures After(x, ttl, doc, at, steps).value.now == Clock(at, steps)
  {
    if steps != [] {
      ClockIs(x, ttl, doc, at, steps[..|steps| - 1]);
    }
  }

  /** In every interleaving the cache holds the keys and the time of the last successful fetch. */
  lemma {:induction false} CacheIsLastDelivery(x: Library, ttl: nat, doc: seq<RawKey>, at: real, steps: seq<Step>)
    requires After(x, ttl, doc, at, steps).Some?
    ensures
      var (last, time) := LastDelivery(x, doc, at, steps);
      After(x, ttl, doc, at, steps).value.cache == Cache(RsaKeys(last), time)
  {
    if steps != [] {
      CacheIsLastDelivery(x, ttl, doc, at, steps[..|steps| - 1]);
      ClockIs(x, ttl, doc, at, steps[..|steps| - 1]);
    }
  }

  // What a call answers

  /** How far the history reached when the call ended, or reaches now. */
  function Reach(s: System, c: Check): nat {
    if c.phase.Done? then c.phase.upTo else |s.history|
  }

  function Until(s: System, c: Check): real {
    if c.phase.Done? then c.phase.at else s.now
  }

  /** The key set was current at some moment between the call's beginning and its end. */
  ghost predicate CurrentDuring(s: System, c: Check, keys: seq<Key>) {
    exists i :: c.began <= i < Reach(s, c) && i < |s.history| && s.history[i].keys == keys
  }

  /** `r` is the verdict on a key set current during the call, at a time during the call. */
  ghost predicate Verdict(x: Library, s: System, c: Check, keys: seq<Key>, t: real, r: Result<Identity, AuthError>) {
    c.start <= t <= Until(s, c) && CurrentDuring(s, c, keys) && ValidateToken(x, c.token, keys, c.required, t) == r
  }

  ghost predicate Judges(x: Library, s: System, c: Check, r: Result<Identity, AuthError>) {
    exists keys, t :: Verdict(x, s, c, keys, t, r)
  }

  /** The cache had gone stale at a moment during the call. */
  ghost predicate WentStale(ttl: nat, s: System, c: Check) {
    exists i, t :: && c.began <= i < Reach(s, c) && i < |s.history|
                   && c.start <= t <= Until(s, c)
                   && Stale(s.history[i], ttl, t)
  }

  ghost predicate Explained(x: Library, ttl: nat, s: System, c: Check) {
    && c.began < Reach(s, c) <= |s.history| && c.start <= Until(s, c) <= s.now
    && c.tries <= 2
    && (c.phase.Begun? || c.phase.Fresh? ==> c.tries == 0)
    && (c.phase.Waiting? ==> c.tries == 1)
    && (c.phase.Holding? ==> c.tries <= 1 && CurrentDuring(s, c, c.phase.keys))
    && (c.tries >= 1 && (c.phase.Waiting? || c.phase.Holding?) ==> Judges(x, s, c, Err(UnknownKeyId)))
    && (c.phase.Done? ==>
          if c.tries == 0 then c.phase.result == Err(AuthProviderUnavailable) && WentStale(ttl, s, c)
          else
            && Judges(x, s, c, c.phase.result)
            && (c.tries == 1 ==> c.phase.result != Err(UnknownKeyId))
            && (c.tries == 2 ==> Judges(x, s, c, Err(UnknownKeyId))))
  }

  ghost predicate Inv(x: Library, ttl: nat, s: System) {
    && s.history != [] && s.history[|s.history| - 1] == s.cache
    && forall id | id in s.checks :: Explained(x, ttl, s, s.checks[id])
  }

  /** `s'` is a later state: the history has grown and time has passed. */
  ghost predicate Later(s: System, s': System) {
    s.history <= s'.history && s.now <= s'.now
  }

  /** `c'` is the call `c` at a later moment, not ended earlier than it has come. */
  ghost predicate SameCall(s: System, c: Check, s': System, c': Check) {
    && c'.token == c.token && c'.required == c.required && c'.began == c.began && c'.start == c.start
    && Reach(s, c) <= Reach(s', c') && Until(s, c) <= Until(s', c')
  }

  lemma CurrentLater(s: System, s': System, c: Check, c': Check, keys: seq<Key>)
    requires Later(s, s') && SameCall(s, c, s', c') && CurrentDuring(s, c, keys)
    ensures CurrentDuring(s', c', keys)
  {
    var i :| c.began <= i < Reach(s, c) && i < |s.history| && s.history[i].keys == keys;
    assert s'.history[i].keys == keys;
  }

  lemma JudgesLater(x: Library, s: System, s': System, c: Check, c': Check, r: Result<Identity, AuthError>)
    requires Later(s, s') && SameCall(s, c, s', c') && Judges(x, s, c, r)
    ensures Judges(x, s', c', r)
  {
    var keys, t :| Verdict(x, s, c, keys, t, r);
    CurrentLater(s, s', c, c', keys);
    assert Verdict(x, s', c', keys, t, r);
  }

  lemma StaleLater(ttl: nat, s: System, s': System, c: Check)
    requires Later(s, s') && SameCall(s, c, s', c) && WentStale(ttl, s, c)
    ensures WentStale(ttl, s', c)
  {
    var i, t :| c.began <= i < Reach(s, c) && i < |s.history| && c.start <= t <= Until(s, c)
        && Stale(s.history[i], ttl, t);
    assert Stale(s'.history[i], ttl, t);
  }

  lemma ExplainedLater(x: Library, ttl: nat, s: System, s': System, c: Check)
    requires Later(s, s') && Explained(x, ttl, s, c)
    ensures Explained(x, ttl, s', c)
  {
    if c.phase.Holding? {
      CurrentLater(s, s', c, c, c.phase.keys);
    }
    if Judges(x, s, c, Err(UnknownKeyId)) {
      JudgesLater(x, s, s', c, c, Err(UnknownKeyId));
    }
    if c.phase.Done? {
      if c.tries == 0 {
        StaleLater(ttl, s, s', c);
      } else {
        JudgesLater(x, s, s', c, c, c.phase.result);
      }
    }
  }

  /** The call that a step moves is explained afterwards. */
  lemma MovedIsExplained(x: Library, ttl: nat, s: System, step: Step)
    requires Inv(x, ttl, s) && Enabled(s, step) && (step.TestStale? || step.ReadKeys? || step.Judge?)
    ensures Explained(x, ttl, Next(x, ttl, s, step), Next(x, ttl, s, step).checks[step.id])
  {
    var s' := Next(x, ttl, s, step);
    var c, c' := s.checks[step.id], s'.checks[step.id];
    var last := |s.history| - 1;
    assert Explained(x, ttl, s, c);
    match step
    case TestStale(id) =>
      if Stale(s.cache, ttl, s.now) {
        assert Stale(s'.history[last], ttl, s.now);
      }
    case ReadKeys(id) =>
      assert s'.history[last].keys == c'.phase.keys;
      if c.tries == 1 {
        JudgesLater(x, s, s', c, c', Err(UnknownKeyId));
      }
    case Judge(id) =>
      var r := ValidateToken(x, c.token, c.phase.keys, c.required, s.now);
      assert Verdict(x, s, c, c.phase.keys, s.now, r);
      JudgesLater(x, s, s', c, c', r);
      if c.tries == 1 {
        JudgesLater(x, s, s', c, c', Err(UnknownKeyId));
      }
  }

  lemma StepKeepsInv(x: Library, ttl: nat, s: System, step: Step)
    requires Inv(x, ttl, s) && Enabled(s, step)
    ensures Inv(x, ttl, Next(x, ttl, s, step))
  {
    var s' := Next(x, ttl, s, step);
    forall id | id in s'.checks
      ensures Explained(x, ttl, s', s'.checks[id])
    {
      CheckIsExplained(x, ttl, s, step, id);
    }
  }

  lemma CheckIsExplained(x: Library, ttl: nat, s: System, step: Step, id: nat)
    requires Inv(x, ttl, s) && Enabled(s, step) && id in Next(x, ttl, s, step).checks
    ensures Explained(x, ttl, Next(x, ttl, s, step), Next(x, ttl, s, step).checks[id])
  {
    var s' := Next(x, ttl, s, step);
    if step.Tick? || step.Fetch? || step.id != id {
      assert s'.checks[id] == s.checks[id];
      ExplainedLater(x, ttl, s, s', s.checks[id]);
    } else if !step.Enter? {
      MovedIsExplained(x, ttl, s, step);
    }
  }

  lemma {:induction false} AlwaysInv(x: Library, ttl: nat, doc: seq<RawKey>, at: real, steps: seq<Step>)
    requires After(x, ttl, doc, at, steps).Some?
    ensures Inv(x, ttl, After(x, ttl, doc, at, steps).value)
  {
    if steps != [] {
      AlwaysInv(x, ttl, doc, at, steps[..|steps| - 1]);
      StepKeepsInv(x, ttl, After(x, ttl, doc, at, steps[..|steps| - 1]).value, steps[|steps| - 1]);
    }
  }

  /**
   Every finished call, in every interleaving: it was refused because the cache was stale
   at a moment during the call, or its answer is the verdict on one key set that was
   current during the call. A second try happens only after an unknown key id, and there
   is no third.
   */
  lemma AnswersAreExplained(x: Library, ttl: nat, doc: seq<RawKey>, at: real, steps: seq<Step>, id: nat)
    requires After(x, ttl, doc, at, steps).Some?
    requires id in After(x, ttl, doc, at, steps).value.checks
    requires After(x, ttl, doc, at, steps).value.checks[id].phase.Done?
    ensures
      var s := After(x, ttl, doc, at, steps).value;
      var c := s.checks[id];
      && c.tries <= 2
      && (c.tries == 0 ==> c.phase.result == Err(AuthProviderUnavailable) && WentStale(ttl, s, c))
      && (c.tries >= 1 ==> Judges(x, s, c, c.phase.result))
      && (c.tries == 2 ==> Judges(x, s, c, Err(UnknownKeyId)))
      && (c.phase.result == Err(UnknownKeyId) ==> c.tries == 2)
  {
    AlwaysInv(x, ttl, doc, at, steps);
    assert Explained(x, ttl, After(x, ttl, doc, at, steps).value, After(x, ttl, doc, at, steps).value.checks[id]);
  }
}
