/** Which route serves a request: the gateway's own rule and Envoy's reading of the generated config. */
module Routing {
  import opened Wrappers
  import opened Text
  import opened Config
  import opened VirtualHosts
  import opened HostAgreement

  predicate Covers(r: Route, host: string) {
    "*" in r.hostnames || host in r.hostnames
  }

  predicate Candidate(r: Route, host: string, path: string) {
    Covers(r, host) && StartsWith(path, r.pathPrefix)
  }

  /** Longest matching prefix; among equals the last one in config order. */
  function MatchIndex(routes: seq<Route>, host: string, path: string): (m: Option<nat>)
    ensures m.None? ==> forall j | 0 <= j < |routes| :: !Candidate(routes[j], host, path)
    ensures m.Some? ==>
              && m.value < |routes|
              && Candidate(routes[m.value], host, path)
              && forall j | 0 <= j < |routes| && Candidate(routes[j], host, path) ::
                   || |routes[j].pathPrefix| < |routes[m.value].pathPrefix|
                   || (|routes[j].pathPrefix| == |routes[m.value].pathPrefix| && j <= m.value)
  {
    if routes == [] then None
    else
      var n := |routes| - 1;
      var best := MatchIndex(routes[..n], host, path);
      if !Candidate(routes[n], host, path) then best
      else if best.None? || |routes[n].pathPrefix| >= |routes[best.value].pathPrefix| then Some(n)
      else best
  }

  function MatchRoute(routes: seq<Route>, host: string, path: string): Option<Route> {
    var m := MatchIndex(routes, host, path);
    if m.Some? then Some(routes[m.value]) else None
  }

  // Envoy: an exact domain before the wildcard, then the first entry that matches

  function FirstWith<E>(vs: seq<VirtualHost<E>>, domain: string): (i: nat)
    ensures i <= |vs|
    ensures i < |vs| ==> domain in vs[i].domains
    ensures forall k | 0 <= k < i :: domain !in vs[k].domains
  {
    if vs == [] || domain in vs[0].domains then 0 else 1 + FirstWith(vs[1..], domain)
  }

  function SelectHost<E>(vs: seq<VirtualHost<E>>, host: string): Option<nat> {
    var exact, wild := FirstWith(vs, host), FirstWith(vs, "*");
    if exact < |vs| then Some(exact) else if wild < |vs| then Some(wild) else None
  }

  function FirstEntry<T>(entries: seq<Entry<T>>, path: string): (k: nat)
    ensures k <= |entries|
    ensures k < |entries| ==> StartsWith(path, entries[k].prefix)
    ensures forall j | 0 <= j < k :: !StartsWith(path, entries[j].prefix)
  {
    if entries == [] || StartsWith(path, entries[0].prefix) then 0 else 1 + FirstEntry(entries[1..], path)
  }

  /** `vs` lists, group by group in the order of `keys`, what a back end makes of `routes`. */
  ghost predicate Describes<T>(routes: seq<Route>, keys: seq<seq<string>>, vs: Hosts<T>) {
    && |vs| == |keys|
    && (forall k :: k in keys <==> k in FirstKeys(routes))
    && (forall i, d | 0 <= i < |vs| :: d in vs[i].domains <==> d in keys[i])
    && (forall i | 0 <= i < |vs| :: SamePrefixes(vs[i].entries, Members(routes, keys[i])))
  }

  ghost predicate SamePrefixes<T>(entries: seq<Entry<T>>, members: seq<Route>) {
    |entries| == |members| && forall k | 0 <= k < |entries| :: entries[k].prefix == members[k].pathPrefix
  }

  /** The route behind the entry Envoy picks. */
  ghost function EnvoyRoute<T>(routes: seq<Route>, keys: seq<seq<string>>, vs: Hosts<T>, host: string,
                               path: string): Option<Route>
    requires Describes(routes, keys, vs)
  {
    match SelectHost(vs, host)
    case None => None
    case Some(i) =>
      var k := FirstEntry(vs[i].entries, path);
      if k < |vs[i].entries| then Some(Members(routes, keys[i])[k]) else None
  }

  // Positions of group members in the route list

  function MemberIndex(routes: seq<Route>, key: seq<string>, k: nat): (i: nat)
    requires k < |Members(routes, key)|
    ensures i < |routes| && routes[i] == Members(routes, key)[k] && HostKey(routes[i]) == key
  {
    var n := |routes| - 1;
    if k < |Members(routes[..n], key)| then MemberIndex(routes[..n], key, k) else n
  }

  lemma {:induction false} MemberOrder(routes: seq<Route>, key: seq<string>, j: nat, k: nat)
    requires j < k < |Members(routes, key)|
    ensures MemberIndex(routes, key, j) < MemberIndex(routes, key, k)
  {
    var n := |routes| - 1;
    if k < |Members(routes[..n], key)| {
      MemberOrder(routes[..n], key, j, k);
    }
  }

  lemma {:induction false} MemberAt(routes: seq<Route>, i: nat) returns (k: nat)
    requires i < |routes|
    ensures k < |Members(routes, HostKey(routes[i]))|
    ensures MemberIndex(routes, HostKey(routes[i]), k) == i
  {
    var n := |routes| - 1;
    if i == n {
      k := |Members(routes[..n], HostKey(routes[i]))|;
    } else {
      k := MemberAt(routes[..n], i);
    }
  }

  // When the two rules agree

  /** Within a group no earlier prefix hides a later one. */
  ghost predicate LongestFirst(members: seq<Route>) {
    forall i, j | 0 <= i < j < |members| :: !StartsWith(members[j].pathPrefix, members[i].pathPrefix)
  }

  /** A later route of the group `key` takes every request that route `a` would win. */
  ghost predicate Shadowed(routes: seq<Route>, a: nat, key: seq<string>) {
    exists b :: a < b < |routes| && HostKey(routes[b]) == key && a < |routes|
        && routes[b].pathPrefix == routes[a].pathPrefix
  }

  ghost predicate RoutedAlike(routes: seq<Route>, key: seq<string>, host: string) {
    && LongestFirst(Members(routes, key))
    && forall a | 0 <= a < |routes| && Covers(routes[a], host) && HostKey(routes[a]) != key :: Shadowed(routes, a, key)
  }

  lemma PrefixChain(path: string, p: string, q: string)
    requires StartsWith(path, p) && StartsWith(path, q) && |p| <= |q|
    ensures StartsWith(q, p)
  {
    assert q[..|p|] == path[..|p|];
  }

  lemma NotSelected<T>(routes: seq<Route>, keys: seq<seq<string>>, vs: Hosts<T>, host: string)
    requires Describes(routes, keys, vs) && SelectHost(vs, host).None?
    ensures forall r | r in routes :: !Covers(r, host)
  {
    FirstKeysAre(routes);
    forall r | r in routes
      ensures !Covers(r, host)
    {
      assert HostKey(r) in keys;
      var i :| 0 <= i < |keys| && keys[i] == HostKey(r);
      SameNames(r, host);
      SameNames(r, "*");
    }
  }

  lemma SelectedCovers<T>(routes: seq<Route>, keys: seq<seq<string>>, vs: Hosts<T>, host: string, i: nat)
    requires Describes(routes, keys, vs) && SelectHost(vs, host) == Some(i)
    ensures i < |keys|
    ensures forall r | r in routes && HostKey(r) == keys[i] :: Covers(r, host)
  {
    forall r | r in routes && HostKey(r) == keys[i]
      ensures Covers(r, host)
    {
      SameNames(r, host);
      SameNames(r, "*");
    }
  }

  /** A winner outside the group would be shadowed by a later route of the group. */
  lemma BestIsMember(routes: seq<Route>, key: seq<string>, host: string, path: string, b: nat)
    requires RoutedAlike(routes, key, host)
    requires forall r | r in routes && HostKey(r) == key :: Covers(r, host)
    requires MatchIndex(routes, host, path) == Some(b)
    ensures HostKey(routes[b]) == key
  {
    forall c | b < c < |routes| && HostKey(routes[c]) == key
      ensures routes[c].pathPrefix != routes[b].pathPrefix
    {
      assert routes[c] in routes;
      assert !Candidate(routes[c], host, path) || |routes[c].pathPrefix| < |routes[b].pathPrefix|;
    }
  }

  lemma AlikeSuffices<T>(routes: seq<Route>, keys: seq<seq<string>>, vs: Hosts<T>, host: string, i: nat, path: string)
    requires Describes(routes, keys, vs) && SelectHost(vs, host) == Some(i)
    requires RoutedAlike(routes, keys[i], host)
    ensures EnvoyRoute(routes, keys, vs, host, path) == MatchRoute(routes, host, path)
  {
    var members := Members(routes, keys[i]);
    var k := FirstEntry(vs[i].entries, path);
    SelectedCovers(routes, keys, vs, host, i);
    var best := MatchIndex(routes, host, path);
    if k < |members| {
      var at := MemberIndex(routes, keys[i], k);
      assert Candidate(routes[at], host, path);
    }
    if best.Some? {
      var b := best.value;
      BestIsMember(routes, keys[i], host, path, b);
      var m := MemberAt(routes, b);
      assert members[m] == routes[b];
      assert k <= m;
      if k < m {
        PrefixChain(path, members[k].pathPrefix, members[m].pathPrefix);
        assert false;
      }
    }
  }

  lemma Distinct(routes: seq<Route>, a: nat, b: nat)
    requires UniqueNames(routes) && a < |routes| && b < |routes| && routes[a] == routes[b]
    ensures a == b
  {
  }

  /**
   On the path that is exactly the prefix of a covering route, the gateway picks a route with that
   prefix, not earlier.
   */
  lemma OwnPrefix(routes: seq<Route>, host: string, a: nat) returns (b: nat)
    requires a < |routes| && Covers(routes[a], host)
    ensures MatchIndex(routes, host, routes[a].pathPrefix) == Some(b)
    ensures a <= b < |routes| && routes[b].pathPrefix == routes[a].pathPrefix
  {
    var path := routes[a].pathPrefix;
    assert path[..|path|] == path;
    assert Candidate(routes[a], host, path);
    b := MatchIndex(routes, host, path).value;
    assert StartsWith(path, routes[b].pathPrefix);
  }

  lemma AlikeNecessary<T>(routes: seq<Route>, keys: seq<seq<string>>, vs: Hosts<T>, host: string, i: nat)
    requires UniqueNames(routes) && Describes(routes, keys, vs) && SelectHost(vs, host) == Some(i)
    requires forall path :: EnvoyRoute(routes, keys, vs, host, path) == MatchRoute(routes, host, path)
    ensures RoutedAlike(routes, keys[i], host)
  {
    var members := Members(routes, keys[i]);
    SelectedCovers(routes, keys, vs, host, i);
    forall x, y | 0 <= x < y < |members|
      ensures !StartsWith(members[y].pathPrefix, members[x].pathPrefix)
    {
      if StartsWith(members[y].pathPrefix, members[x].pathPrefix) {
        var path := members[y].pathPrefix;
        var at := MemberIndex(routes, keys[i], y);
        var b := OwnPrefix(routes, host, at);
        var k := FirstEntry(vs[i].entries, path);
        assert k <= x;
        MemberOrder(routes, keys[i], k, y);
        assert EnvoyRoute(routes, keys, vs, host, path) == MatchRoute(routes, host, path);
        Distinct(routes, MemberIndex(routes, keys[i], k), b);
        assert false;
      }
    }
    forall a | 0 <= a < |routes| && Covers(routes[a], host) && HostKey(routes[a]) != keys[i]
      ensures Shadowed(routes, a, keys[i])
    {
      var b := OwnPrefix(routes, host, a);
      assert EnvoyRoute(routes, keys, vs, host, routes[a].pathPrefix) == MatchRoute(routes, host, routes[a].pathPrefix);
      var k := FirstEntry(vs[i].entries, routes[a].pathPrefix);
      Distinct(routes, MemberIndex(routes, keys[i], k), b);
    }
  }

  /**
   Routing, exactly. For a host, Envoy's first match over the generated virtual hosts and
   the gateway's longest match agree on every path if and only if, in the virtual host
   Envoy selects, no earlier prefix is a prefix of a later one, and every covering route
   outside it has a later route with the same prefix inside it. A host no virtual host
   serves is served by no route either.
   */
  lemma RoutingAgreesIff<T>(routes: seq<Route>, keys: seq<seq<string>>, vs: Hosts<T>, host: string)
    requires UniqueNames(routes) && Describes(routes, keys, vs)
    ensures (forall path :: EnvoyRoute(routes, keys, vs, host, path) == MatchRoute(routes, host, path))
       <==> match SelectHost(vs, host)
            case None => true
            case Some(i) => RoutedAlike(routes, keys[i], host)
  {
    match SelectHost(vs, host)
    case None =>
      NotSelected(routes, keys, vs, host);
      forall path
        ensures EnvoyRoute(routes, keys, vs, host, path) == MatchRoute(routes, host, path)
      {
        assert MatchIndex(routes, host, path).None?;
      }
    case Some(i) =>
      if RoutedAlike(routes, keys[i], host) {
        forall path
          ensures EnvoyRoute(routes, keys, vs, host, path) == MatchRoute(routes, host, path)
        {
          AlikeSuffices(routes, keys, vs, host, i, path);
        }
      }
      if forall path :: EnvoyRoute(routes, keys, vs, host, path) == MatchRoute(routes, host, path) {
        AlikeNecessary(routes, keys, vs, host, i);
      }
  }

  lemma StaticDescribes(routes: seq<Route>)
    requires UniqueNames(routes)
    ensures Describes(routes, FirstKeys(routes), StaticHosts(routes))
  {
    var keys, vs := FirstKeys(routes), StaticHosts(routes);
    forall i | 0 <= i < |vs|
      ensures forall d :: d in vs[i].domains <==> d in keys[i]
      ensures SamePrefixes(vs[i].entries, Members(routes, keys[i]))
    {
      var leader := Leader(routes, keys[i]);
      OnlyNamed(routes, leader);
      assert vs[i] == StaticHost(routes, keys[i]);
      forall d
        ensures d in vs[i].domains <==> d in keys[i]
      {
        SameNames(leader, d);
      }
    }
  }

  lemma XdsDescribes(routes: seq<Route>)
    ensures Describes(routes, KeyOrder(routes), XdsHosts(routes))
  {
    var keys, vs := KeyOrder(routes), XdsHosts(routes);
    KeyOrderIs(routes);
    forall i | 0 <= i < |vs|
      ensures vs[i].domains == keys[i]
      ensures SamePrefixes(vs[i].entries, Members(routes, keys[i]))
    {
      assert vs[i] == XdsHost(routes, keys[i]);
    }
  }

  /**
   Routing preservation: when a single group of hostnames covers the host, and in it no
   earlier prefix is a prefix of a later one, every path is routed as the gateway routes it.
   */
  lemma RoutingPreserved<T>(routes: seq<Route>, keys: seq<seq<string>>, vs: Hosts<T>, host: string, key: seq<string>,
                            path: string)
    requires UniqueNames(routes) && Describes(routes, keys, vs)
    requires key in FirstKeys(routes)
    requires forall r | r in routes :: Covers(r, host) <==> HostKey(r) == key
    requires LongestFirst(Members(routes, key))
    ensures EnvoyRoute(routes, keys, vs, host, path) == MatchRoute(routes, host, path)
  {
    OnlyGroup(routes, keys, vs, host, key);
    AlikeSuffices(routes, keys, vs, host, SelectHost(vs, host).value, path);
  }

  /** The same, of what each back end generates. */
  lemma BackEndsPreserveRouting(routes: seq<Route>, host: string, key: seq<string>, path: string)
    requires UniqueNames(routes) && key in FirstKeys(routes)
    requires forall r | r in routes :: Covers(r, host) <==> HostKey(r) == key
    requires LongestFirst(Members(routes, key))
    ensures
      && Describes(routes, FirstKeys(routes), StaticHosts(routes))
      && EnvoyRoute(routes, FirstKeys(routes), StaticHosts(routes), host, path) == MatchRoute(routes, host, path)
    ensures
      && Describes(routes, KeyOrder(routes), XdsHosts(routes))
      && EnvoyRoute(routes, KeyOrder(routes), XdsHosts(routes), host, path) == MatchRoute(routes, host, path)
  {
    StaticDescribes(routes);
    RoutingPreserved(routes, FirstKeys(routes), StaticHosts(routes), host, key, path);
    XdsDescribes(routes);
    RoutingPreserved(routes, KeyOrder(routes), XdsHosts(routes), host, key, path);
  }

  lemma OnlyGroup<T>(routes: seq<Route>, keys: seq<seq<string>>, vs: Hosts<T>, host: string, key: seq<string>)
    requires Describes(routes, keys, vs) && key in FirstKeys(routes)
    requires forall r | r in routes :: Covers(r, host) <==> HostKey(r) == key
    ensures SelectHost(vs, host).Some? && keys[SelectHost(vs, host).value] == key
  {
    assert Covers(Leader(routes, key), host);
    if SelectHost(vs, host).None? {
      NotSelected(routes, keys, vs, host);
      assert false;
    }
    var i := SelectHost(vs, host).value;
    SelectedCovers(routes, keys, vs, host, i);
    assert keys[i] in keys;
    assert Covers(Leader(routes, keys[i]), host);
  }
}
