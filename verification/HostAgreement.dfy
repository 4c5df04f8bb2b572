/** The two back ends describe the same virtual hosts. */
module HostAgreement {
  import opened Wrappers
  import opened Ordering
  import opened Text
  import opened Config
  import opened Durations
  import opened VirtualHosts

  /** What a virtual host says, whatever its timeouts look like: domains counted, timeouts in milliseconds. */
  datatype Meaning = Meaning(name: string, domains: multiset<string>, entries: seq<Entry<Option<int>>>)

  function ReadEntry<T>(read: T -> Option<int>, e: Entry<T>): Entry<Option<int>> {
    Entry(e.prefix, e.cluster, read(e.timeout), e.retry)
  }

  function MeaningOf<T>(read: T -> Option<int>, v: VirtualHost<Entry<T>>): Meaning {
    Meaning(v.name, multiset(v.domains),
        seq(|v.entries|, i requires 0 <= i < |v.entries| => ReadEntry(read, v.entries[i])))
  }

  function ReadText(s: string): Option<int> {
    ReadDuration(s)
  }

  function ReadProto(d: Duration): Option<int> {
    Some(Milliseconds(d))
  }

  ghost predicate UniqueNames(routes: seq<Route>) {
    forall i, j | 0 <= i < j < |routes| :: routes[i].name != routes[j].name
  }

  lemma {:induction false} OnlyNamed(routes: seq<Route>, r: Route)
    requires UniqueNames(routes) && r in routes
    ensures FirstNamed(routes, r.name) == r
  {
    if routes[0] != r {
      var i :| 0 <= i < |routes| && routes[i] == r;
      assert routes[1..][i - 1] == r;
      OnlyNamed(routes[1..], r);
    }
  }

  lemma SameEntry(r: Route)
    ensures ReadEntry(ReadText, StaticEntry(r)) == ReadEntry(ReadProto, XdsEntry(r))
    ensures ReadEntry(ReadProto, XdsEntry(r)).timeout == Some(r.upstream.requestTimeoutMs)
  {
    DurationRoundTrip(r.upstream.requestTimeoutMs);
    DurationExact(r.upstream.requestTimeoutMs);
  }

  lemma SameMeaning(routes: seq<Route>, key: seq<string>)
    requires UniqueNames(routes) && key in FirstKeys(routes)
    ensures MeaningOf(ReadText, StaticHost(routes, key)) == MeaningOf(ReadProto, XdsHost(routes, key))
    ensures Sort(StringLe, StaticHost(routes, key).domains) == key == Sort(StringLe, XdsHost(routes, key).domains)
  {
    var leader := Leader(routes, key);
    OnlyNamed(routes, leader);
    StringOrder();
    SortContents(StringLe, leader.hostnames);
    SortCanonical(StringLe, leader.hostnames, key);
    var members := Members(routes, key);
    forall i | 0 <= i < |members|
      ensures ReadEntry(ReadText, StaticEntry(members[i])) == ReadEntry(ReadProto, XdsEntry(members[i]))
    {
      SameEntry(members[i]);
    }
  }

  /** A list of virtual hosts as a set: each with the sorted hostnames it answers for. */
  ghost function Meanings<T>(read: T -> Option<int>, vs: Hosts<T>): set<(seq<string>, Meaning)> {
    set i | 0 <= i < |vs| :: (Sort(StringLe, vs[i].domains), MeaningOf(read, vs[i]))
  }

  lemma StaticInXds(routes: seq<Route>, i: nat)
    requires UniqueNames(routes) && i < |StaticHosts(routes)|
    ensures Sort(StringLe, StaticHosts(routes)[i].domains) == FirstKeys(routes)[i]
    ensures (Sort(StringLe, StaticHosts(routes)[i].domains), MeaningOf(ReadText, StaticHosts(routes)[i]))
            in Meanings(ReadProto, XdsHosts(routes))
  {
    var key, order := FirstKeys(routes)[i], KeyOrder(routes);
    SameMeaning(routes, key);
    KeyOrderIs(routes);
    assert key in order;
    var j :| 0 <= j < |order| && order[j] == key;
    assert XdsHosts(routes)[j] == XdsHost(routes, key);
  }

  lemma XdsInStatic(routes: seq<Route>, j: nat)
    requires UniqueNames(routes) && j < |XdsHosts(routes)|
    ensures (Sort(StringLe, XdsHosts(routes)[j].domains), MeaningOf(ReadProto, XdsHosts(routes)[j]))
            in Meanings(ReadText, StaticHosts(routes))
  {
    var keys, key := FirstKeys(routes), KeyOrder(routes)[j];
    SameMeaning(routes, key);
    var i :| 0 <= i < |keys| && keys[i] == key;
    assert StaticHosts(routes)[i] == StaticHost(routes, key);
  }

  /**
   Two grouping algorithms agree: on every route list with distinct names the list of
   groups and the pair of ordered maps yield the same virtual hosts, one per set of
   hostnames, with the same name, domains, and entries in config order, and with
   timeouts that denote the same milliseconds.
   */
  lemma BuildersAgree(routes: seq<Route>)
    requires UniqueNames(routes)
    ensures Meanings(ReadText, StaticHosts(routes)) == Meanings(ReadProto, XdsHosts(routes))
    ensures |StaticHosts(routes)| == |XdsHosts(routes)|
    ensures forall i, j | 0 <= i < j < |StaticHosts(routes)| ::
              Sort(StringLe, StaticHosts(routes)[i].domains) != Sort(StringLe, StaticHosts(routes)[j].domains)
  {
    FirstKeysAre(routes);
    KeyOrderIs(routes);
    forall i | 0 <= i < |StaticHosts(routes)|
      ensures Sort(StringLe, StaticHosts(routes)[i].domains) == FirstKeys(routes)[i]
      ensures (Sort(StringLe, StaticHosts(routes)[i].domains), MeaningOf(ReadText, StaticHosts(routes)[i]))
              in Meanings(ReadProto, XdsHosts(routes))
    {
      StaticInXds(routes, i);
    }
    forall j | 0 <= j < |XdsHosts(routes)|
      ensures (Sort(StringLe, XdsHosts(routes)[j].domains), MeaningOf(ReadProto, XdsHosts(routes)[j]))
              in Meanings(ReadText, StaticHosts(routes))
    {
      XdsInStatic(routes, j);
    }
  }

  // Every route is in exactly one group

  function Flatten(routes: seq<Route>, keys: seq<seq<string>>): seq<Route> {
    if keys == [] then [] else Flatten(routes, keys[..|keys| - 1]) + Members(routes, keys[|keys| - 1])
  }

  function Once(r: Route, here: bool): multiset<Route> {
    if here then multiset{r} else multiset{}
  }

  lemma MembersCount(routes: seq<Route>, r: Route, key: seq<string>)
    ensures multiset(Members(routes + [r], key)) == multiset(Members(routes, key)) + Once(r, HostKey(r) == key)
  {
    SnocMembers(routes, r, key);
    assert Members(routes, key) + [] == Members(routes, key);
  }

  lemma FlattenLast(routes: seq<Route>, keys: seq<seq<string>>, key: seq<string>)
    ensures multiset(Flatten(routes, keys + [key])) == multiset(Flatten(routes, keys)) + multiset(Members(routes, key))
  {
    assert (keys + [key])[..|keys|] == keys;
  }

  lemma {:induction false} FlattenSnoc(routes: seq<Route>, r: Route, keys: seq<seq<string>>)
    requires forall i, j | 0 <= i < j < |keys| :: keys[i] != keys[j]
    ensures multiset(Flatten(routes + [r], keys)) == multiset(Flatten(routes, keys)) + Once(r, HostKey(r) in keys)
  {
    if keys != [] {
      var before, key := keys[..|keys| - 1], keys[|keys| - 1];
      assert keys == before + [key];
      assert key !in before;
      FlattenSnoc(routes, r, before);
      MembersCount(routes, r, key);
      FlattenLast(routes, before, key);
      FlattenLast(routes + [r], before, key);
    }
  }

  lemma NextKeys(routes: seq<Route>, r: Route)
    ensures FirstKeys(routes + [r])
              == if HostKey(r) in FirstKeys(routes) then FirstKeys(routes) else FirstKeys(routes) + [HostKey(r)]
    ensures HostKey(r) !in FirstKeys(routes) ==> Members(routes + [r], HostKey(r)) == [r]
  {
    SnocMembers(routes, r, HostKey(r));
  }

  lemma OneMoreRoute(routes: seq<Route>, r: Route)
    ensures multiset(Flatten(routes + [r], FirstKeys(routes + [r])))
              == multiset(Flatten(routes, FirstKeys(routes))) + multiset{r}
  {
    var keys, key := FirstKeys(routes), HostKey(r);
    FirstKeysAre(routes);
    FlattenSnoc(routes, r, keys);
    NextKeys(routes, r);
    if key !in keys {
      FlattenLast(routes + [r], keys, key);
    }
  }

  /** The groups, taken together, hold every route of the configuration exactly once. */
  lemma {:induction false} EachRouteOnce(routes: seq<Route>)
    ensures multiset(Flatten(routes, FirstKeys(routes))) == multiset(routes)
  {
    if routes != [] {
      var before, r := routes[..|routes| - 1], routes[|routes| - 1];
      assert routes == before + [r];
      EachRouteOnce(before);
      OneMoreRoute(before, r);
    }
  }

  // Domains in more than one virtual host

  ghost predicate ShareDomain<E>(vs: seq<VirtualHost<E>>) {
    exists i, j, d :: 0 <= i < j < |vs| && d in vs[i].domains && d in vs[j].domains
  }

  /** Two routes that overlap in hostnames without having the same ones. */
  ghost predicate PartialOverlap(routes: seq<Route>) {
    exists r1, r2, d ::
        r1 in routes && r2 in routes && HostKey(r1) != HostKey(r2) && d in r1.hostnames && d in r2.hostnames
  }

  lemma SameNames(r: Route, d: string)
    ensures d in HostKey(r) <==> d in r.hostnames
  {
    SortContents(StringLe, r.hostnames);
    assert d in HostKey(r) <==> d in multiset(HostKey(r));
  }

  lemma OverlapIffShared<E>(routes: seq<Route>, keys: seq<seq<string>>, vs: seq<VirtualHost<E>>)
    requires |vs| == |keys|
    requires forall k :: k in keys <==> k in FirstKeys(routes)
    requires forall i, j | 0 <= i < j < |keys| :: keys[i] != keys[j]
    requires forall i, d | 0 <= i < |vs| :: d in vs[i].domains <==> d in keys[i]
    ensures ShareDomain(vs) <==> PartialOverlap(routes)
  {
    if ShareDomain(vs) {
      var i, j, d :| 0 <= i < j < |vs| && d in vs[i].domains && d in vs[j].domains;
      SharedOverlaps(routes, keys[i], keys[j], d);
    }
    if PartialOverlap(routes) {
      var r1, r2, d :| r1 in routes && r2 in routes && HostKey(r1) != HostKey(r2) && d in r1.hostnames
          && d in r2.hostnames;
      SameNames(r1, d);
      SameNames(r2, d);
      FirstKeysAre(routes);
      KeysShare(keys, vs, HostKey(r1), HostKey(r2), d);
    }
  }

  lemma SharedOverlaps(routes: seq<Route>, k1: seq<string>, k2: seq<string>, d: string)
    requires k1 in FirstKeys(routes) && k2 in FirstKeys(routes) && k1 != k2 && d in k1 && d in k2
    ensures PartialOverlap(routes)
  {
    var r1, r2 := Leader(routes, k1), Leader(routes, k2);
    SameNames(r1, d);
    SameNames(r2, d);
    assert HostKey(r1) != HostKey(r2);
  }

  lemma KeysShare<E>(keys: seq<seq<string>>, vs: seq<VirtualHost<E>>, k1: seq<string>, k2: seq<string>, d: string)
    requires |vs| == |keys|
    requires forall i, d | 0 <= i < |vs| :: d in vs[i].domains <==> d in keys[i]
    requires k1 in keys && k2 in keys && k1 != k2 && d in k1 && d in k2
    ensures ShareDomain(vs)
  {
    var i :| 0 <= i < |keys| && keys[i] == k1;
    var j :| 0 <= j < |keys| && keys[j] == k2;
    assert d in vs[i].domains && d in vs[j].domains;
    assert i < j || j < i;
  }

  lemma KeyOrderDistinct(routes: seq<Route>)
    ensures forall i, j | 0 <= i < j < |KeyOrder(routes)| :: KeyOrder(routes)[i] != KeyOrder(routes)[j]
  {
    var keys, order := FirstKeys(routes), KeyOrder(routes);
    FirstKeysAre(routes);
    SortContents(NamesLe, keys);
    forall i, j | 0 <= i < j < |order|
      ensures order[i] != order[j]
    {
      CountOnce(keys, order[i]);
      if order[i] == order[j] {
        CountTwice(order, i, j);
        assert false;
      }
    }
  }

  lemma CountTwice(s: seq<seq<string>>, i: nat, j: nat)
    requires i < j < |s| && s[i] == s[j]
    ensures multiset(s)[s[i]] >= 2
  {
    assert s == s[..j] + [s[j]] + s[j + 1..];
    assert s[i] in s[..j];
    assert multiset(s[..j])[s[i]] >= 1;
  }

  /**
   Envoy wants each domain in at most one virtual host. Grouping by equal hostname sets
   gives that exactly when no two routes overlap in some hostnames but not in all.
   */
  lemma DomainsSharedIff(routes: seq<Route>)
    ensures ShareDomain(XdsHosts(routes)) <==> PartialOverlap(routes)
    ensures UniqueNames(routes) ==> (ShareDomain(StaticHosts(routes)) <==> PartialOverlap(routes))
  {
    FirstKeysAre(routes);
    KeyOrderIs(routes);
    KeyOrderDistinct(routes);
    OverlapIffShared(routes, KeyOrder(routes), XdsHosts(routes));
    if UniqueNames(routes) {
      forall i, d | 0 <= i < |StaticHosts(routes)|
        ensures d in StaticHosts(routes)[i].domains <==> d in FirstKeys(routes)[i]
      {
        OnlyNamed(routes, Leader(routes, FirstKeys(routes)[i]));
        SameNames(Leader(routes, FirstKeys(routes)[i]), d);
      }
      OverlapIffShared(routes, FirstKeys(routes), StaticHosts(routes));
    }
  }
}
