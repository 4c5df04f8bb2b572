/** Timeouts as the two back ends print them. */
module Durations {
  import opened Wrappers
  import opened Text
  import opened Endpoints

  /** Envoy duration text: whole seconds, or seconds and three digits. */
  function DurationString(ms: nat): string {
    if ms % 1000 == 0 then Decimal(ms / 1000) + "s"
    else Decimal(ms / 1000) + "." + Padded3(ms % 1000) + "s"
  }

  /** Protobuf duration. */
  datatype Duration = Duration(seconds: int, nanos: int)

  function DurationOf(ms: nat): Duration {
    Duration(ms / 1000, (ms % 1000) * 1_000_000)
  }

  /** Reads duration text back as milliseconds. */
  function ReadDuration(s: string): Option<nat> {
    if s == "" || s[|s| - 1] != 's' then None else ReadNumber(s[..|s| - 1])
  }

  function ReadNumber(body: string): Option<nat> {
    match RFind(body, '.')
    case None => Scaled(ReadDecimal(body), Some(0))
    case Some(i) => if |body| == i + 4 then Scaled(ReadDecimal(body[..i]), ReadDecimal(body[i + 1..])) else None
  }

  function Scaled(whole: Option<nat>, frac: Option<nat>): Option<nat> {
    if whole.Some? && frac.Some? then Some(whole.value * 1000 + frac.value) else None
  }

  lemma {:induction false} RFindUnique(s: string, c: char, i: nat)
    requires i < |s| && s[i] == c && c !in s[i + 1..]
    ensures RFind(s, c) == Some(i)
  {
    if i < |s| - 1 {
      assert s[|s| - 1] in s[i + 1..];
      assert s[..|s| - 1][i + 1..] <= s[i + 1..];
      RFindUnique(s[..|s| - 1], c, i);
    }
  }

  lemma WithUnit(body: string)
    ensures ReadDuration(body + "s") == ReadNumber(body)
  {
    assert (body + "s")[..|body|] == body;
  }

  lemma NoDot(digits: string)
    requires AllDigits(digits)
    ensures '.' !in digits
  {
  }

  lemma ReadWhole(whole: string, n: nat)
    requires AllDigits(whole) && ReadDecimal(whole) == Some(n)
    ensures ReadDuration(whole + "s") == Some(n * 1000)
  {
    assert RFind(whole, '.').None?;
    WithUnit(whole);
  }

  lemma ReadFraction(whole: string, frac: string, n: nat, m: nat)
    requires AllDigits(frac) && |frac| == 3 && ReadDecimal(whole) == Some(n) && ReadDecimal(frac) == Some(m)
    ensures ReadDuration(whole + "." + frac + "s") == Some(n * 1000 + m)
  {
    var body := whole + "." + frac;
    assert body[|whole| + 1..] == frac && body[..|whole|] == whole;
    NoDot(frac);
    RFindUnique(body, '.', |whole|);
    WithUnit(body);
  }

  /** The printed text denotes the configured number of milliseconds. */
  lemma DurationRoundTrip(ms: nat)
    ensures ReadDuration(DurationString(ms)) == Some(ms)
  {
    DecimalRoundTrip(ms / 1000);
    DecimalDigits(ms / 1000);
    if ms % 1000 == 0 {
      ReadWhole(Decimal(ms / 1000), ms / 1000);
    } else {
      Padded3RoundTrip(ms % 1000);
      ReadFraction(Decimal(ms / 1000), Padded3(ms % 1000), ms / 1000, ms % 1000);
    }
  }

  function Milliseconds(d: Duration): int {
    d.seconds * 1000 + d.nanos / 1_000_000
  }

  /** The protobuf form denotes it too, and its fields stay within their integer widths. */
  lemma DurationExact(ms: nat)
    ensures Milliseconds(DurationOf(ms)) == ms
    ensures 0 <= DurationOf(ms).nanos < 1_000_000_000
    ensures ms < 0x1_0000_0000_0000_0000 ==> DurationOf(ms).seconds < 0x8000_0000_0000_0000
  {
    assert (ms % 1000) * 1_000_000 / 1_000_000 == ms % 1000;
  }
}

/** Routes grouped into virtual hosts, by both back ends. */
module VirtualHosts {
  import opened Wrappers
  import opened Ordering
  import opened Text
  import opened Config
  import opened Durations

  datatype VirtualHost<+E> = VirtualHost(name: string, domains: seq<string>, entries: seq<E>)

  datatype RetryPolicy = RetryPolicy(retryOn: string, numRetries: nat)

  /** A route entry whose timeout is printed as `T`. */
  datatype Entry<+T> = Entry(prefix: string, cluster: string, timeout: T, retry: Option<RetryPolicy>)

  type Hosts<+T> = seq<VirtualHost<Entry<T>>>

  function RetryOf(r: Route): Option<RetryPolicy> {
    if r.upstream.retries > 0 then Some(RetryPolicy("5xx,connect-failure", r.upstream.retries)) else None
  }

  function StaticEntry(r: Route): Entry<string> {
    Entry(r.pathPrefix, r.upstream.service, DurationString(r.upstream.requestTimeoutMs), RetryOf(r))
  }

  function XdsEntry(r: Route): Entry<Duration> {
    Entry(r.pathPrefix, r.upstream.service, DurationOf(r.upstream.requestTimeoutMs), RetryOf(r))
  }

  /** Routes are grouped by their sorted hostnames. */
  function HostKey(r: Route): seq<string> {
    Sort(StringLe, r.hostnames)
  }

  // Reference grouping

  /** The distinct keys, in order of first appearance. */
  function FirstKeys(routes: seq<Route>): seq<seq<string>> {
    if routes == [] then []
    else
      var n := |routes| - 1;
      var before := FirstKeys(routes[..n]);
      if HostKey(routes[n]) in before then before else before + [HostKey(routes[n])]
  }

  /** The routes of one group, in config order. */
  function Members(routes: seq<Route>, key: seq<string>): seq<Route> {
    if routes == [] then []
    else
      var n := |routes| - 1;
      Members(routes[..n], key) + if HostKey(routes[n]) == key then [routes[n]] else []
  }

  function Entries<E>(entry: Route -> E, routes: seq<Route>): (es: seq<E>)
    ensures |es| == |routes|
    ensures forall i | 0 <= i < |routes| :: es[i] == entry(routes[i])
  {
    seq(|routes|, i requires 0 <= i < |routes| => entry(routes[i]))
  }

  lemma {:induction false} FirstKeysAre(routes: seq<Route>)
    ensures forall k :: k in FirstKeys(routes) <==> exists r | r in routes :: HostKey(r) == k
    ensures forall i, j | 0 <= i < j < |FirstKeys(routes)| :: FirstKeys(routes)[i] != FirstKeys(routes)[j]
  {
    if routes != [] {
      var n := |routes| - 1;
      FirstKeysAre(routes[..n]);
      assert routes == routes[..n] + [routes[n]];
    }
  }

  lemma {:induction false} MembersAre(routes: seq<Route>, key: seq<string>)
    ensures forall r :: r in Members(routes, key) <==> r in routes && HostKey(r) == key
    ensures Members(routes, key) != [] <==> key in FirstKeys(routes)
  {
    FirstKeysAre(routes);
    if routes != [] {
      var n := |routes| - 1;
      MembersAre(routes[..n], key);
      assert routes == routes[..n] + [routes[n]];
    }
  }

  function FirstNamed(routes: seq<Route>, name: string): (r: Route)
    requires exists r | r in routes :: r.name == name
    ensures r in routes && r.name == name
  {
    if routes[0].name == name then routes[0] else FirstNamed(routes[1..], name)
  }

  function Leader(routes: seq<Route>, key: seq<string>): (r: Route)
    requires key in FirstKeys(routes)
    ensures r in routes && HostKey(r) == key
  {
    MembersAre(routes, key);
    Members(routes, key)[0]
  }

  /** What the static back end produces for one group. */
  function StaticHost(routes: seq<Route>, key: seq<string>): VirtualHost<Entry<string>>
    requires key in FirstKeys(routes)
  {
    var name := Leader(routes, key).name;
    VirtualHost(name, FirstNamed(routes, name).hostnames, Entries(StaticEntry, Members(routes, key)))
  }

  function StaticHosts(routes: seq<Route>): (vs: Hosts<string>)
    ensures |vs| == |FirstKeys(routes)|
    ensures forall i | 0 <= i < |vs| :: vs[i] == StaticHost(routes, FirstKeys(routes)[i])
  {
    var keys := FirstKeys(routes);
    seq(|keys|, i requires 0 <= i < |keys| => StaticHost(routes, keys[i]))
  }

  /** What the xDS back end produces for one group. */
  function XdsHost(routes: seq<Route>, key: seq<string>): VirtualHost<Entry<Duration>>
    requires key in FirstKeys(routes)
  {
    VirtualHost(Leader(routes, key).name, key, Entries(XdsEntry, Members(routes, key)))
  }

  /** The keys in the order a BTreeMap visits them. */
  function KeyOrder(routes: seq<Route>): seq<seq<string>> {
    Sort(NamesLe, FirstKeys(routes))
  }

  lemma KeyOrderIs(routes: seq<Route>)
    ensures forall k :: k in KeyOrder(routes) <==> k in FirstKeys(routes)
    ensures |KeyOrder(routes)| == |FirstKeys(routes)|
  {
    SortContents(NamesLe, FirstKeys(routes));
    assert |multiset(KeyOrder(routes))| == |multiset(FirstKeys(routes))|;
    forall k
      ensures k in KeyOrder(routes) <==> k in FirstKeys(routes)
    {
      assert k in KeyOrder(routes) <==> k in multiset(KeyOrder(routes));
      assert k in FirstKeys(routes) <==> k in multiset(FirstKeys(routes));
    }
  }

  function XdsHosts(routes: seq<Route>): (vs: Hosts<Duration>)
    ensures |vs| == |KeyOrder(routes)|
    ensures forall i | 0 <= i < |vs| ::
              KeyOrder(routes)[i] in FirstKeys(routes) && vs[i] == XdsHost(routes, KeyOrder(routes)[i])
  {
    KeyOrderIs(routes);
    var keys := KeyOrder(routes);
    seq(|keys|, i requires 0 <= i < |keys| => XdsHost(routes, keys[i]))
  }

  // The static builder: a growing list of groups

  datatype Group = Group(key: seq<string>, name: string, entries: seq<Entry<string>>)

  function IndexOf(groups: seq<Group>, key: seq<string>): (i: nat)
    ensures i <= |groups|
    ensures i < |groups| ==> groups[i].key == key
    ensures forall k | 0 <= k < i :: groups[k].key != key
  {
    if groups == [] || groups[0].key == key then 0 else 1 + IndexOf(groups[1..], key)
  }

  /** The list of groups after one more route. */
  function AddRoute(groups: seq<Group>, r: Route): seq<Group> {
    var i := IndexOf(groups, HostKey(r));
    if i < |groups| then groups[i := groups[i].(entries := groups[i].entries + [StaticEntry(r)])]
    else groups + [Group(HostKey(r), r.name, [StaticEntry(r)])]
  }

  function GroupsOf(routes: seq<Route>): seq<Group> {
    if routes == [] then [] else AddRoute(GroupsOf(routes[..|routes| - 1]), routes[|routes| - 1])
  }

  lemma SnocMembers(routes: seq<Route>, r: Route, key: seq<string>)
    ensures Members(routes + [r], key) == Members(routes, key) + if HostKey(r) == key then [r] else []
    ensures FirstKeys(routes + [r])
              == if HostKey(r) in FirstKeys(routes) then FirstKeys(routes) else FirstKeys(routes) + [HostKey(r)]
    ensures key in FirstKeys(routes) ==> Leader(routes + [r], key) == Leader(routes, key)
    ensures key !in FirstKeys(routes) && HostKey(r) == key
       ==> Leader(routes + [r], key) == r && Members(routes, key) == []
  {
    assert (routes + [r])[..|routes|] == routes;
    MembersAre(routes, key);
  }

  lemma EntriesSnoc<E>(entry: Route -> E, routes: seq<Route>, r: Route)
    ensures Entries(entry, routes + [r]) == Entries(entry, routes) + [entry(r)]
  {
  }

  lemma AfterSnoc(routes: seq<Route>, r: Route, key: seq<string>)
    requires key in FirstKeys(routes)
    ensures key in FirstKeys(routes + [r])
    ensures Leader(routes + [r], key) == Leader(routes, key)
    ensures Entries(StaticEntry, Members(routes + [r], key))
            == Entries(StaticEntry, Members(routes, key)) + if HostKey(r) == key then [StaticEntry(r)] else []
    ensures Entries(XdsEntry, Members(routes + [r], key))
            == Entries(XdsEntry, Members(routes, key)) + if HostKey(r) == key then [XdsEntry(r)] else []
  {
    SnocMembers(routes, r, key);
    EntriesSnoc(StaticEntry, Members(routes, key), r);
    EntriesSnoc(XdsEntry, Members(routes, key), r);
    assert Members(routes, key) + [] == Members(routes, key);
  }

  ghost function GroupFor(routes: seq<Route>, key: seq<string>): Group
    requires key in FirstKeys(routes)
  {
    Group(key, Leader(routes, key).name, Entries(StaticEntry, Members(routes, key)))
  }

  /** The groups a route list should end up in. */
  ghost function Expected(routes: seq<Route>): (groups: seq<Group>)
    ensures |groups| == |FirstKeys(routes)|
    ensures forall i | 0 <= i < |groups| :: groups[i] == GroupFor(routes, FirstKeys(routes)[i])
  {
    var keys := FirstKeys(routes);
    seq(|keys|, i requires 0 <= i < |keys| => GroupFor(routes, keys[i]))
  }

  function Extended(g: Group, r: Route): Group {
    if g.key == HostKey(r) then g.(entries := g.entries + [StaticEntry(r)]) else g
  }

  lemma GroupAfterSnoc(routes: seq<Route>, r: Route, key: seq<string>)
    requires key in FirstKeys(routes)
    ensures key in FirstKeys(routes + [r])
    ensures GroupFor(routes + [r], key) == Extended(GroupFor(routes, key), r)
  {
    AfterSnoc(routes, r, key);
  }

  lemma NewGroup(routes: seq<Route>, r: Route)
    requires HostKey(r) !in FirstKeys(routes)
    ensures FirstKeys(routes + [r]) == FirstKeys(routes) + [HostKey(r)]
    ensures GroupFor(routes + [r], HostKey(r)) == Group(HostKey(r), r.name, [StaticEntry(r)])
  {
    SnocMembers(routes, r, HostKey(r));
    EntriesSnoc(StaticEntry, [], r);
  }

  lemma OldGroups(routes: seq<Route>, r: Route)
    ensures |Expected(routes)| <= |Expected(routes + [r])|
    ensures forall k | 0 <= k < |Expected(routes)| :: Expected(routes + [r])[k] == Extended(Expected(routes)[k], r)
  {
    SnocMembers(routes, r, HostKey(r));
    forall k | 0 <= k < |Expected(routes)|
      ensures Expected(routes + [r])[k] == Extended(Expected(routes)[k], r)
    {
      assert FirstKeys(routes + [r])[k] == FirstKeys(routes)[k];
      GroupAfterSnoc(routes, r, FirstKeys(routes)[k]);
    }
  }

  lemma {:induction false} AddJoins(groups: seq<Group>, r: Route, want: seq<Group>)
    requires forall j, k | 0 <= j < k < |groups| :: groups[j].key != groups[k].key
    requires IndexOf(groups, HostKey(r)) < |groups| == |want|
    requires forall k | 0 <= k < |groups| :: want[k] == Extended(groups[k], r)
    ensures AddRoute(groups, r) == want
  {
  }

  lemma {:induction false} AddAppends(groups: seq<Group>, r: Route, want: seq<Group>)
    requires IndexOf(groups, HostKey(r)) == |groups| && |want| == |groups| + 1
    requires forall k | 0 <= k < |groups| :: want[k] == Extended(groups[k], r)
    requires want[|groups|] == Group(HostKey(r), r.name, [StaticEntry(r)])
    ensures AddRoute(groups, r) == want
  {
  }

  lemma GroupedStep(routes: seq<Route>, r: Route)
    ensures AddRoute(Expected(routes), r) == Expected(routes + [r])
  {
    var groups, keys := Expected(routes), FirstKeys(routes);
    var i := IndexOf(groups, HostKey(r));
    OldGroups(routes, r);
    FirstKeysAre(routes);
    SnocMembers(routes, r, HostKey(r));
    assert forall k | 0 <= k < |groups| :: groups[k].key == keys[k];
    if i < |groups| {
      assert keys[i] == HostKey(r);
      AddJoins(groups, r, Expected(routes + [r]));
    } else {
      assert HostKey(r) !in keys;
      NewGroup(routes, r);
      AddAppends(groups, r, Expected(routes + [r]));
    }
  }

  lemma GroupsSnoc(routes: seq<Route>, r: Route)
    ensures GroupsOf(routes + [r]) == AddRoute(GroupsOf(routes), r)
  {
    assert (routes + [r])[..|routes|] == routes;
  }

  lemma {:induction false} GroupsAreGrouped(routes: seq<Route>)
    ensures GroupsOf(routes) == Expected(routes)
  {
    if routes != [] {
      var before, r := routes[..|routes| - 1], routes[|routes| - 1];
      assert routes == before + [r];
      GroupsAreGrouped(before);
      GroupsSnoc(before, r);
      GroupedStep(before, r);
    }
  }

  /** `v` is what the final pass makes of group `g`. */
  ghost predicate Renders(routes: seq<Route>, g: Group, v: VirtualHost<Entry<string>>) {
    && (exists r | r in routes :: r.name == g.name)
    && v == VirtualHost(g.name, FirstNamed(routes, g.name).hostnames, g.entries)
  }

  lemma GroupsRender(routes: seq<Route>)
    ensures |GroupsOf(routes)| == |StaticHosts(routes)|
    ensures forall i | 0 <= i < |GroupsOf(routes)| :: Renders(routes, GroupsOf(routes)[i], StaticHosts(routes)[i])
  {
    GroupsAreGrouped(routes);
    forall i | 0 <= i < |GroupsOf(routes)|
      ensures Renders(routes, GroupsOf(routes)[i], StaticHosts(routes)[i])
    {
      var leader := Leader(routes, FirstKeys(routes)[i]);
      assert leader in routes && leader.name == GroupsOf(routes)[i].name;
    }
  }

  method GroupRoutes(routes: seq<Route>) returns (groups: seq<Group>)
    ensures groups == GroupsOf(routes)
  {
    groups := [];
    for n := 0 to |routes|
      invariant groups == GroupsOf(routes[..n])
    {
      assert routes[..n + 1][..n] == routes[..n];
      var key := Sort(StringLe, routes[n].hostnames);
      var i := IndexOf(groups, key);
      if i < |groups| {
        groups := groups[i := groups[i].(entries := groups[i].entries + [StaticEntry(routes[n])])];
      } else {
        groups := groups + [Group(key, routes[n].name, [StaticEntry(routes[n])])];
      }
    }
    assert routes[..|routes|] == routes;
  }

  method RenderGroups(routes: seq<Route>, groups: seq<Group>, ghost spec: seq<VirtualHost<Entry<string>>>)
    returns (vhosts: seq<VirtualHost<Entry<string>>>)
    requires |groups| == |spec|
    requires forall i | 0 <= i < |groups| :: Renders(routes, groups[i], spec[i])
    ensures vhosts == spec
  {
    vhosts := [];
    for i := 0 to |groups|
      invariant |vhosts| == i
      invariant forall k | 0 <= k < i :: vhosts[k] == spec[k]
    {
      assert Renders(routes, groups[i], spec[i]);
      var matching := FirstNamed(routes, groups[i].name);
      vhosts := vhosts + [VirtualHost(groups[i].name, matching.hostnames, groups[i].entries)];
    }
  }

  method BuildStaticHosts(routes: seq<Route>) returns (vhosts: seq<VirtualHost<Entry<string>>>)
    ensures vhosts == StaticHosts(routes)
  {
    var groups := GroupRoutes(routes);
    GroupsRender(routes);
    vhosts := RenderGroups(routes, groups, StaticHosts(routes));
  }

  // The xDS builder: two ordered maps

  lemma {:induction false} DistinctMultiset(s: seq<seq<string>>, t: seq<seq<string>>)
    requires forall i, j | 0 <= i < j < |s| :: s[i] != s[j]
    requires forall i, j | 0 <= i < j < |t| :: t[i] != t[j]
    requires forall k :: k in s <==> k in t
    ensures multiset(s) == multiset(t)
  {
    forall k
      ensures multiset(s)[k] == multiset(t)[k]
    {
      CountOnce(s, k);
      CountOnce(t, k);
    }
  }

  lemma {:induction false} CountOnce(s: seq<seq<string>>, k: seq<string>)
    requires forall i, j | 0 <= i < j < |s| :: s[i] != s[j]
    ensures multiset(s)[k] == if k in s then 1 else 0
  {
    if s != [] {
      var n := |s| - 1;
      CountOnce(s[..n], k);
      assert s == s[..n] + [s[n]];
    }
  }

  ghost predicate Mapped(routes: seq<Route>, groups: map<seq<string>, seq<Entry<Duration>>>,
                         names: map<seq<string>, string>)
  {
    && groups.Keys == names.Keys
    && (forall k :: k in groups <==> k in FirstKeys(routes))
    && (forall k | k in groups ::
        groups[k] == Entries(XdsEntry, Members(routes, k)) && names[k] == Leader(routes, k).name)
  }

  datatype Maps = Maps(groups: map<seq<string>, seq<Entry<Duration>>>, names: map<seq<string>, string>)

  /** The two maps after one more route. */
  function AddToMaps(m: Maps, r: Route): Maps {
    var key := HostKey(r);
    Maps(m.groups[key := (if key in m.groups then m.groups[key] else []) + [XdsEntry(r)]],
         if key in m.names then m.names else m.names[key := r.name])
  }

  function MapsOf(routes: seq<Route>): Maps {
    if routes == [] then Maps(map[], map[])
    else AddToMaps(MapsOf(routes[..|routes| - 1]), routes[|routes| - 1])
  }

  /** What the maps hold for one key after one more route. */
  lemma MappedAt(routes: seq<Route>, r: Route, m: Maps, k: seq<string>)
    requires Mapped(routes, m.groups, m.names)
    requires k in FirstKeys(routes) || k == HostKey(r)
    ensures k in FirstKeys(routes + [r])
    ensures AddToMaps(m, r).groups[k] == Entries(XdsEntry, Members(routes + [r], k))
    ensures AddToMaps(m, r).names[k] == Leader(routes + [r], k).name
  {
    SnocMembers(routes, r, k);
    if k in FirstKeys(routes) {
      AfterSnoc(routes, r, k);
    } else {
      EntriesSnoc(XdsEntry, [], r);
    }
  }

  lemma MapKeys(routes: seq<Route>, r: Route, m: Maps)
    requires m.groups.Keys == m.names.Keys && forall k :: k in m.groups <==> k in FirstKeys(routes)
    ensures AddToMaps(m, r).groups.Keys == AddToMaps(m, r).names.Keys
    ensures forall k :: k in AddToMaps(m, r).groups <==> k in FirstKeys(routes + [r])
  {
    SnocMembers(routes, r, HostKey(r));
  }

  lemma MappedStep(routes: seq<Route>, r: Route, m: Maps)
    requires Mapped(routes, m.groups, m.names)
    ensures Mapped(routes + [r], AddToMaps(m, r).groups, AddToMaps(m, r).names)
  {
    var m' := AddToMaps(m, r);
    MapKeys(routes, r, m);
    forall k | k in m'.groups
      ensures k in FirstKeys(routes + [r])
      ensures m'.groups[k] == Entries(XdsEntry, Members(routes + [r], k))
      ensures m'.names[k] == Leader(routes + [r], k).name
    {
      MappedAt(routes, r, m, k);
    }
  }

  lemma {:induction false} MapsAreMapped(routes: seq<Route>)
    ensures Mapped(routes, MapsOf(routes).groups, MapsOf(routes).names)
  {
    if routes != [] {
      var n := |routes| - 1;
      MapsAreMapped(routes[..n]);
      MappedStep(routes[..n], routes[n], MapsOf(routes[..n]));
      assert routes == routes[..n] + [routes[n]];
    }
  }

  method MapRoutes(routes: seq<Route>)
    returns (groups: map<seq<string>, seq<Entry<Duration>>>, names: map<seq<string>, string>)
    ensures Maps(groups, names) == MapsOf(routes)
  {
    groups, names := map[], map[];
    for n := 0 to |routes|
      invariant Maps(groups, names) == MapsOf(routes[..n])
    {
      assert routes[..n + 1][..n] == routes[..n];
      var key := Sort(StringLe, routes[n].hostnames);
      groups := groups[key := (if key in groups then groups[key] else []) + [XdsEntry(routes[n])]];
      names := if key in names then names else names[key := routes[n].name];
    }
    assert routes[..|routes|] == routes;
  }

  method BuildXdsHosts(routes: seq<Route>) returns (vhosts: seq<VirtualHost<Entry<Duration>>>)
    ensures vhosts == XdsHosts(routes)
  {
    var groups, names := MapRoutes(routes);
    MapsAreMapped(routes);
    NamesOrder();
    var keys := InOrder(NamesLe, groups.Keys);
    KeysInOrder(routes, keys);
    vhosts := [];
    for i := 0 to |keys|
      invariant |vhosts| == i
      invariant forall k | 0 <= k < i :: keys[k] in FirstKeys(routes) && vhosts[k] == XdsHost(routes, keys[k])
    {
      vhosts := vhosts + [VirtualHost(names[keys[i]], keys[i], groups[keys[i]])];
    }
  }

  lemma KeysInOrder(routes: seq<Route>, keys: seq<seq<string>>)
    requires Sorted(NamesLe, keys)
    requires forall k :: k in keys <==> k in FirstKeys(routes)
    requires forall i, j | 0 <= i < j < |keys| :: keys[i] != keys[j]
    ensures keys == KeyOrder(routes)
  {
    NamesOrder();
    FirstKeysAre(routes);
    DistinctMultiset(keys, FirstKeys(routes));
    SortContents(NamesLe, FirstKeys(routes));
    SortSorted(NamesLe, FirstKeys(routes));
    SortedUnique(NamesLe, keys, KeyOrder(routes));
  }
}
