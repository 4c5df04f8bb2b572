/** What plugins may do to a request: headers and early exits. */
module PluginSdk {
  import opened Wrappers
  import opened Text

  datatype PluginExit = PluginExit(status: nat, body: Option<string>, plugin: string)

  /**
   Calls a plugin makes on a gateway object. An exit is recorded under the name of the
   binding the object was made for, whoever calls it.
   */
  datatype Op =
    | SetResponse(name: string, value: string)
    | SetUpstream(name: string, value: string)
    | Exit(status: nat, body: Option<string>, owner: string)

  datatype State = State(upstream: map<string, string>, response: map<string, string>, exit: Option<PluginExit>)

  const EMPTY := State(map[], map[], None)

  function LowerChar(c: char): char {
    if 'A' <= c <= 'Z' then c - 'A' + 'a' else c
  }

  function Lower(s: string): (t: string)
    ensures |t| == |s|
    ensures forall i | 0 <= i < |s| :: t[i] == LowerChar(s[i])
  {
    seq(|s|, i requires 0 <= i < |s| => LowerChar(s[i]))
  }

  lemma LowerTwice(s: string)
    ensures Lower(Lower(s)) == Lower(s)
  {
  }

  predicate Reserved(name: string) {
    StartsWith(name, "x-auth-") || StartsWith(name, "x-ratelimit-") || StartsWith(name, "x-envoy-")
  }

  /** Effect of one call; a reserved upstream header is refused with an error to the plugin. */
  function Apply(s: State, op: Op): State {
    match op
    case SetResponse(name, value) => s.(response := s.response[Lower(name) := value])
    case SetUpstream(name, value) =>
      if Reserved(Lower(name)) then s else s.(upstream := s.upstream[Lower(name) := value])
    case Exit(status, body, owner) => s.(exit := Some(PluginExit(status, body, owner)))
  }

  function ApplyAll(s: State, ops: seq<Op>): State {
    if ops == [] then s else Apply(ApplyAll(s, ops[..|ops| - 1]), ops[|ops| - 1])
  }

  class RuntimeState {
    var upstreamHeaders: map<string, string>
    var responseHeaders: map<string, string>
    var shortCircuit: Option<PluginExit>

    ghost function View(): State
      reads this
    {
      State(upstreamHeaders, responseHeaders, shortCircuit)
    }

    constructor ()
      ensures View() == EMPTY
    {
      upstreamHeaders, responseHeaders, shortCircuit := map[], map[], None;
    }

    method SetResponseHeader(name: string, value: string)
      modifies this
      ensures View() == Apply(old(View()), SetResponse(name, value))
    {
      responseHeaders := responseHeaders[Lower(name) := value];
    }

    method SetUpstreamHeader(name: string, value: string) returns (accepted: bool)
      modifies this
      ensures accepted <==> !Reserved(Lower(name))
      ensures View() == Apply(old(View()), SetUpstream(name, value))
    {
      var lower := Lower(name);
      if StartsWith(lower, "x-auth-") || StartsWith(lower, "x-ratelimit-") || StartsWith(lower, "x-envoy-") {
        return false;
      }
      upstreamHeaders := upstreamHeaders[lower := value];
      accepted := true;
    }

    method RequestExit(owner: string, status: nat, body: Option<string>)
      modifies this
      ensures View() == Apply(old(View()), Exit(status, body, owner))
    {
      shortCircuit := Some(PluginExit(status, body, owner));
    }
  }

  /** Collected header names are lower case, and none meant for the upstream is reserved. */
  ghost predicate Clean(s: State) {
    && (forall n | n in s.upstream :: Lower(n) == n && !Reserved(n))
    && (forall n | n in s.response :: Lower(n) == n)
  }

  lemma {:induction false} StaysClean(s: State, ops: seq<Op>)
    requires Clean(s)
    ensures Clean(ApplyAll(s, ops))
  {
    if ops != [] {
      StaysClean(s, ops[..|ops| - 1]);
      var op := ops[|ops| - 1];
      if !op.Exit? {
        LowerTwice(op.name);
      }
    }
  }
}

/** Merging collected headers into the response. */
module HeaderMerge {
  import opened PluginSdk

  type Headers = map<string, string>

  /**
   Which texts the HTTP library takes as header names and values, and which stored values
   it gives back as text.
   */
  datatype Syntax = Syntax(nameOk: string -> bool, valueOk: string -> bool, readable: string -> bool)

  predicate IsNameChar(c: char) {
    'a' <= c <= 'z' || 'A' <= c <= 'Z' || '0' <= c <= '9' || c in "!#$%&'*+-.^_`|~"
  }

  predicate IsName(s: string) {
    s != "" && forall i | 0 <= i < |s| :: IsNameChar(s[i])
  }

  /** No control characters but the tab; beyond ASCII everything is taken as opaque bytes. */
  predicate IsValue(s: string) {
    forall i | 0 <= i < |s| :: s[i] == '\t' || (' ' <= s[i] && s[i] != '\U{7F}')
  }

  /** Visible ASCII, spaces and tabs. */
  predicate IsReadable(s: string) {
    forall i | 0 <= i < |s| :: s[i] == '\t' || ' ' <= s[i] <= '~'
  }

  const HTTP := Syntax(IsName, IsValue, IsReadable)

  predicate Insertable(x: Syntax, values: Headers, name: string) {
    name in values && x.nameOk(name) && x.valueOk(values[name])
  }

  /** `value` is one of the values offered for the header, names compared without case. */
  ghost predicate Offered(x: Syntax, values: Headers, header: string, value: string) {
    exists name :: Insertable(x, values, name) && Lower(name) == header && values[name] == value
  }

  ghost predicate Untouched(a: Headers, b: Headers, name: string) {
    (name in a <==> name in b) && (name in a ==> a[name] == b[name])
  }

  ghost predicate AnyOffered(x: Syntax, values: Headers, header: string) {
    exists value :: Offered(x, values, header, value)
  }

  /** A header that is offered a value has one of those offered, any other is as it was. */
  ghost predicate MergedAt(x: Syntax, headers: Headers, values: Headers, out: Headers, header: string) {
    if AnyOffered(x, values, header) then header in out && Offered(x, values, header, out[header])
    else Untouched(headers, out, header)
  }

  ghost predicate MergeOf(x: Syntax, headers: Headers, values: Headers, out: Headers) {
    forall header :: MergedAt(x, headers, values, out, header)
  }

  /** The merge of lower-case names: values that parse win, everything else stays. */
  ghost function Merged(x: Syntax, headers: Headers, values: Headers): Headers {
    map name | name in headers.Keys + values.Keys && (name in headers || Insertable(x, values, name)) ::
      if Insertable(x, values, name) then values[name] else headers[name]
  }

  lemma LowerMergeAt(x: Syntax, headers: Headers, values: Headers, out: Headers, header: string)
    requires forall n | n in values :: Lower(n) == n
    ensures MergedAt(x, headers, values, out, header) <==> Untouched(Merged(x, headers, values), out, header)
  {
    if Insertable(x, values, header) {
      assert Offered(x, values, header, values[header]);
    }
  }

  lemma LowerMerge(x: Syntax, headers: Headers, values: Headers, out: Headers)
    requires (forall n | n in values :: Lower(n) == n) && MergeOf(x, headers, values, out)
    ensures out == Merged(x, headers, values)
  {
    var merged := Merged(x, headers, values);
    forall header
      ensures header in out <==> header in merged
      ensures header in out ==> out[header] == merged[header]
    {
      assert MergedAt(x, headers, values, out, header);
      LowerMergeAt(x, headers, values, out, header);
    }
  }

  /** Inserts the values in whatever order the hash map yields them; parsing a name lowers its case. */
  method InsertStringHeaders(x: Syntax, headers: Headers, values: Headers) returns (out: Headers)
    ensures MergeOf(x, headers, values, out)
    ensures (forall n | n in values :: Lower(n) == n) ==> out == Merged(x, headers, values)
  {
    out := headers;
    var rest := values.Keys;
    ghost var done: Headers := map[];
    while rest != {}
      invariant rest <= values.Keys
      invariant done == map n | n in values && n !in rest :: values[n]
      invariant MergeOf(x, headers, done, out)
      decreases rest
    {
      var name :| name in rest;
      ghost var before := out;
      if x.nameOk(name) && x.valueOk(values[name]) {
        out := out[Lower(name) := values[name]];
      }
      InsertStep(x, headers, done, before, name, values[name]);
      rest := rest - {name};
      done := done[name := values[name]];
    }
    assert done == values;
    if forall n | n in values :: Lower(n) == n {
      LowerMerge(x, headers, values, out);
    }
  }

  lemma InsertStep(x: Syntax, headers: Headers, done: Headers, out: Headers, name: string, value: string)
    requires name !in done && MergeOf(x, headers, done, out)
    ensures MergeOf(x, headers, done[name := value],
                    if x.nameOk(name) && x.valueOk(value) then out[Lower(name) := value] else out)
  {
    var more := done[name := value];
    var next := if x.nameOk(name) && x.valueOk(value) then out[Lower(name) := value] else out;
    forall header
      ensures MergedAt(x, headers, more, next, header)
    {
      assert MergedAt(x, headers, done, out, header);
      InsertAt(x, headers, done, out, name, value, header);
    }
  }

  lemma InsertAt(x: Syntax, headers: Headers, done: Headers, out: Headers, name: string, value: string, header: string)
    requires name !in done && MergedAt(x, headers, done, out, header)
    ensures MergedAt(x, headers, done[name := value],
                     if x.nameOk(name) && x.valueOk(value) then out[Lower(name) := value] else out, header)
  {
    var more := done[name := value];
    OfferedStep(x, done, name, value, header);
    if x.nameOk(name) && x.valueOk(value) && header == Lower(name) {
      assert Offered(x, more, header, value);
    } else if AnyOffered(x, done, header) {
      assert Offered(x, more, header, out[header]);
    } else {
      forall v
        ensures !Offered(x, more, header, v)
      {
        assert !Offered(x, done, header, v);
      }
    }
  }

  lemma OfferedStep(x: Syntax, done: Headers, name: string, value: string, header: string)
    requires name !in done
    ensures forall v :: Offered(x, done[name := value], header, v) <==>
              (|| Offered(x, done, header, v)
               || (x.nameOk(name) && x.valueOk(value) && Lower(name) == header && v == value))
  {
    var more := done[name := value];
    forall v
      ensures Offered(x, more, header, v)
         <==> Offered(x, done, header, v) || (x.nameOk(name) && x.valueOk(value) && Lower(name) == header && v == value)
    {
      if Offered(x, done, header, v) {
        var n :| Insertable(x, done, n) && Lower(n) == header && done[n] == v;
        assert Insertable(x, more, n) && more[n] == v;
      }
      if x.nameOk(name) && x.valueOk(value) && Lower(name) == header && v == value {
        assert Insertable(x, more, name) && more[name] == v;
      }
      if Offered(x, more, header, v) {
        var n :| Insertable(x, more, n) && Lower(n) == header && more[n] == v;
        if n != name {
          assert Insertable(x, done, n) && done[n] == v;
        }
      }
    }
  }

  /** The value a header ends up with after plugins ran and their upstream headers were merged last. */
  ghost function AfterMerge(x: Syntax, headers: Headers, ops: seq<Op>): Headers {
    Merged(x, headers, ApplyAll(EMPTY, ops).upstream)
  }

  /**
   Which headers the late merge cannot touch, exactly: a valid lower-case header name
   keeps its value through every sequence of plugin calls and every state of the
   response if and only if it starts with a reserved prefix.
   */
  lemma ProtectedIffReserved(x: Syntax, name: string, v: string, w: string)
    requires Lower(name) == name && x.nameOk(name) && x.valueOk(v) && x.valueOk(w) && v != w
    ensures Reserved(name) <==>
              forall headers, ops :: Untouched(headers, AfterMerge(x, headers, ops), name)
  {
    if Reserved(name) {
      forall headers, ops
        ensures Untouched(headers, AfterMerge(x, headers, ops), name)
      {
        StaysClean(EMPTY, ops);
      }
    } else {
      var headers: Headers := map[name := v];
      var ops := [SetUpstream(name, w)];
      assert ops[..0] == [];
      assert ApplyAll(EMPTY, ops).upstream == map[name := w];
      assert AfterMerge(x, headers, ops)[name] == w;
      assert !Untouched(headers, AfterMerge(x, headers, ops), name);
    }
  }

  // When the visiting order matters

  /** Some merge there is: for each header any one of the values offered. */
  ghost function AnyMerge(x: Syntax, headers: Headers, values: Headers): Headers {
    map header | header in headers.Keys + (set n | n in values :: Lower(n))
                 && (header in headers || AnyOffered(x, values, header)) ::
      if AnyOffered(x, values, header) then AnyValue(x, values, header) else headers[header]
  }

  ghost function AnyValue(x: Syntax, values: Headers, header: string): (v: string)
    requires AnyOffered(x, values, header)
    ensures Offered(x, values, header, v)
  {
    var v :| Offered(x, values, header, v);
    v
  }

  lemma AnyMergeIs(x: Syntax, headers: Headers, values: Headers)
    ensures MergeOf(x, headers, values, AnyMerge(x, headers, values))
  {
    forall header
      ensures MergedAt(x, headers, values, AnyMerge(x, headers, values), header)
    {
      if AnyOffered(x, values, header) {
        var v := AnyValue(x, values, header);
        var n :| Insertable(x, values, n) && Lower(n) == header && values[n] == v;
        assert header in set n | n in values :: Lower(n);
      }
    }
  }

  /** Any offered value may end up in the header. */
  lemma AnyMayWin(x: Syntax, headers: Headers, values: Headers, out: Headers, header: string, v: string)
    requires MergeOf(x, headers, values, out) && Offered(x, values, header, v)
    ensures MergeOf(x, headers, values, out[header := v])
  {
    var next := out[header := v];
    forall h
      ensures MergedAt(x, headers, values, next, h)
    {
      assert MergedAt(x, headers, values, out, h);
    }
  }

  lemma OneMerge(x: Syntax, headers: Headers, values: Headers, a: Headers, b: Headers)
    requires MergeOf(x, headers, values, a) && MergeOf(x, headers, values, b)
    requires forall header, v, w | Offered(x, values, header, v) && Offered(x, values, header, w) :: v == w
    ensures a == b
  {
    forall h
      ensures h in a <==> h in b
      ensures h in a ==> a[h] == b[h]
    {
      assert MergedAt(x, headers, values, a, h) && MergedAt(x, headers, values, b, h);
    }
  }

  /**
   The merged headers do not depend on the order in which the hash map is visited exactly
   when no header is offered two different values under names that differ in case.
   */
  lemma OrderIsFreeIff(x: Syntax, headers: Headers, values: Headers)
    ensures (forall a, b | MergeOf(x, headers, values, a) && MergeOf(x, headers, values, b) :: a == b)
       <==> forall header, v, w | Offered(x, values, header, v) && Offered(x, values, header, w) :: v == w
  {
    if header, v, w :| Offered(x, values, header, v) && Offered(x, values, header, w) && v != w {
      var any := AnyMerge(x, headers, values);
      AnyMergeIs(x, headers, values);
      AnyMayWin(x, headers, values, any, header, v);
      AnyMayWin(x, headers, values, any, header, w);
      assert any[header := v][header] != any[header := w][header];
    } else {
      forall a, b | MergeOf(x, headers, values, a) && MergeOf(x, headers, values, b)
        ensures a == b
      {
        OneMerge(x, headers, values, a, b);
      }
    }
  }
}

/** Running a chain: the access phase and the log phase. */
module PluginExecutor {
  import opened Wrappers
  import opened PluginChain
  import opened PluginSdk

  /** How a plugin's phase function ended. An error may still have been preceded by any calls. */
  datatype End = Returned | ExitRaised | Failed(memory: bool)

  /**
   What happens on a binding's turn, with the calls made on gateway objects. Even a binding
   without an access phase can make some: loading it and looking up the phase run code.
   */
  datatype PhaseCall = LoadFails(memory: bool) | NoPhase(ops: seq<Op>) | Ran(ops: seq<Op>, end: End) {
    function Ops(): seq<Op> {
      if LoadFails? then [] else ops
    }
  }

  datatype ErrorType = RuntimeError | MemoryError | TimeoutError

  datatype AccessResult =
    | Continue(upstream: map<string, string>, response: map<string, string>)
    | ShortCircuit(exit: PluginExit, response: map<string, string>)
    | Error(plugin: string, kind: ErrorType)

  function StateAfter(s: State, call: PhaseCall): State {
    ApplyAll(s, call.Ops())
  }

  /** Outcome of one invocation: the pending exit, if any, or the error. Loading errors are never forgiven. */
  function RunPhase(s: State, b: Binding, call: PhaseCall): Result<Option<PluginExit>, ErrorType> {
    match call
    case LoadFails(memory) => Err(if memory then MemoryError else RuntimeError)
    case NoPhase(_) => Ok(None)
    case Ran(ops, end) =>
      match end
      case Returned => Ok(StateAfter(s, call).exit)
      case ExitRaised => Ok(StateAfter(s, call).exit)
      case Failed(memory) => if b.failOpen then Ok(None) else Err(if memory then MemoryError else RuntimeError)
  }

  function StateAt(chain: seq<Binding>, calls: seq<PhaseCall>, n: nat): State
    requires n <= |chain| == |calls|
  {
    if n == 0 then EMPTY else StateAfter(StateAt(chain, calls, n - 1), calls[n - 1])
  }

  /** Result of the access phase from binding `k` on. */
  function AccessFrom(chain: seq<Binding>, calls: seq<PhaseCall>, late: seq<bool>, k: nat): AccessResult
    requires k <= |chain| == |calls| == |late|
    decreases |chain| - k
  {
    var s := StateAt(chain, calls, k);
    if k == |chain| then Continue(s.upstream, s.response)
    else if late[k] then Error(chain[k].name, TimeoutError)
    else
      match RunPhase(s, chain[k], calls[k])
      case Err(kind) => Error(chain[k].name, kind)
      case Ok(None) => AccessFrom(chain, calls, late, k + 1)
      case Ok(Some(exit)) => ShortCircuit(exit, StateAt(chain, calls, k + 1).response)
  }

  /** Whatever the plugins of a chain do, the collected headers stay clean. */
  lemma {:induction false} ChainStaysClean(chain: seq<Binding>, calls: seq<PhaseCall>, n: nat)
    requires n <= |chain| == |calls|
    ensures Clean(StateAt(chain, calls, n))
  {
    if n != 0 {
      ChainStaysClean(chain, calls, n - 1);
      StaysClean(StateAt(chain, calls, n - 1), calls[n - 1].Ops());
    }
  }

  lemma {:induction false} AccessIsClean(chain: seq<Binding>, calls: seq<PhaseCall>, late: seq<bool>, k: nat)
    requires k <= |chain| == |calls| == |late|
    ensures
      var r := AccessFrom(chain, calls, late, k);
      && (r.Continue? ==> forall n | n in r.upstream :: Lower(n) == n && !Reserved(n))
      && (!r.Error? ==> forall n | n in r.response :: Lower(n) == n)
    decreases |chain| - k
  {
    ChainStaysClean(chain, calls, k);
    if k < |chain| {
      ChainStaysClean(chain, calls, k + 1);
      AccessIsClean(chain, calls, late, k + 1);
    }
  }

  /** Binding `k` is reached in time and lets the chain go on. */
  ghost predicate Passes(chain: seq<Binding>, calls: seq<PhaseCall>, late: seq<bool>, k: nat)
    requires k < |chain| == |calls| == |late|
  {
    !late[k] && RunPhase(StateAt(chain, calls, k), chain[k], calls[k]) == Ok(None)
  }

  lemma {:induction false} ContinuesIff(chain: seq<Binding>, calls: seq<PhaseCall>, late: seq<bool>, k: nat)
    requires k <= |chain| == |calls| == |late|
    ensures AccessFrom(chain, calls, late, k).Continue?
       <==> forall j | k <= j < |chain| :: Passes(chain, calls, late, j)
    decreases |chain| - k
  {
    if k < |chain| {
      ContinuesIff(chain, calls, late, k + 1);
      assert Passes(chain, calls, late, k) || !Passes(chain, calls, late, k);
    }
  }

  predicate IsLate(r: AccessResult) {
    r.Error? && r.kind == TimeoutError
  }

  /** Why the access phase ended after trying `n` bindings with result `r`. */
  ghost predicate Explains(chain: seq<Binding>, calls: seq<PhaseCall>, late: seq<bool>, n: nat, r: AccessResult)
    requires n <= |chain| == |calls| == |late|
  {
    match r
    case Continue(upstream, response) =>
      n == |chain| && upstream == StateAt(chain, calls, n).upstream && response == StateAt(chain, calls, n).response
    case ShortCircuit(exit, response) =>
      && 0 < n && !late[n - 1]
      && RunPhase(StateAt(chain, calls, n - 1), chain[n - 1], calls[n - 1]) == Ok(Some(exit))
      && response == StateAt(chain, calls, n).response
    case Error(plugin, kind) =>
      if kind == TimeoutError then n < |chain| && late[n] && plugin == chain[n].name
      else
        && 0 < n && !late[n - 1] && plugin == chain[n - 1].name
        && RunPhase(StateAt(chain, calls, n - 1), chain[n - 1], calls[n - 1]) == Err(kind)
  }

  /**
   The access phase runs a prefix of the chain in order and stops at the first binding
   that is late, short-circuits, or fails without being forgiven; it continues exactly
   when every binding passes.
   */
  method ExecuteAccess(chain: seq<Binding>, calls: seq<PhaseCall>, late: seq<bool>)
    returns (r: AccessResult, n: nat)
    requires |chain| == |calls| == |late|
    ensures r == AccessFrom(chain, calls, late, 0)
    ensures n <= |chain| && Explains(chain, calls, late, n, r)
    ensures forall k | 0 <= k < n && (k + 1 < n || IsLate(r)) :: Passes(chain, calls, late, k)
    ensures r.Continue? <==> forall k | 0 <= k < |chain| :: Passes(chain, calls, late, k)
  {
    ContinuesIff(chain, calls, late, 0);
    var state := EMPTY;
    n := 0;
    while n < |chain|
      invariant n <= |chain| && state == StateAt(chain, calls, n)
      invariant AccessFrom(chain, calls, late, 0) == AccessFrom(chain, calls, late, n)
      invariant forall j | 0 <= j < n :: Passes(chain, calls, late, j)
    {
      var b, call := chain[n], calls[n];
      if late[n] {
        return Error(b.name, TimeoutError), n;
      }
      var outcome := RunPhase(state, b, call);
      state := StateAfter(state, call);
      n := n + 1;
      if outcome.Err? {
        return Error(b.name, outcome.error), n;
      }
      if outcome.value.Some? {
        return ShortCircuit(outcome.value.value, state.response), n;
      }
    }
    r := Continue(state.upstream, state.response);
  }

  // Where a short circuit comes from

  /** The exit the calls ask for last, if they ask for any. */
  function LastExit(ops: seq<Op>): Option<PluginExit> {
    if ops == [] then None
    else
      var op := ops[|ops| - 1];
      if op.Exit? then Some(PluginExit(op.status, op.body, op.owner)) else LastExit(ops[..|ops| - 1])
  }

  lemma {:induction false} ExitOfCalls(s: State, ops: seq<Op>)
    ensures ApplyAll(s, ops).exit == if LastExit(ops).Some? then LastExit(ops) else s.exit
  {
    if ops != [] {
      ExitOfCalls(s, ops[..|ops| - 1]);
    }
  }

  ghost predicate AsksToExit(call: PhaseCall) {
    LastExit(call.Ops()).Some?
  }

  /** The binding has no access phase, or fails and is forgiven. */
  ghost predicate Silent(b: Binding, call: PhaseCall) {
    call.NoPhase? || (call.Ran? && call.end.Failed? && b.failOpen)
  }

  /** An exit was asked for on the turn of binding `j` and not acted on: it stays pending. */
  ghost predicate LeftBehind(chain: seq<Binding>, calls: seq<PhaseCall>, j: nat)
    requires j < |chain| == |calls|
  {
    AsksToExit(calls[j]) && Silent(chain[j], calls[j])
  }

  /** The first `n` bindings pass and the next one ends the chain with `exit`. */
  ghost predicate ExitsAt(chain: seq<Binding>, calls: seq<PhaseCall>, late: seq<bool>, n: nat, exit: PluginExit)
    requires n < |chain|
  {
    && |chain| == |calls| == |late|
    && (forall k | 0 <= k < n :: Passes(chain, calls, late, k))
    && !late[n]
    && RunPhase(StateAt(chain, calls, n), chain[n], calls[n]) == Ok(Some(exit))
  }

  /** Calls reach the gateway objects of this binding and of those before it: objects can be passed on. */
  ghost predicate Reaches(chain: seq<Binding>, calls: seq<PhaseCall>) {
    && |calls| == |chain|
    && forall k, op | 0 <= k < |calls| && op in calls[k].Ops() && op.Exit? ::
         exists j :: 0 <= j <= k && chain[j].name == op.owner
  }

  /** Each plugin uses its own gateway object, and only in its access phase. */
  ghost predicate KeepsToItself(chain: seq<Binding>, calls: seq<PhaseCall>) {
    && |calls| == |chain|
    && (forall k, op | 0 <= k < |calls| && op in calls[k].Ops() && op.Exit? :: op.owner == chain[k].name)
    && (forall k | 0 <= k < |calls| && calls[k].NoPhase? :: calls[k].ops == [])
  }

  lemma ExitAfter(chain: seq<Binding>, calls: seq<PhaseCall>, k: nat)
    requires k < |chain| == |calls|
    ensures StateAt(chain, calls, k + 1).exit
         == if AsksToExit(calls[k]) then LastExit(calls[k].Ops()) else StateAt(chain, calls, k).exit
  {
    ExitOfCalls(StateAt(chain, calls, k), calls[k].Ops());
  }

  /** `exit` was asked for on turn `k`, and nothing has been asked for since, up to turn `n`. */
  ghost predicate AskedOn(calls: seq<PhaseCall>, k: nat, n: nat, exit: PluginExit) {
    && k < n <= |calls|
    && LastExit(calls[k].Ops()) == Some(exit)
    && forall m | k < m < n :: !AsksToExit(calls[m])
  }

  /** A binding that passes although it asked to exit leaves the exit behind. */
  lemma PassedLeavesBehind(chain: seq<Binding>, calls: seq<PhaseCall>, late: seq<bool>, k: nat)
    requires k < |chain| == |calls| == |late| && Passes(chain, calls, late, k) && AsksToExit(calls[k])
    ensures LeftBehind(chain, calls, k)
  {
    ExitOfCalls(StateAt(chain, calls, k), calls[k].Ops());
  }

  lemma {:induction false} PendingExit(chain: seq<Binding>, calls: seq<PhaseCall>, n: nat) returns (k: nat)
    requires n <= |chain| == |calls|
    requires StateAt(chain, calls, n).exit.Some?
    ensures AskedOn(calls, k, n, StateAt(chain, calls, n).exit.value)
  {
    ExitAfter(chain, calls, n - 1);
    if AsksToExit(calls[n - 1]) {
      k := n - 1;
    } else {
      k := PendingExit(chain, calls, n - 1);
    }
  }

  /**
   In a run: an exit was asked for on the turn of the binding the chain stopped at, or on an
   earlier turn where it was not acted on and after which nothing else was asked for.
   */
  lemma ExitOrigin(chain: seq<Binding>, calls: seq<PhaseCall>, late: seq<bool>, n: nat, exit: PluginExit)
    returns (k: nat)
    requires n < |chain| && ExitsAt(chain, calls, late, n, exit)
    ensures AskedOn(calls, k, n + 1, exit) && (k < n ==> LeftBehind(chain, calls, k))
  {
    ExitAfter(chain, calls, n);
    if AsksToExit(calls[n]) {
      k := n;
    } else {
      k := PendingExit(chain, calls, n);
      PassedLeavesBehind(chain, calls, late, k);
    }
  }

  lemma {:induction false} LastExitIsCall(ops: seq<Op>)
    requires LastExit(ops).Some?
    ensures exists op :: op in ops && op.Exit? && op.owner == LastExit(ops).value.plugin
  {
    var n := |ops| - 1;
    if ops[n].Exit? {
      assert ops[n] in ops;
    } else {
      LastExitIsCall(ops[..n]);
      var op :| op in ops[..n] && op.Exit? && op.owner == LastExit(ops[..n]).value.plugin;
      assert op in ops;
    }
  }

  lemma OwnerOf(calls: seq<PhaseCall>, k: nat, n: nat, exit: PluginExit) returns (op: Op)
    requires AskedOn(calls, k, n, exit)
    ensures op in calls[k].Ops() && op.Exit? && op.owner == exit.plugin
  {
    LastExitIsCall(calls[k].Ops());
    op :| op in calls[k].Ops() && op.Exit? && op.owner == exit.plugin;
  }

  /** The turn of binding `j` is `asks`; `n` makes the calls `stops` and returns; no other does anything. */
  function TwoTurns(size: nat, j: nat, asks: PhaseCall, n: nat, stops: seq<Op>): (calls: seq<PhaseCall>)
    ensures |calls| == size
    ensures forall k | 0 <= k < size ::
              calls[k] == if k == j then asks else if k == n then Ran(stops, Returned) else NoPhase([])
  {
    seq(size, k requires 0 <= k < size =>
      if k == j then asks else if k == n then Ran(stops, Returned) else NoPhase([]))
  }

  lemma {:induction false} TwoTurnsPass(chain: seq<Binding>, j: nat, asks: PhaseCall, n: nat, stops: seq<Op>,
                                        late: seq<bool>, k: nat)
    requires j < n < |chain| == |late| && k <= n
    requires forall i | 0 <= i < |late| :: !late[i]
    requires Silent(chain[j], asks) || (asks == Ran([], Returned))
    ensures
      var calls := TwoTurns(|chain|, j, asks, n, stops);
      && (forall i | 0 <= i < k :: Passes(chain, calls, late, i))
      && StateAt(chain, calls, k).exit == if j < k then LastExit(asks.Ops()) else None
  {
    if k > 0 {
      TwoTurnsPass(chain, j, asks, n, stops, late, k - 1);
      var calls := TwoTurns(|chain|, j, asks, n, stops);
      ExitAfter(chain, calls, k - 1);
      assert Passes(chain, calls, late, k - 1);
    }
  }

  lemma TwoTurnsExit(chain: seq<Binding>, j: nat, asks: PhaseCall, n: nat, stops: seq<Op>, exit: PluginExit)
    returns (late: seq<bool>)
    requires j < n < |chain| && (Silent(chain[j], asks) || asks == Ran([], Returned))
    requires Some(exit) == if LastExit(stops).Some? then LastExit(stops) else LastExit(asks.Ops())
    ensures ExitsAt(chain, TwoTurns(|chain|, j, asks, n, stops), late, n, exit)
  {
    var calls := TwoTurns(|chain|, j, asks, n, stops);
    late := seq(|chain|, _ => false);
    TwoTurnsPass(chain, j, asks, n, stops, late, n);
    ExitAfter(chain, calls, n);
  }

  /** The exit of binding `j`, as an operation. */
  function ExitOf(chain: seq<Binding>, j: nat): Op
    requires j < |chain|
  {
    Exit(403, None, chain[j].name)
  }

  lemma OneExit(op: Op)
    requires op.Exit?
    ensures LastExit([op]) == Some(PluginExit(op.status, op.body, op.owner))
  {
  }

  /**
   Blame, exactly: whatever the plugins do, passing their gateway objects on included, an
   exit at binding `n` names that binding if and only if all bindings before it have the
   same name.
   */
  lemma ExitIsOwnIff(chain: seq<Binding>, n: nat)
    requires n < |chain|
    ensures (forall calls, late, exit | Reaches(chain, calls) && ExitsAt(chain, calls, late, n, exit) ::
               exit.plugin == chain[n].name)
       <==> forall j | 0 <= j < n :: chain[j].name == chain[n].name
  {
    if j :| 0 <= j < n && chain[j].name != chain[n].name {
      var op := ExitOf(chain, j);
      OneExit(op);
      var calls := TwoTurns(|chain|, j, Ran([], Returned), n, [op]);
      var late := TwoTurnsExit(chain, j, Ran([], Returned), n, [op], PluginExit(403, None, op.owner));
      assert Reaches(chain, calls);
    } else {
      forall calls, late, exit | Reaches(chain, calls) && ExitsAt(chain, calls, late, n, exit)
        ensures exit.plugin == chain[n].name
      {
        var k := ExitOrigin(chain, calls, late, n, exit);
        var op := OwnerOf(calls, k, n + 1, exit);
      }
    }
  }

  /**
   As long as each plugin keeps to its own gateway object and to its access phase, an exit at
   binding `n` names that binding if and only if no fail-open plugin of another name comes
   before it in the chain.
   */
  lemma ExitIsOwnIffForgiven(chain: seq<Binding>, n: nat)
    requires n < |chain|
    ensures (forall calls, late, exit | KeepsToItself(chain, calls) && ExitsAt(chain, calls, late, n, exit) ::
               exit.plugin == chain[n].name)
       <==> forall j | 0 <= j < n && chain[j].failOpen :: chain[j].name == chain[n].name
  {
    if j :| 0 <= j < n && chain[j].failOpen && chain[j].name != chain[n].name {
      var op := ExitOf(chain, j);
      OneExit(op);
      var asks := Ran([op], Failed(false));
      var calls := TwoTurns(|chain|, j, asks, n, []);
      var late := TwoTurnsExit(chain, j, asks, n, [], PluginExit(403, None, op.owner));
      assert KeepsToItself(chain, calls);
    } else {
      forall calls, late, exit | KeepsToItself(chain, calls) && ExitsAt(chain, calls, late, n, exit)
        ensures exit.plugin == chain[n].name
      {
        var k := ExitOrigin(chain, calls, late, n, exit);
        var op := OwnerOf(calls, k, n + 1, exit);
      }
    }
  }

  lemma {:induction false} StaysPending(chain: seq<Binding>, calls: seq<PhaseCall>, j: nat, k: nat)
    requires j < k <= |chain| == |calls| && LeftBehind(chain, calls, j)
    ensures StateAt(chain, calls, k).exit.Some?
  {
    ExitAfter(chain, calls, k - 1);
    if j < k - 1 {
      StaysPending(chain, calls, j, k - 1);
    }
  }

  /**
   A pending exit is dropped, and the chain goes on to its end, exactly when every later
   binding is in time and silent.
   */
  lemma PendingIsDroppedIff(chain: seq<Binding>, calls: seq<PhaseCall>, late: seq<bool>, j: nat)
    requires j < |chain| == |calls| == |late| && LeftBehind(chain, calls, j)
    ensures (forall k | j < k < |chain| :: Passes(chain, calls, late, k))
       <==> forall k | j < k < |chain| :: !late[k] && Silent(chain[k], calls[k])
  {
    forall k | j < k < |chain|
      ensures Passes(chain, calls, late, k) <==> !late[k] && Silent(chain[k], calls[k])
    {
      StaysPending(chain, calls, j, k);
      StaysPending(chain, calls, j, k + 1);
    }
  }

  function Reversed(chain: seq<Binding>): (r: seq<Binding>)
    ensures |r| == |chain|
    ensures forall i | 0 <= i < |chain| :: r[i] == chain[|chain| - 1 - i]
  {
    seq(|chain|, i requires 0 <= i < |chain| => chain[|chain| - 1 - i])
  }

  /** The log phase runs the whole chain backwards, whatever each plugin does. */
  method ExecuteLog(chain: seq<Binding>, calls: seq<PhaseCall>) returns (ran: seq<Binding>)
    requires |chain| == |calls|
    ensures |ran| == |chain|
    ensures forall i | 0 <= i < |chain| :: ran[i] == chain[|chain| - 1 - i]
  {
    var bindings := Reversed(chain);
    var state := EMPTY;
    ran := [];
    for k := 0 to |bindings|
      invariant ran == bindings[..k]
    {
      var _ := RunPhase(state, bindings[k], calls[k]);
      state := StateAfter(state, calls[k]);
      ran := ran + [bindings[k]];
    }
  }
}
