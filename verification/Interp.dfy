/**
 A direct interpreter for a bound chain: one map from types to values carried down, another carried
 back up.  Provider bodies are arbitrary: what a body does next may depend on everything that has
 happened so far in the run.
 */
module Interp {
  import opened Basics

  type Value = int

  // Everything observable about a run, in order: functions being called, inner() being called and
  // returning.
  datatype Event =
    | Call(id: nat, args: seq<Value>)
    | Inner(id: nat, args: seq<Value>)
    | Back(id: nat, results: seq<Value>)

  type Trace = seq<Event>

  // 'result' gives the k-th result of a function that is about to return; 'wants' says whether a
  // wrapper now calls inner() once more (at most 'maxCalls' times in all), and 'innerArg' with what.
  datatype World = World(
    zero: TypeCode -> Value,
    isNil: Value -> bool,
    result: (nat, Trace, nat) -> Value,
    wants: (nat, Trace) -> bool,
    innerArg: (nat, Trace, nat) -> Value,
    maxCalls: (nat, Trace) -> nat)

  datatype Kind =
    | Literal(value: Value)
    | StaticInjector
    | StaticFallible(errorIndex: nat)
    | Injector
    | Fallible(errorIndex: nat)
    | Wrapper(parallel: bool)
    | Final
    | Invoke
    | Init

  // A provider as far as binding is concerned.  The flows of a wrapper leave out inner() itself, those
  // of a fallible injector of the run set leave out the TerminalError.  Slot allocation works out
  // 'skips': the types to be zeroed when what comes after the provider does not run.
  datatype Func = Func(
    id: nat,
    kind: Kind,
    included: bool,
    inputs: seq<TypeCode>,
    outputs: seq<TypeCode>,
    returned: seq<TypeCode>,
    received: seq<TypeCode>,
    skips: set<TypeCode>)

  type Flow = map<TypeCode, Value>

  // A type nobody has supplied reads as its zero value.
  function Get(w: World, m: Flow, t: TypeCode): Value {
    if t in m then m[t] else w.zero(t)
  }

  function GetAll(w: World, m: Flow, types: seq<TypeCode>): (r: seq<Value>)
    ensures |r| == |types|
    ensures forall k :: 0 <= k < |types| ==> r[k] == Get(w, m, types[k])
  {
    seq(|types|, k requires 0 <= k < |types| => Get(w, m, types[k]))
  }

  // The closest wins: what is bound later replaces what was there.
  function Bind(m: Flow, types: seq<TypeCode>, values: seq<Value>): Flow
    requires |types| == |values|
  {
    if types == [] then m
    else Bind(m, types[..|types| - 1], values[..|types| - 1])[types[|types| - 1] := values[|types| - 1]]
  }

  function Results(w: World, id: nat, tr: Trace, n: nat): (r: seq<Value>)
    ensures |r| == n
  {
    seq(n, k requires 0 <= k < n => w.result(id, tr, k))
  }

  function InnerArgs(w: World, id: nat, tr: Trace, n: nat): (r: seq<Value>)
    ensures |r| == n
  {
    seq(n, k requires 0 <= k < n => w.innerArg(id, tr, k))
  }

  function Without(s: seq<Value>, k: nat): (r: seq<Value>)
    requires k < |s|
    ensures |r| == |s| - 1
    ensures forall j :: 0 <= j < |r| ==> r[j] == s[if j < k then j else j + 1]
  {
    s[..k] + s[k + 1..]
  }

  predicate IsInjector(f: Func) {
    f.kind.Injector? || (f.kind.Fallible? && f.kind.errorIndex <= |f.outputs|)
  }

  // The TerminalError of a fallible injector of the run set.
  function TheError(w: World, f: Func, tr: Trace): Value
    requires f.kind.Fallible? && f.kind.errorIndex <= |f.outputs|
  {
    Results(w, f.id, tr, |f.outputs| + 1)[f.kind.errorIndex]
  }

  predicate Fails(w: World, f: Func, tr: Trace)
    requires IsInjector(f)
  {
    f.kind.Fallible? && !w.isNil(TheError(w, f, tr))
  }

  // What an injector of the run set sends down: its results, less the TerminalError.
  function Sent(w: World, f: Func, tr: Trace): (r: seq<Value>)
    requires IsInjector(f)
    ensures |r| == |f.outputs|
  {
    if f.kind.Fallible? then Without(Results(w, f.id, tr, |f.outputs| + 1), f.kind.errorIndex)
    else Results(w, f.id, tr, |f.outputs|)
  }

  // The shape characterize.go gives a run chain: it ends with the one final function.
  ghost predicate RunChain(chain: seq<Func>) {
    && chain != []
    && (forall i :: 0 <= i < |chain| ==> (chain[i].kind == Final <==> i == |chain| - 1))
    && (forall i :: 0 <= i < |chain| ==>
          IsInjector(chain[i]) || chain[i].kind.Wrapper? || chain[i].kind.Final?)
  }

  // What came back up, and everything that happened.
  datatype Outcome = Outcome(up: Flow, trace: Trace)

  // The inner calls of one wrapper: how many, what the first and the last of them sent up.
  datatype Calls = Calls(count: nat, first: Flow, last: Flow, trace: Trace)

  // What is seen upstream of a wrapper.  It should be what the last inner call sent up, overridden by
  // what the wrapper itself returns; nothing passes a wrapper marked Parallel.  In the code the returns
  // of a wrapper that has called inner() more than once in sequence are lost.
  datatype Mode = AsCoded | Ideal

  function Combined(m: Mode, w: World, f: Func, calls: Calls, values: seq<Value>): Flow
    requires f.kind.Wrapper? && |f.returned| == |values|
  {
    if calls.count == 0 then Bind(Zeroed(w, map[], f.skips), f.returned, values)
    else if f.kind.parallel then Bind(map[], f.returned, values)
    else if m == Ideal then Bind(calls.last, f.returned, values)
    else if calls.count == 1 then Bind(calls.first, f.returned, values)
    else calls.first
  }

  function Zeroed(w: World, m: Flow, types: set<TypeCode>): Flow {
    map t | t in m.Keys + types :: if t in types then w.zero(t) else m[t]
  }

  function RunFrom(m: Mode, w: World, chain: seq<Func>, i: nat, down: Flow, tr: Trace): Outcome
    requires RunChain(chain) && i < |chain|
    decreases |chain| - i, 1, 0
  {
    var p := chain[i];
    var tr1 := tr + [Call(p.id, GetAll(w, down, p.inputs))];
    if p.kind.Final? then
      Outcome(Bind(map[], p.returned, Results(w, p.id, tr1, |p.returned|)), tr1)
    else if p.kind.Wrapper? then
      var calls := RunInner(m, w, chain, i, down, Calls(0, map[], map[], tr1), w.maxCalls(p.id, tr1));
      Outcome(Combined(m, w, p, calls, Results(w, p.id, calls.trace, |p.returned|)), calls.trace)
    else if Fails(w, p, tr1) then
      Outcome(Zeroed(w, map[], p.skips)[ERROR := TheError(w, p, tr1)], tr1)
    else
      RunFrom(m, w, chain, i + 1, Bind(down, p.outputs, Sent(w, p, tr1)), tr1)
  }

  // The inner calls that are still to come: each runs the rest of the chain on what the wrapper was
  // given plus the arguments of that call alone.
  function RunInner(m: Mode, w: World, chain: seq<Func>, i: nat, down: Flow, calls: Calls, left: nat): Calls
    requires RunChain(chain) && i + 1 < |chain|
    decreases |chain| - i, 0, left
  {
    var p := chain[i];
    if left == 0 || !w.wants(p.id, calls.trace) then calls
    else RunInner(m, w, chain, i, down, OneCall(m, w, chain, i, down, calls), left - 1)
  }

  function OneCall(m: Mode, w: World, chain: seq<Func>, i: nat, down: Flow, calls: Calls): Calls
    requires RunChain(chain) && i + 1 < |chain|
    decreases |chain| - i - 1, 2, 0
  {
    var p := chain[i];
    var args := InnerArgs(w, p.id, calls.trace, |p.outputs|);
    var o := RunFrom(m, w, chain, i + 1, Bind(down, p.outputs, args), calls.trace + [Inner(p.id, args)]);
    Calls(calls.count + 1, if calls.count == 0 then o.up else calls.first, o.up,
          o.trace + [Back(p.id, GetAll(w, o.up, p.received))])
  }

  // Whatever comes up from below and whatever the wrapper returns, upstream sees what it should.
  ghost predicate MeetsIdeal(parallel: bool, count: nat) {
    forall w: World, f: Func, calls: Calls, values: seq<Value> ::
      f.kind == Wrapper(parallel) && |values| == |f.returned|
      && calls.count == count && (count == 1 ==> calls.first == calls.last) ==>
        Combined(AsCoded, w, f, calls, values) == Combined(Ideal, w, f, calls, values)
  }

  // The code does what it should for a wrapper exactly if that is marked Parallel, or makes at most one
  // inner call.
  lemma CodeMeetsIdeal(parallel: bool, count: nat)
    ensures MeetsIdeal(parallel, count) <==> count <= 1 || parallel
  {
    if count >= 2 && !parallel {
      var calls := Calls(count, map[], map[ERROR := 7], []);
      var f := LAST.(kind := Wrapper(false));
      assert ERROR in Combined(Ideal, TWO_CALLS, f, calls, []) && ERROR !in Combined(AsCoded, TWO_CALLS, f, calls, []);
    }
  }

  // Wrappers not marked Parallel never call inner() a second time.
  ghost predicate SingleCalls(w: World, chain: seq<Func>) {
    forall i, tr :: 0 <= i < |chain| && chain[i].kind.Wrapper? && !chain[i].kind.parallel ==>
      w.maxCalls(chain[i].id, tr) <= 1
  }

  // For such chains the code computes what it should.
  lemma {:induction false} SingleCallsAreIdeal(w: World, chain: seq<Func>, i: nat, down: Flow, tr: Trace)
    requires RunChain(chain) && i < |chain| && SingleCalls(w, chain)
    ensures RunFrom(AsCoded, w, chain, i, down, tr) == RunFrom(Ideal, w, chain, i, down, tr)
    decreases |chain| - i, 1, 0
  {
    var p := chain[i];
    var tr1 := tr + [Call(p.id, GetAll(w, down, p.inputs))];
    if p.kind.Wrapper? {
      SingleInnersAreIdeal(w, chain, i, down, Calls(0, map[], map[], tr1), w.maxCalls(p.id, tr1));
    } else if !p.kind.Final? && !Fails(w, p, tr1) {
      SingleCallsAreIdeal(w, chain, i + 1, Bind(down, p.outputs, Sent(w, p, tr1)), tr1);
    }
  }

  lemma {:induction false} SingleInnersAreIdeal(w: World, chain: seq<Func>, i: nat, down: Flow, calls: Calls, left: nat)
    requires RunChain(chain) && i + 1 < |chain| && SingleCalls(w, chain)
    requires calls.count == 1 ==> calls.first == calls.last
    ensures RunInner(AsCoded, w, chain, i, down, calls, left) == RunInner(Ideal, w, chain, i, down, calls, left)
    ensures
      var all := RunInner(Ideal, w, chain, i, down, calls, left);
      all.count <= calls.count + left && (all.count == 1 ==> all.first == all.last)
    decreases |chain| - i, 0, left
  {
    if left > 0 && w.wants(chain[i].id, calls.trace) {
      var p := chain[i];
      var args := InnerArgs(w, p.id, calls.trace, |p.outputs|);
      SingleCallsAreIdeal(w, chain, i + 1, Bind(down, p.outputs, args), calls.trace + [Inner(p.id, args)]);
      SingleInnersAreIdeal(w, chain, i, down, OneCall(Ideal, w, chain, i, down, calls), left - 1);
    }
  }

  lemma BindKeys(m: Flow, types: seq<TypeCode>, values: seq<Value>)
    requires |types| == |values|
    ensures forall t :: t in Bind(m, types, values) <==> t in m || t in types
  {
    if types != [] {
      BindKeys(m, types[..|types| - 1], values[..|types| - 1]);
      assert types == types[..|types| - 1] + [types[|types| - 1]];
    }
  }

  // A run in which the code does not: a wrapper that returns an error and calls inner() twice.  The
  // error never reaches whoever is upstream.
  const TWICE: Func := Func(0, Wrapper(false), true, [], [], [ERROR], [], {})
  const LAST: Func := Func(1, Final, true, [], [], [], [], {})
  const TWO_CALLS: World := World(_ => 0, x => x == 0, (_, _, _) => 7, (_, _) => true, (_, _, _) => 0, (_, _) => 2)

  lemma NothingComesUp(m: Mode, down: Flow, tr: Trace)
    ensures RunChain([TWICE, LAST])
    ensures RunFrom(m, TWO_CALLS, [TWICE, LAST], 1, down, tr).up == map[]
  {
    assert [TWICE, LAST][1] == LAST;
    assert Bind(map[], [], []) == map[];
  }

  lemma OneMoreCall(m: Mode, calls: Calls) returns (next: Calls)
    requires calls.count > 0 ==> calls.first == map[]
    ensures RunChain([TWICE, LAST]) && next == OneCall(m, TWO_CALLS, [TWICE, LAST], 0, map[], calls)
    ensures next.count == calls.count + 1 && next.first == next.last == map[]
  {
    var chain, w := [TWICE, LAST], TWO_CALLS;
    assert chain[0] == TWICE;
    var args := InnerArgs(w, 0, calls.trace, 0);
    NothingComesUp(m, Bind(map[], [], args), calls.trace + [Inner(0, args)]);
    next := OneCall(m, w, chain, 0, map[], calls);
  }

  lemma SecondCallLosesReturns()
    ensures RunChain([TWICE, LAST])
    ensures ERROR !in RunFrom(AsCoded, TWO_CALLS, [TWICE, LAST], 0, map[], []).up
    ensures RunFrom(Ideal, TWO_CALLS, [TWICE, LAST], 0, map[], []).up == map[ERROR := 7]
  {
    var chain, w := [TWICE, LAST], TWO_CALLS;
    assert chain[0] == TWICE && chain[1] == LAST;
    forall m: Mode ensures
        var o := RunFrom(m, w, chain, 0, map[], []);
        if m == Ideal then o.up == map[ERROR := 7] else ERROR !in o.up
    {
      var tr1 := [Call(0, GetAll(w, map[], []))];
      assert [] + tr1 == tr1;
      var c0 := Calls(0, map[], map[], tr1);
      var c1 := OneMoreCall(m, c0);
      var c2 := OneMoreCall(m, c1);
      assert RunInner(m, w, chain, 0, map[], c0, 2) == RunInner(m, w, chain, 0, map[], c1, 1)
             == RunInner(m, w, chain, 0, map[], c2, 0) == c2;
      assert Bind(map[], [ERROR], [7]) == map[ERROR := 7] by {
        assert Bind(map[], [], []) == map[];
        assert [ERROR][..0] == [] && [7][..0] == [];
      }
      assert Results(w, 0, c2.trace, 1) == [7];
    }
  }

  // Providers of the static group; a fallible one sends its TerminalError down as an error.
  predicate IsStatic(f: Func) {
    f.kind.StaticInjector?
    || (f.kind.StaticFallible? && f.kind.errorIndex < |f.outputs| && f.outputs[f.kind.errorIndex] == ERROR)
  }

  datatype StaticOutcome = StaticOutcome(down: Flow, failed: bool, trace: Trace)

  // The static chain from its k-th provider on: when a provider fails, what it sent is kept and then
  // the types it skips are zeroed.
  function StaticFrom(w: World, statics: seq<Func>, k: nat, down: Flow, tr: Trace): StaticOutcome
    requires k <= |statics| && forall i :: 0 <= i < |statics| ==> IsStatic(statics[i])
    decreases |statics| - k
  {
    if k == |statics| then StaticOutcome(down, false, tr)
    else
      var f := statics[k];
      var tr1 := tr + [Call(f.id, GetAll(w, down, f.inputs))];
      var down1 := Bind(down, f.outputs, Results(w, f.id, tr1, |f.outputs|));
      if StaticFails(w, f, tr1) then StaticOutcome(Zeroed(w, down1, f.skips), true, tr1)
      else StaticFrom(w, statics, k + 1, down1, tr1)
  }

  predicate StaticFails(w: World, f: Func, tr: Trace)
    requires IsStatic(f)
  {
    f.kind.StaticFallible? && !w.isNil(Results(w, f.id, tr, |f.outputs|)[f.kind.errorIndex])
  }

  // After the failure of a provider, its error can be read exactly if the types skipped do not include
  // that of errors.
  lemma ErrorAfterFailure(w: World, statics: seq<Func>, k: nat, down: Flow, tr: Trace)
    requires k < |statics| && forall i :: 0 <= i < |statics| ==> IsStatic(statics[i])
    requires w.isNil(w.zero(ERROR))
    requires StaticFails(w, statics[k], tr + [Call(statics[k].id, GetAll(w, down, statics[k].inputs))])
    requires forall i :: statics[k].kind.errorIndex < i < |statics[k].outputs| ==> statics[k].outputs[i] != ERROR
    ensures
      var f := statics[k];
      var tr1 := tr + [Call(f.id, GetAll(w, down, f.inputs))];
      var err := Results(w, f.id, tr1, |f.outputs|)[f.kind.errorIndex];
      Get(w, StaticFrom(w, statics, k, down, tr).down, ERROR) == err <==> ERROR !in f.skips
  {
    var f := statics[k];
    var tr1 := tr + [Call(f.id, GetAll(w, down, f.inputs))];
    BindAt(down, f.outputs, Results(w, f.id, tr1, |f.outputs|), f.kind.errorIndex);
  }

  lemma BindAt(m: Flow, types: seq<TypeCode>, values: seq<Value>, k: nat)
    requires |types| == |values| && k < |types|
    requires forall i :: k < i < |types| ==> types[i] != types[k]
    ensures types[k] in Bind(m, types, values) && Bind(m, types, values)[types[k]] == values[k]
  {
    if k < |types| - 1 {
      BindAt(m, types[..|types| - 1], values[..|types| - 1], k);
    }
  }
}
