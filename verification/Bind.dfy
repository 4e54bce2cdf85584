/**
 bind.go: the nesting of the closures, and the bound init and invoke functions with the state they
 share.
 */
module Binding {
  import opened Basics
  import opened Interp
  import opened Generate
  import opened Slots
  import opened Closures

  // What has been worked out for a chain before anything runs.
  datatype Plan = Plan(
    statics: seq<Func>,
    chain: seq<Func>,
    invokeF: Func,
    initF: Option<Func>)

  ghost predicate PlanOk(p: Plan) {
    && RunChain(p.chain)
    && forall i :: 0 <= i < |p.statics| ==> IsStatic(p.statics[i])
  }

  // The state shared by the init and invoke functions, and how often the static chain has run.
  datatype Shared = Shared(initDone: bool, base: Flow, staticRuns: nat)

  // Runs the static chain unless that has been done (initOnce).
  ghost function Once(w: World, p: Plan, s: Shared, base: Flow, tr: Trace): (Shared, Trace)
    requires PlanOk(p)
  {
    if s.initDone then (s, tr)
    else
      var o := StaticFrom(w, p.statics, 0, base, tr);
      (Shared(true, o.down, s.staticRuns + 1), o.trace)
  }

  // The init function: new state, results, trace.
  ghost function InitStep(w: World, p: Plan, s: Shared, inputs: seq<Value>, tr: Trace): (Shared, seq<Value>, Trace)
    requires PlanOk(p) && p.initF.Some? && |inputs| == |p.initF.value.outputs|
  {
    var (s1, tr1) := Once(w, p, s, Interp.Bind(s.base, p.initF.value.outputs, inputs), tr);
    (s1, GetAll(w, s1.base, p.initF.value.received), tr1)
  }

  // The invoke function, as it is coded and as it should be.
  ghost function InvokeStep(m: Mode, w: World, p: Plan, s: Shared, inputs: seq<Value>, tr: Trace)
    : (Shared, seq<Value>, Trace)
    requires PlanOk(p) && |inputs| == |p.invokeF.outputs|
  {
    var (s1, tr1) := if p.initF.Some? then (s, tr) else Once(w, p, s, s.base, tr);
    var o := RunFrom(m, w, p.chain, 0, Interp.Bind(s1.base, p.invokeF.outputs, inputs), tr1);
    (s1, GetAll(w, o.up, p.invokeF.received), o.trace)
  }

  // Nests the closures of the chain, from the last to the first (bind.go:249-297).
  method Nest(cs: seq<Compiled>, ghost chain: seq<Func>, ghost downV: Vmap, ghost upV: Vmap) returns (f: Code)
    requires RunChain(chain) && |cs| == |chain|
    requires forall k :: 0 <= k < |cs| ==> CompiledFor(cs[k], chain[k], downV, upV)
    ensures CodeFor(f, chain, 0, downV, upV)
  {
    hide CompiledFor, BatchFor;
    f := Endpoint(cs[|cs| - 1]);
    var i: int := |cs| - 2;
    forall k | 0 <= k < |cs| ensures cs[k].f == chain[k] {
      MapsOf(cs[k], chain[k], downV, upV);
    }
    while i >= 0
      invariant -1 <= i <= |cs| - 2
      invariant CodeFor(f, chain, i + 1, downV, upV)
    {
      if cs[i].f.kind.Wrapper? {
        f := Around(cs[i], f);
      } else {
        var injectors;
        i, injectors := CollectInjectors(cs, i, chain, downV, upV);
        assert i + |injectors| < |chain|;
        f := Batch(injectors, f);
      }
      i := i - 1;
    }
  }

  // The injectors up to position 'i' that directly follow each other.
  method CollectInjectors(cs: seq<Compiled>, i: nat, ghost chain: seq<Func>, ghost downV: Vmap, ghost upV: Vmap)
    returns (j: nat, injectors: seq<Compiled>)
    requires RunChain(chain) && |cs| == |chain| && i + 1 < |cs|
    requires forall k :: 0 <= k < |cs| ==> CompiledFor(cs[k], chain[k], downV, upV)
    requires IsInjector(chain[i])
    ensures j <= i && injectors == cs[j..i + 1] && BatchFor(injectors, chain, j, downV, upV)
  {
    j := FirstInjector(cs, i);
    injectors := [];
    for k := j to i + 1
      invariant injectors == cs[j..k]
    {
      injectors := injectors + [cs[k]];
    }
  }

  method FirstInjector(cs: seq<Compiled>, i: nat) returns (j: nat)
    requires i < |cs| && (cs[i].f.kind.Injector? || cs[i].f.kind.Fallible?)
    ensures j <= i && forall k :: j <= k <= i ==> cs[k].f.kind.Injector? || cs[k].f.kind.Fallible?
  {
    var n: int := i - 1;
    while n >= 0 && (cs[n].f.kind.Injector? || cs[n].f.kind.Fallible?)
      invariant -1 <= n < i
      invariant forall k :: n < k <= i ==> cs[k].f.kind.Injector? || cs[k].f.kind.Fallible?
    {
      n := n - 1;
    }
    j := n + 1;
  }

  // Everything the bound functions have captured fits the plan.
  ghost predicate Fits(p: Plan, code: Code, statics: seq<Compiled>, downV: Vmap, upV: Vmap,
                       invokeOut: ParameterMap, invokeIn: ParameterMap, initOut: ParameterMap, initIn: ParameterMap)
  {
    && PlanOk(p) && CodeFor(code, p.chain, 0, downV, upV) && ChainPlaced(p.chain, downV, upV)
    && StaticsFor(statics, p.statics, downV)
    && MapFor(invokeOut, p.invokeF.outputs, downV)
    && MapFor(invokeIn, p.invokeF.received, upV) && Placed(p.invokeF.received, upV)
    && (p.initF.Some? ==>
          && MapFor(initOut, p.initF.value.outputs, downV)
          && MapFor(initIn, p.initF.value.received, downV) && Placed(p.initF.value.received, downV))
  }

  // The pair of functions that Bind() hands out.
  class Bound {
    const w: World
    const code: Code
    const statics: seq<Compiled>
    const invokeOut: ParameterMap
    const invokeIn: ParameterMap
    const hasInit: bool
    const initOut: ParameterMap
    const initIn: ParameterMap
    const baseValues: array<Slot>
    var initDone: bool
    ghost const p: Plan
    ghost const downV: Vmap
    ghost const upV: Vmap
    ghost var shared: Shared

    ghost predicate Valid()
      reads this, baseValues
    {
      && Fits(p, code, statics, downV, upV, invokeOut, invokeIn, initOut, initIn)
      && hasInit == p.initF.Some? && shared.initDone == initDone
      && Entry(downV, upV, baseValues[..], shared.base)
    }

    constructor (w: World, code: Code, statics: seq<Compiled>, invokeOut: ParameterMap, invokeIn: ParameterMap,
                 hasInit: bool, initOut: ParameterMap, initIn: ParameterMap, baseValues: array<Slot>,
                 ghost p: Plan, ghost downV: Vmap, ghost upV: Vmap, ghost base: Flow)
      requires Fits(p, code, statics, downV, upV, invokeOut, invokeIn, initOut, initIn)
      requires hasInit == p.initF.Some? && Entry(downV, upV, baseValues[..], base)
      ensures Valid() && this.w == w && this.p == p && shared == Shared(false, base, 0)
      ensures this.baseValues == baseValues
    {
      this.w, this.code, this.statics := w, code, statics;
      this.invokeOut, this.invokeIn := invokeOut, invokeIn;
      this.hasInit, this.initOut, this.initIn := hasInit, initOut, initIn;
      this.baseValues, this.initDone := baseValues, false;
      this.p, this.downV, this.upV, this.shared := p, downV, upV, Shared(false, base, 0);
    }

    // initOnce, wherever the values in the array have come from.
    method RunOnce(tr: Trace, ghost base: Flow) returns (tr': Trace)
      requires Valid() && !initDone && Entry(downV, upV, baseValues[..], base)
      modifies this, baseValues
      ensures Valid() && (shared, tr') == Once(w, p, old(shared), base, tr)
    {
      var failed;
      ghost var o;
      failed, tr', o := RunStaticChain(w, statics, baseValues, tr, p.statics, downV, upV, base);
      initDone := true;
      shared := Shared(true, o.down, shared.staticRuns + 1);
    }

    method Init(inputs: seq<Value>, tr: Trace) returns (out: seq<Value>, tr': Trace)
      requires Valid() && hasInit && |inputs| == |p.initF.value.outputs|
      modifies this, baseValues
      ensures Valid() && (shared, out, tr') == InitStep(w, p, old(shared), inputs, tr)
    {
      tr' := tr;
      if !initDone {
        ghost var before := baseValues[..];
        WriteParameters(w, initOut, baseValues, inputs, p.initF.value.outputs, downV, upV, shared.base);
        SameSlotsCarry(upV, before, baseValues[..], map[]);
        shared := shared.(base := Interp.Bind(shared.base, p.initF.value.outputs, inputs));
        tr' := RunOnce(tr, shared.base);
      }
      out := ReadParameters(w, initIn, baseValues, p.initF.value.received, downV, shared.base);
    }

    method Invoke(inputs: seq<Value>, tr: Trace) returns (out: seq<Value>, tr': Trace)
      requires Valid() && |inputs| == |p.invokeF.outputs|
      modifies this, baseValues
      ensures Valid() && (shared, out, tr') == InvokeStep(AsCoded, w, p, old(shared), inputs, tr)
    {
      tr' := tr;
      if !hasInit && !initDone {
        tr' := RunOnce(tr, shared.base);
      }
      var values := Copy(baseValues);
      WriteParameters(w, invokeOut, values, inputs, p.invokeF.outputs, downV, upV, shared.base);
      SameSlotsCarry(upV, baseValues[..], values[..], map[]);
      ghost var down := Interp.Bind(shared.base, p.invokeF.outputs, inputs);
      ghost var o := RunFrom(AsCoded, w, p.chain, 0, down, tr');
      tr' := Exec(w, code, values, tr', p.chain, 0, downV, upV, down);
      out := ReadParameters(w, invokeIn, values, p.invokeF.received, upV, o.up);
    }
  }

  // Any sequence of calls of the two functions.
  datatype Op = InitCall(inputs: seq<Value>) | InvokeCall(inputs: seq<Value>)

  ghost predicate OpOk(p: Plan, op: Op) {
    match op
    case InitCall(inputs) => p.initF.Some? && |inputs| == |p.initF.value.outputs|
    case InvokeCall(inputs) => |inputs| == |p.invokeF.outputs|
  }

  ghost function OpStep(m: Mode, w: World, p: Plan, s: Shared, op: Op, tr: Trace): (Shared, seq<Value>, Trace)
    requires PlanOk(p) && OpOk(p, op)
  {
    match op
    case InitCall(inputs) => InitStep(w, p, s, inputs, tr)
    case InvokeCall(inputs) => InvokeStep(m, w, p, s, inputs, tr)
  }

  // The state after a sequence of calls, the results of all of them, and everything that happened.
  datatype Past = Past(s: Shared, results: seq<seq<Value>>, trace: Trace)

  ghost function History(m: Mode, w: World, p: Plan, s: Shared, ops: seq<Op>, tr: Trace): Past
    requires PlanOk(p) && forall op :: op in ops ==> OpOk(p, op)
    decreases |ops|
  {
    if ops == [] then Past(s, [], tr)
    else
      var (s1, out, tr1) := OpStep(m, w, p, s, ops[0], tr);
      var rest := History(m, w, p, s1, ops[1..], tr1);
      rest.(results := [out] + rest.results)
  }

  // If wrappers not marked Parallel make at most one inner call, every history is as it should be.
  lemma {:induction false} HistoryIsIdeal(w: World, p: Plan, s: Shared, ops: seq<Op>, tr: Trace)
    requires PlanOk(p) && (forall op :: op in ops ==> OpOk(p, op)) && SingleCalls(w, p.chain)
    ensures History(AsCoded, w, p, s, ops, tr) == History(Ideal, w, p, s, ops, tr)
    decreases |ops|
  {
    if ops != [] {
      var (s1, out, tr1) := OpStep(AsCoded, w, p, s, ops[0], tr);
      if ops[0].InvokeCall? {
        InvokeIsIdeal(w, p, s, ops[0].inputs, tr);
      }
      HistoryIsIdeal(w, p, s1, ops[1..], tr1);
    }
  }

  lemma InvokeIsIdeal(w: World, p: Plan, s: Shared, inputs: seq<Value>, tr: Trace)
    requires PlanOk(p) && |inputs| == |p.invokeF.outputs| && SingleCalls(w, p.chain)
    ensures InvokeStep(AsCoded, w, p, s, inputs, tr) == InvokeStep(Ideal, w, p, s, inputs, tr)
  {
    var (s1, tr1) := if p.initF.Some? then (s, tr) else Once(w, p, s, s.base, tr);
    SingleCallsAreIdeal(w, p.chain, 0, Interp.Bind(s1.base, p.invokeF.outputs, inputs), tr1);
  }

  // Once the static chain has run, no sequence of calls runs it again or changes the base values.
  lemma {:induction false} StaticChainSettles(m: Mode, w: World, p: Plan, s: Shared, ops: seq<Op>, tr: Trace)
    requires PlanOk(p) && (forall op :: op in ops ==> OpOk(p, op)) && s.initDone
    ensures History(m, w, p, s, ops, tr).s == s
    decreases |ops|
  {
    if ops != [] {
      assert OpStep(m, w, p, s, ops[0], tr).0 == s;
      StaticChainSettles(m, w, p, s, ops[1..], OpStep(m, w, p, s, ops[0], tr).2);
    }
  }

  // Over any sequence of calls the static chain runs at most once, and it has run exactly if it is
  // marked as done.
  lemma {:induction false} StaticChainRunsOnce(m: Mode, w: World, p: Plan, base: Flow, ops: seq<Op>, tr: Trace)
    requires PlanOk(p) && forall op :: op in ops ==> OpOk(p, op)
    ensures
      var s := History(m, w, p, Shared(false, base, 0), ops, tr).s;
      s.staticRuns == (if s.initDone then 1 else 0)
    decreases |ops|
  {
    if ops != [] {
      var (s1, out, tr1) := OpStep(m, w, p, Shared(false, base, 0), ops[0], tr);
      if s1.initDone {
        StaticChainSettles(m, w, p, s1, ops[1..], tr1);
      } else {
        assert s1 == Shared(false, base, 0);
        StaticChainRunsOnce(m, w, p, base, ops[1..], tr1);
      }
    }
  }

  // One history after the other.
  lemma {:induction false} HistoryAppends(m: Mode, w: World, p: Plan, s: Shared, ops: seq<Op>, more: seq<Op>, tr: Trace)
    requires PlanOk(p) && (forall op :: op in ops ==> OpOk(p, op)) && forall op :: op in more ==> OpOk(p, op)
    ensures forall op :: op in ops + more ==> OpOk(p, op)
    ensures
      var past := History(m, w, p, s, ops, tr);
      History(m, w, p, s, ops + more, tr).s == History(m, w, p, past.s, more, past.trace).s
    decreases |ops|
  {
    if ops == [] {
      assert ops + more == more;
    } else {
      assert (ops + more)[0] == ops[0] && (ops + more)[1..] == ops[1..] + more;
      var (s1, out, tr1) := OpStep(m, w, p, s, ops[0], tr);
      HistoryAppends(m, w, p, s1, ops[1..], more, tr1);
    }
  }

  // With an init function, no invoke call runs the static chain or changes the base values.
  lemma {:induction false} InvokesLeaveTheBase(m: Mode, w: World, p: Plan, s: Shared, ops: seq<Op>, tr: Trace)
    requires PlanOk(p) && p.initF.Some? && forall op :: op in ops ==> OpOk(p, op) && op.InvokeCall?
    ensures History(m, w, p, s, ops, tr).s == s
    decreases |ops|
  {
    if ops != [] {
      var op := ops[0];
      assert op in ops && op.InvokeCall?;
      assert OpStep(m, w, p, s, op, tr).0 == s;
      InvokesLeaveTheBase(m, w, p, s, ops[1..], OpStep(m, w, p, s, op, tr).2);
    }
  }

  // Only the inputs of the first init call count, wherever it comes in the history.
  lemma FirstInitDecides(m: Mode, w: World, p: Plan, base: Flow, before: seq<Op>, inputs: seq<Value>, after: seq<Op>,
                         tr: Trace)
    requires PlanOk(p) && p.initF.Some? && |inputs| == |p.initF.value.outputs|
    requires forall op :: op in before ==> OpOk(p, op) && op.InvokeCall?
    requires forall op :: op in after ==> OpOk(p, op)
    ensures forall op :: op in before + ([InitCall(inputs)] + after) ==> OpOk(p, op)
    ensures
      var s := Shared(false, base, 0);
      var tr1 := History(m, w, p, s, before, tr).trace;
      History(m, w, p, s, before + ([InitCall(inputs)] + after), tr).s ==
        Once(w, p, s, Interp.Bind(base, p.initF.value.outputs, inputs), tr1).0
  {
    var s := Shared(false, base, 0);
    var ops := [InitCall(inputs)] + after;
    InvokesLeaveTheBase(m, w, p, s, before, tr);
    HistoryAppends(m, w, p, s, before, ops, tr);
    var tr1 := History(m, w, p, s, before, tr).trace;
    var (s1, out, tr2) := OpStep(m, w, p, s, ops[0], tr1);
    assert ops[0] == InitCall(inputs) && ops[1..] == after;
    StaticChainSettles(m, w, p, s1, after, tr2);
  }
}
