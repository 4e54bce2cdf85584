/**
 The code does what the direct interpreter does, if everybody gets what it takes from the closest entry.
 */
module DirectAgrees {
  import opened Basics
  import opened Interp
  import opened Slots
  import opened Binding
  import opened Binder
  import opened Supply
  import opened Direct

  // ------------------------------------------------------------------ Binding

  lemma BindSplits(m: Flow, types: seq<TypeCode>, values: seq<Value>)
    requires |types| == |values|
    ensures Interp.Bind(m, types, values) == m + Interp.Bind(map[], types, values)
  {
    if types != [] {
      BindSplits(m, types[..|types| - 1], values[..|types| - 1]);
    }
  }

  // What binding does, read back.
  lemma BindGets(w: World, m: Flow, types: seq<TypeCode>, values: seq<Value>)
    requires |types| == |values|
    ensures forall t :: t in types ==>
              && t in Interp.Bind(m, types, values) && t in Interp.Bind(map[], types, values)
              && Interp.Bind(m, types, values)[t] == Interp.Bind(map[], types, values)[t]
    ensures forall t :: t !in types ==>
              && (t in Interp.Bind(m, types, values) <==> t in m)
              && Get(w, Interp.Bind(m, types, values), t) == Get(w, m, t)
  {
    BindSplits(m, types, values);
    BindKeys(map[], types, values);
  }

  lemma BindValues(types: seq<TypeCode>, values: seq<Value>, t: TypeCode, x: Value)
    requires |types| == |values| && t in types
    requires forall k :: 0 <= k < |types| && types[k] == t ==> values[k] == x
    ensures t in Interp.Bind(map[], types, values) && Interp.Bind(map[], types, values)[t] == x
  {
    var n := |types| - 1;
    if types[n] != t {
      assert types == types[..n] + [types[n]];
      BindValues(types[..n], values[..n], t, x);
    }
  }

  // ------------------------------------------------------------------ The static phase

  // What each entry binds while nobody has failed.
  ghost function Val(w: World, funcs: seq<Func>, initInputs: seq<Value>, sent: seq<Flow>, j: nat, t: TypeCode): Value
    requires j < |funcs| && Runnable(funcs, initInputs)
  {
    if funcs[j].kind.Literal? then funcs[j].kind.value
    else if funcs[j].kind.Init? then Get(w, Interp.Bind(map[], funcs[j].outputs, initInputs), t)
    else if j < |sent| then Get(w, sent[j], t) else 0
  }

  // The base values when the static chain has come to position 'n'.
  ghost predicate CodedIs(w: World, funcs: seq<Func>, init: Option<nat>, initInputs: seq<Value>, n: nat, down: Flow,
                          sent: seq<Flow>)
    requires n <= |funcs| && Runnable(funcs, initInputs) && (init.Some? ==> init.value < |funcs|)
  {
    forall t ::
      var j := CodedEarly(funcs, init, n, t);
      (t in down <==> j.Some?) && (j.Some? ==> down[t] == Val(w, funcs, initInputs, sent, j.value, t))
  }

  lemma {:induction false} LiteralFlowIs(funcs: seq<Func>, n: nat, t: TypeCode)
    requires n <= |funcs| && forall i: nat :: i < |funcs| && funcs[i].kind.Literal? ==> |funcs[i].outputs| == 1
    ensures
      var j := Latest(funcs, n, t, LiteralOnes);
      && (t in LiteralFlow(funcs, n) <==> j.Some?)
         && (j.Some? ==> LiteralFlow(funcs, n)[t] == funcs[j.value].kind.value)
  {
    if n > 0 {
      LiteralFlowIs(funcs, n - 1, t);
      var f := funcs[n - 1];
      assert f.kind.Literal? ==> f.outputs == [f.outputs[0]];
    }
  }

  lemma CodedStarts(w: World, funcs: seq<Func>, invokeIndex: nat, invoke: nat, init: Option<nat>,
                    initInputs: seq<Value>)
    requires Prepared(funcs, invokeIndex, invoke, init) && Runnable(funcs, initInputs)
    ensures forall i: nat :: i < |funcs| && funcs[i].kind.Literal? ==> funcs[i].outputs != []
    ensures init.Some? ==> init.value < |funcs| && |initInputs| == |funcs[init.value].outputs|
    ensures CodedIs(w, funcs, init, initInputs, 0, StartOf(funcs, init, initInputs), [])
  {
    var down := StartOf(funcs, init, initInputs);
    if init.Some? {
      BindGets(w, LiteralFlow(funcs, |funcs|), funcs[init.value].outputs, initInputs);
    }
    forall t ensures
        var j := CodedEarly(funcs, init, 0, t);
        (t in down <==> j.Some?) && (j.Some? ==> down[t] == Val(w, funcs, initInputs, [], j.value, t))
    {
      LiteralFlowIs(funcs, |funcs|, t);
    }
  }

  // Whose value is there one position further on.
  lemma CodedEarlyStep(funcs: seq<Func>, init: Option<nat>, n: nat, t: TypeCode)
    requires n < |funcs| && (init.Some? ==> init.value < |funcs|)
    ensures CodedEarly(funcs, init, n + 1, t) ==
              if funcs[n].included && InGroup(funcs[n], Statics) && t in funcs[n].outputs then Some(n)
              else CodedEarly(funcs, init, n, t)
  {
  }

  lemma CodedEarlyIs(funcs: seq<Func>, init: Option<nat>, n: nat, t: TypeCode)
    requires n <= |funcs|
    requires init.Some? ==> init.value < |funcs| && funcs[init.value].kind.Init? && funcs[init.value].included
    ensures
      var j := CodedEarly(funcs, init, n, t);
      && (j.Some? ==>
            j.value < |funcs| && funcs[j.value].included && Early(funcs[j.value])
            && t in funcs[j.value].outputs)
      && (j.Some? && InGroup(funcs[j.value], Statics) ==> j.value < n)
  {
  }

  // What an entry binds does not depend on what others bind after it.
  lemma ValStays(w: World, funcs: seq<Func>, initInputs: seq<Value>, sent: seq<Flow>, sent': seq<Flow>, j: nat,
                 t: TypeCode)
    requires j < |funcs| && Runnable(funcs, initInputs) && sent <= sent'
    ensures j < |sent| || funcs[j].kind.Literal? || funcs[j].kind.Init? ==>
              Val(w, funcs, initInputs, sent', j, t) == Val(w, funcs, initInputs, sent, j, t)
  {
  }

  lemma CodedNext(w: World, funcs: seq<Func>, init: Option<nat>, initInputs: seq<Value>, n: nat, down: Flow,
                  sent: seq<Flow>, values: seq<Value>)
    requires n < |funcs| && |sent| == n && Runnable(funcs, initInputs)
    requires init.Some? ==> init.value < |funcs| && funcs[init.value].kind.Init? && funcs[init.value].included
    requires CodedIs(w, funcs, init, initInputs, n, down, sent)
    requires funcs[n].included && InGroup(funcs[n], Statics) && |values| == |funcs[n].outputs|
    ensures CodedIs(w, funcs, init, initInputs, n + 1, Interp.Bind(down, funcs[n].outputs, values),
                    sent + [Interp.Bind(map[], funcs[n].outputs, values)])
  {
    hide CodedEarly, Val, Runnable, Interp.Bind;
    BindGets(w, down, funcs[n].outputs, values);
    var b := Interp.Bind(map[], funcs[n].outputs, values);
    var down', sent' := Interp.Bind(down, funcs[n].outputs, values), sent + [b];
    forall t ensures
        var j := CodedEarly(funcs, init, n + 1, t);
        (t in down' <==> j.Some?) && (j.Some? ==> down'[t] == Val(w, funcs, initInputs, sent', j.value, t))
    {
      CodedEarlyStep(funcs, init, n, t);
      CodedEarlyIs(funcs, init, n, t);
      ValOfStatic(w, funcs, initInputs, sent', n, t);
      var j := CodedEarly(funcs, init, n, t);
      if j.Some? {
        ValStays(w, funcs, initInputs, sent, sent', j.value, t);
      }
      assert t !in funcs[n].outputs && t in down ==> Get(w, down', t) == Get(w, down, t);
    }
  }

  lemma ValOfStatic(w: World, funcs: seq<Func>, initInputs: seq<Value>, sent: seq<Flow>, j: nat, t: TypeCode)
    requires j < |funcs| && j < |sent| && Runnable(funcs, initInputs) && InGroup(funcs[j], Statics)
    ensures Val(w, funcs, initInputs, sent, j, t) == Get(w, sent[j], t)
  {
  }

  lemma CodedSkips(w: World, funcs: seq<Func>, init: Option<nat>, initInputs: seq<Value>, n: nat, down: Flow,
                   sent: seq<Flow>, x: Flow)
    requires n < |funcs| && |sent| == n && Runnable(funcs, initInputs)
    requires init.Some? ==> init.value < |funcs| && funcs[init.value].kind.Init? && funcs[init.value].included
    requires CodedIs(w, funcs, init, initInputs, n, down, sent)
    requires !(funcs[n].included && InGroup(funcs[n], Statics))
    ensures CodedIs(w, funcs, init, initInputs, n + 1, down, sent + [x])
  {
    hide CodedEarly, Val, Runnable;
    forall t ensures
        var j := CodedEarly(funcs, init, n + 1, t);
        (t in down <==> j.Some?) && (j.Some? ==> down[t] == Val(w, funcs, initInputs, sent + [x], j.value, t))
    {
      CodedEarlyStep(funcs, init, n, t);
      CodedEarlyIs(funcs, init, n, t);
      var j := CodedEarly(funcs, init, n, t);
      if j.Some? {
        ValStays(w, funcs, initInputs, sent, sent + [x], j.value, t);
      }
    }
  }

  // Each entry of the static phase has bound all that it sends.
  ghost predicate SentOk(funcs: seq<Func>, sent: seq<Flow>) {
    && |sent| <= |funcs|
    && forall j: nat, t :: j < |sent| && funcs[j].included && Early(funcs[j]) ==>
         (t in sent[j] <==> t in funcs[j].outputs)
  }

  lemma {:induction false} BoundIs(funcs: seq<Func>, sent: seq<Flow>, n: nat, t: TypeCode)
    requires n <= |sent| && SentOk(funcs, sent)
    ensures
      var j := ClosestEarly(funcs, n, t);
      && (t in BoundBefore(funcs, sent, n) <==> j.Some?)
      && (j.Some? ==> t in sent[j.value] && BoundBefore(funcs, sent, n)[t] == sent[j.value][t])
  {
    if n > 0 {
      BoundIs(funcs, sent, n - 1, t);
    }
  }

  // What the static phase has bound up to position 'n', as long as nobody has failed.
  lemma {:induction false} PassIs(w: World, funcs: seq<Func>, initInputs: seq<Value>, n: nat, tr: Trace)
    requires n <= |funcs| && Runnable(funcs, initInputs)
    ensures
      var p := StaticPass(w, funcs, initInputs, n, tr);
      && SentOk(funcs, p.sent)
      && (!p.failed ==> forall j: nat, t :: j < n && funcs[j].included && Early(funcs[j]) && t in funcs[j].outputs ==>
            p.sent[j][t] == Val(w, funcs, initInputs, p.sent, j, t))
  {
    if n > 0 {
      PassIs(w, funcs, initInputs, n - 1, tr);
      LastBound(w, funcs, initInputs, n, tr);
    }
  }

  lemma LastBound(w: World, funcs: seq<Func>, initInputs: seq<Value>, n: nat, tr: Trace)
    requires 0 < n <= |funcs| && Runnable(funcs, initInputs)
    requires SentOk(funcs, StaticPass(w, funcs, initInputs, n - 1, tr).sent)
    ensures
      var p, q, f := StaticPass(w, funcs, initInputs, n - 1, tr), StaticPass(w, funcs, initInputs, n, tr), funcs[n - 1];
      && q.sent[..n - 1] == p.sent && SentOk(funcs, q.sent) && (p.failed ==> q.failed)
      && (!q.failed && f.included && Early(f) ==>
            forall t :: t in f.outputs ==> q.sent[n - 1][t] == Val(w, funcs, initInputs, q.sent, n - 1, t))
  {
    hide BoundBefore;
    var p, f := StaticPass(w, funcs, initInputs, n - 1, tr), funcs[n - 1];
    BindKeys(map[], f.outputs, GetAll(w, map[], f.outputs));
    if f.kind.Init? {
      BindKeys(map[], f.outputs, initInputs);
    }
    var tr1 := p.trace + [Call(f.id, GetAll(w, BoundBefore(funcs, p.sent, n - 1), f.inputs))];
    BindKeys(map[], f.outputs, Results(w, f.id, tr1, |f.outputs|));
    assert f.kind.Literal? ==> f.outputs == [f.outputs[0]];
  }

  // The entries from position 'n' on have bound zero values.
  ghost predicate ZeroSent(w: World, funcs: seq<Func>, sent: seq<Flow>, n: nat) {
    && |sent| <= |funcs|
    && forall j: nat, t :: n <= j < |sent| && funcs[j].included && Early(funcs[j]) && t in funcs[j].outputs ==>
         IsZero(w, sent[j], t)
  }

  predicate IsZero(w: World, m: Flow, t: TypeCode) {
    t in m && m[t] == w.zero(t)
  }

  // Once somebody has failed nobody else is called, and what later entries send is zero.
  lemma {:induction false} AfterFailure(w: World, funcs: seq<Func>, initInputs: seq<Value>, n: nat, m: nat, tr: Trace)
    requires n <= m <= |funcs| && Runnable(funcs, initInputs) && StaticPass(w, funcs, initInputs, n, tr).failed
    ensures
      var p, q := StaticPass(w, funcs, initInputs, n, tr), StaticPass(w, funcs, initInputs, m, tr);
      q.failed && q.trace == p.trace && p.sent <= q.sent && ZeroSent(w, funcs, q.sent, n)
  {
    if n < m {
      AfterFailure(w, funcs, initInputs, n, m - 1, tr);
      var q0, f := StaticPass(w, funcs, initInputs, m - 1, tr), funcs[m - 1];
      var x := if f.included && Early(f) then Interp.Bind(map[], f.outputs, GetAll(w, map[], f.outputs)) else map[];
      assert StaticPass(w, funcs, initInputs, m, tr).sent == q0.sent + [x];
      forall t | t in f.outputs && f.included && Early(f) ensures IsZero(w, x, t) {
        BindValues(f.outputs, GetAll(w, map[], f.outputs), t, w.zero(t));
      }
      OneMoreZero(w, funcs, q0.sent, n, x);
    }
  }

  lemma OneMoreZero(w: World, funcs: seq<Func>, sent: seq<Flow>, n: nat, x: Flow)
    requires ZeroSent(w, funcs, sent, n) && |sent| < |funcs|
    requires
      var f := funcs[|sent|];
      f.included && Early(f) ==> forall t :: t in f.outputs ==> IsZero(w, x, t)
    ensures ZeroSent(w, funcs, sent + [x], n)
  {
    var sent' := sent + [x];
    forall j: nat, t | n <= j < |sent'| && funcs[j].included && Early(funcs[j]) && t in funcs[j].outputs
      ensures IsZero(w, sent'[j], t)
    {
      assert sent'[j] == if j < |sent| then sent[j] else x;
    }
  }

  // The value entry 'j' has bound; none if there is no such entry.
  ghost function SentBy(w: World, sent: seq<Flow>, j: Option<nat>, t: TypeCode): Value {
    if j.Some? && j.value < |sent| then Get(w, sent[j.value], t) else w.zero(t)
  }

  // For every type that is left from one entry, the base values hold what that has bound.
  ghost predicate BaseIs(w: World, funcs: seq<Func>, invokeIndex: nat, init: Option<nat>, base: Flow, sent: seq<Flow>)
    requires invokeIndex <= |funcs| && (init.Some? ==> init.value < |funcs|)
  {
    forall t, j :: Mentioned(funcs, t) && LeftFrom(funcs, invokeIndex, init, t, j) ==>
      Get(w, base, t) == SentBy(w, sent, j, t)
  }

  ghost predicate StaticsGetClosest(funcs: seq<Func>, init: Option<nat>)
    requires init.Some? ==> init.value < |funcs|
  {
    forall k: nat, t :: k < |funcs| && funcs[k].included && InGroup(funcs[k], Statics) && t in funcs[k].inputs ==>
      CodedEarly(funcs, init, k, t) == ClosestEarly(funcs, k, t)
  }

  lemma SameArguments(w: World, funcs: seq<Func>, init: Option<nat>, initInputs: seq<Value>, n: nat, down: Flow,
                      tr: Trace)
    requires n < |funcs| && Runnable(funcs, initInputs)
    requires init.Some? ==> init.value < |funcs| && funcs[init.value].kind.Init? && funcs[init.value].included
    requires StaticsGetClosest(funcs, init)
    requires funcs[n].included && InGroup(funcs[n], Statics)
    requires
      var p := StaticPass(w, funcs, initInputs, n, tr);
      !p.failed && CodedIs(w, funcs, init, initInputs, n, down, p.sent)
    ensures GetAll(w, down, funcs[n].inputs) ==
              GetAll(w, BoundBefore(funcs, StaticPass(w, funcs, initInputs, n, tr).sent, n), funcs[n].inputs)
  {
    hide StaticPass, BoundBefore, Runnable;
    var p, f := StaticPass(w, funcs, initInputs, n, tr), funcs[n];
    PassIs(w, funcs, initInputs, n, tr);
    forall i | 0 <= i < |f.inputs| ensures Get(w, down, f.inputs[i])
        == Get(w, BoundBefore(funcs, p.sent, n), f.inputs[i]) {
      var t := f.inputs[i];
      assert CodedEarly(funcs, init, n, t) == ClosestEarly(funcs, n, t);
      BoundIs(funcs, p.sent, n, t);
    }
  }

  // Before somebody has failed, the static chain does what the static phase does in the order of the list.
  lemma {:induction false} StaticAgrees(w: World, funcs: seq<Func>, invokeIndex: nat, invoke: nat, init: Option<nat>,
                                        initInputs: seq<Value>, n: nat, down: Flow, tr: Trace)
    requires Prepared(funcs, invokeIndex, invoke, init) && Runnable(funcs, initInputs) && n <= |funcs|
    requires init.Some? ==> init.value < |funcs| && funcs[init.value].kind.Init? && funcs[init.value].included
    requires StaticsGetClosest(funcs, init)
    requires
      var p := StaticPass(w, funcs, initInputs, n, tr);
      !p.failed && CodedIs(w, funcs, init, initInputs, n, down, p.sent)
    ensures
      var statics, k := Collection(funcs, invokeIndex, Statics, |funcs|), |Collection(funcs, invokeIndex, Statics, n)|;
      && invokeIndex <= |funcs| && (forall i :: 0 <= i < |statics| ==> IsStatic(statics[i])) && k <= |statics|
      && var p, q := StaticPass(w, funcs, initInputs, n, tr), StaticPass(w, funcs, initInputs, |funcs|, tr);
         var o := StaticFrom(w, statics, k, down, p.trace);
         o.trace == q.trace && BaseIs(w, funcs, invokeIndex, init, o.down, q.sent)
    decreases |funcs| - n
  {
    hide *;
    PreparedIsPhased(funcs, invokeIndex, invoke, init);
    PhasesAre(funcs, invokeIndex, invoke);
    var p := StaticPass(w, funcs, initInputs, n, tr);
    if n == |funcs| {
      StaticsAreStatic(funcs, invokeIndex, invoke, n);
      NoMoreStatics(w, funcs, invokeIndex, down, p.trace);
      PassIs(w, funcs, initInputs, n, tr);
      EndsWell(w, funcs, invokeIndex, init, initInputs, down, p.sent);
    } else {
      StaticTurn(w, funcs, invokeIndex, invoke, n, down, p.trace);
      var f := funcs[n];
      PassNext(w, funcs, initInputs, n, tr);
      if f.included && InGroup(f, Statics) {
        SameArguments(w, funcs, init, initInputs, n, down, tr);
        var tr1 := p.trace + [Call(f.id, GetAll(w, down, f.inputs))];
        var results := Results(w, f.id, tr1, |f.outputs|);
        CodedNext(w, funcs, init, initInputs, n, down, p.sent, results);
        if StaticFails(w, f, tr1) {
          OnlyFallibleFail(w, f, tr1);
          FailureAgrees(w, funcs, invokeIndex, init, initInputs, n, Interp.Bind(down, f.outputs, results), tr);
        } else {
          StaticAgrees(w, funcs, invokeIndex, invoke, init, initInputs, n + 1, Interp.Bind(down, f.outputs, results),
                       tr);
        }
      } else {
        var x := StaticPass(w, funcs, initInputs, n + 1, tr).sent[n];
        CodedSkips(w, funcs, init, initInputs, n, down, p.sent, x);
        StaticAgrees(w, funcs, invokeIndex, invoke, init, initInputs, n + 1, down, tr);
      }
    }
  }

  lemma NoMoreStatics(w: World, funcs: seq<Func>, invokeIndex: nat, down: Flow, tr: Trace)
    requires invokeIndex <= |funcs|
    requires
      var statics := Collection(funcs, invokeIndex, Statics, |funcs|);
      forall i :: 0 <= i < |statics| ==> IsStatic(statics[i])
    ensures
      var statics := Collection(funcs, invokeIndex, Statics, |funcs|);
      StaticFrom(w, statics, |statics|, down, tr) == StaticOutcome(down, false, tr)
  {
  }

  lemma EndsWell(w: World, funcs: seq<Func>, invokeIndex: nat, init: Option<nat>, initInputs: seq<Value>, down: Flow,
                 sent: seq<Flow>)
    requires invokeIndex <= |funcs| == |sent| && Runnable(funcs, initInputs) && SentOk(funcs, sent)
    requires init.Some? ==> init.value < |funcs| && funcs[init.value].kind.Init? && funcs[init.value].included
    requires CodedIs(w, funcs, init, initInputs, |funcs|, down, sent)
    requires forall j: nat, t :: j < |funcs| && funcs[j].included && Early(funcs[j]) && t in funcs[j].outputs ==>
               sent[j][t] == Val(w, funcs, initInputs, sent, j, t)
    ensures BaseIs(w, funcs, invokeIndex, init, down, sent)
  {
    forall t, j | Mentioned(funcs, t) && LeftFrom(funcs, invokeIndex, init, t, j)
      ensures Get(w, down, t) == SentBy(w, sent, j, t)
    {
      assert MayFail(funcs, None) && CodedLeft(funcs, invokeIndex, init, None, t) == j;
    }
  }

  // One position of the static phase, read in the order of the list.
  lemma PassNext(w: World, funcs: seq<Func>, initInputs: seq<Value>, n: nat, tr: Trace)
    requires n < |funcs| && Runnable(funcs, initInputs) && !StaticPass(w, funcs, initInputs, n, tr).failed
    ensures
      var p, q, f := StaticPass(w, funcs, initInputs, n, tr), StaticPass(w, funcs, initInputs, n + 1, tr), funcs[n];
      && q.sent == p.sent + [q.sent[n]] && |p.sent| == n
      && if f.included && InGroup(f, Statics) then
           var tr1 := p.trace + [Call(f.id, GetAll(w, BoundBefore(funcs, p.sent, n), f.inputs))];
           && IsStatic(f) && q.trace == tr1 && q.failed == StaticFails(w, f, tr1)
           && q.sent == p.sent + [Interp.Bind(map[], f.outputs, Results(w, f.id, tr1, |f.outputs|))]
         else q.trace == p.trace && !q.failed
  {
  }

  lemma FailureAgrees(w: World, funcs: seq<Func>, invokeIndex: nat, init: Option<nat>, initInputs: seq<Value>, n: nat,
                      down: Flow, tr: Trace)
    requires n < |funcs| && invokeIndex <= |funcs| && Runnable(funcs, initInputs)
    requires init.Some? ==> init.value < |funcs| && funcs[init.value].kind.Init? && funcs[init.value].included
    requires funcs[n].included && funcs[n].kind.StaticFallible?
    requires
      var p := StaticPass(w, funcs, initInputs, n + 1, tr);
      && p.failed && !StaticPass(w, funcs, initInputs, n, tr).failed
      && CodedIs(w, funcs, init, initInputs, n + 1, down, p.sent)
    ensures
      var q := StaticPass(w, funcs, initInputs, |funcs|, tr);
      && q.trace == StaticPass(w, funcs, initInputs, n + 1, tr).trace
      && BaseIs(w, funcs, invokeIndex, init, Zeroed(w, down, WithSkips(funcs, invokeIndex, n).skips), q.sent)
  {
    hide *;
    var p, q := StaticPass(w, funcs, initInputs, n + 1, tr), StaticPass(w, funcs, initInputs, |funcs|, tr);
    AfterFailure(w, funcs, initInputs, n + 1, |funcs|, tr);
    forall t, j | Mentioned(funcs, t) && LeftFrom(funcs, invokeIndex, init, t, j)
      ensures Get(w, Zeroed(w, down, WithSkips(funcs, invokeIndex, n).skips), t) == SentBy(w, q.sent, j, t)
    {
      ZeroedGets(w, funcs, invokeIndex, n, down, t);
      LeftFromMeans(funcs, invokeIndex, init, t, j, n);
      CodedEarlyIs(funcs, init, |funcs|, t);
      if j == ShouldBeLeft(Some(n), j) && j.Some? {
        NotLater(n, j);
        ValueBefore(w, funcs, init, initInputs, n, down, tr, j.value, t);
      } else {
        Later(n, j);
        LaterIsZero(w, funcs, q.sent, n, j, t);
        SentByZero(w, q.sent, j, t);
        CodedGets(w, funcs, init, initInputs, n + 1, down, p.sent, t);
      }
    }
    BaseIsIs(w, funcs, invokeIndex, init, Zeroed(w, down, WithSkips(funcs, invokeIndex, n).skips), q.sent);
  }

  lemma OnlyFallibleFail(w: World, f: Func, tr: Trace)
    requires IsStatic(f) && StaticFails(w, f, tr)
    ensures f.kind.StaticFallible?
  {
  }

  lemma NotLater(n: nat, j: Option<nat>)
    requires j.Some? && ShouldBeLeft(Some(n), j) == j
    ensures j.value <= n
  {
  }

  lemma Later(n: nat, j: Option<nat>)
    requires j.None? || ShouldBeLeft(Some(n), j) != j
    ensures ShouldBeLeft(Some(n), j) == None && (j.Some? ==> j.value > n)
  {
  }

  lemma LaterIsZero(w: World, funcs: seq<Func>, sent: seq<Flow>, n: nat, j: Option<nat>, t: TypeCode)
    requires ZeroSent(w, funcs, sent, n + 1) && (j.Some? ==> j.value > n)
    requires j.Some? && j.value < |sent| ==>
               funcs[j.value].included && Early(funcs[j.value]) && t in funcs[j.value].outputs
    ensures j.Some? && j.value < |sent| ==> IsZero(w, sent[j.value], t)
  {
  }

  lemma SentByZero(w: World, sent: seq<Flow>, j: Option<nat>, t: TypeCode)
    requires j.Some? && j.value < |sent| ==> IsZero(w, sent[j.value], t)
    ensures SentBy(w, sent, j, t) == w.zero(t)
  {
  }

  lemma BaseIsIs(w: World, funcs: seq<Func>, invokeIndex: nat, init: Option<nat>, base: Flow, sent: seq<Flow>)
    requires invokeIndex <= |funcs| && (init.Some? ==> init.value < |funcs|)
    requires forall t, j :: Mentioned(funcs, t) && LeftFrom(funcs, invokeIndex, init, t, j) ==>
               Get(w, base, t) == SentBy(w, sent, j, t)
    ensures BaseIs(w, funcs, invokeIndex, init, base, sent)
  {
  }

  lemma ZeroedGets(w: World, funcs: seq<Func>, invokeIndex: nat, n: nat, down: Flow, t: TypeCode)
    requires n < |funcs| && invokeIndex <= |funcs| && InGroup(funcs[n], Statics) && Mentioned(funcs, t)
    ensures Get(w, Zeroed(w, down, WithSkips(funcs, invokeIndex, n).skips), t) ==
              if SentBetween(funcs, n + 1, invokeIndex, t) then w.zero(t) else Get(w, down, t)
  {
    var i: nat :| i < |funcs| && funcs[i].included && t in Flows(funcs[i]);
    SkipsAre(funcs, invokeIndex, n, i, t);
  }

  lemma LeftFromMeans(funcs: seq<Func>, invokeIndex: nat, init: Option<nat>, t: TypeCode, j: Option<nat>, n: nat)
    requires invokeIndex <= |funcs| && (init.Some? ==> init.value < |funcs|) && n < |funcs|
    requires LeftFrom(funcs, invokeIndex, init, t, j) && funcs[n].included && funcs[n].kind.StaticFallible?
    ensures CodedEarly(funcs, init, |funcs|, t) == j
    ensures ShouldBeLeft(Some(n), j) ==
              if SentBetween(funcs, n + 1, invokeIndex, t) then None else CodedEarly(funcs, init, n + 1, t)
  {
    assert MayFail(funcs, None) && MayFail(funcs, Some(n));
    assert CodedLeft(funcs, invokeIndex, init, None, t) == ShouldBeLeft(None, j);
    assert CodedLeft(funcs, invokeIndex, init, Some(n), t) == ShouldBeLeft(Some(n), j);
  }

  lemma CodedGets(w: World, funcs: seq<Func>, init: Option<nat>, initInputs: seq<Value>, n: nat, down: Flow,
                  sent: seq<Flow>, t: TypeCode)
    requires n <= |funcs| && Runnable(funcs, initInputs) && (init.Some? ==> init.value < |funcs|)
    requires CodedIs(w, funcs, init, initInputs, n, down, sent)
    ensures
      var j := CodedEarly(funcs, init, n, t);
      Get(w, down, t) == if j.Some? then Val(w, funcs, initInputs, sent, j.value, t) else w.zero(t)
  {
  }

  // What an entry up to the one that has failed has bound is what the base values hold.
  lemma ValueBefore(w: World, funcs: seq<Func>, init: Option<nat>, initInputs: seq<Value>, n: nat, down: Flow,
                    tr: Trace,
                    j: nat, t: TypeCode)
    requires n < |funcs| && Runnable(funcs, initInputs) && j <= n
    requires init.Some? ==> init.value < |funcs| && funcs[init.value].kind.Init? && funcs[init.value].included
    requires funcs[n].included && funcs[n].kind.StaticFallible?
    requires
      var p := StaticPass(w, funcs, initInputs, n + 1, tr);
      && p.failed && !StaticPass(w, funcs, initInputs, n, tr).failed
      && CodedIs(w, funcs, init, initInputs, n + 1, down, p.sent)
    requires CodedEarly(funcs, init, n + 1, t) == Some(j)
    ensures Get(w, down, t) == SentBy(w, StaticPass(w, funcs, initInputs, |funcs|, tr).sent, Some(j), t)
  {
    hide CodedEarly, Runnable, BoundBefore;
    var p, q := StaticPass(w, funcs, initInputs, n + 1, tr), StaticPass(w, funcs, initInputs, |funcs|, tr);
    CodedGets(w, funcs, init, initInputs, n + 1, down, p.sent, t);
    CodedEarlyIs(funcs, init, n + 1, t);
    AfterFailure(w, funcs, initInputs, n + 1, |funcs|, tr);
    PassNext(w, funcs, initInputs, n, tr);
    PassIs(w, funcs, initInputs, n, tr);
    assert q.sent[j] == p.sent[j];
  }

  // ------------------------------------------------------------------ The run phase

  // The provider at position 'n', if it belongs to the run phase, is the next of the run chain.
  lemma RunTurn(funcs: seq<Func>, invokeIndex: nat, invoke: nat, n: nat)
    requires Phases(funcs, invokeIndex, invoke) && n < |funcs|
    ensures invokeIndex <= |funcs| && RunChain(ChainOf(funcs, invokeIndex))
    ensures
      var c, chain := |Collection(funcs, invokeIndex, Runs, n)|, ChainOf(funcs, invokeIndex);
      && c < |chain|
      && (if funcs[n].included && InGroup(funcs[n], Runs)
          then c + 1 < |chain| && chain[c] == WithSkips(funcs, invokeIndex, n)
               && |Collection(funcs, invokeIndex, Runs, n + 1)| == c + 1
          else |Collection(funcs, invokeIndex, Runs, n + 1)| == c)
      && (funcs[n].kind.Final? && (forall k: nat :: n < k < |funcs| ==> !RunTaker(funcs[k])) ==>
            funcs[n].included && c + 1 == |chain| && chain[c] == WithSkips(funcs, invokeIndex, n))
  {
    hide Phases, Collection, WithSkips, ChainOf;
    RunsAreAChain(funcs, invokeIndex, invoke);
    var last := FinalOf(funcs, invokeIndex, invoke);
    OneMoreCollected(funcs, invokeIndex, Runs, n);
    CollectionGrows(funcs, invokeIndex, Runs, n, |funcs|);
    if funcs[n].included && InGroup(funcs[n], Runs) {
      AtPosition(funcs, invokeIndex, Runs, n, |funcs|);
    }
    if funcs[n].kind.Final? && forall k: nat :: n < k < |funcs| ==> !RunTaker(funcs[k]) {
      assert n == last;
      NoneCollected(funcs, invokeIndex, n, |funcs|);
    }
  }

  lemma {:induction false} NoneCollected(funcs: seq<Func>, invokeIndex: nat, n: nat, m: nat)
    requires n <= m <= |funcs| && invokeIndex <= |funcs|
    requires forall k: nat :: n <= k < |funcs| ==> !(funcs[k].included && InGroup(funcs[k], Runs))
    ensures |Collection(funcs, invokeIndex, Runs, m)| == |Collection(funcs, invokeIndex, Runs, n)|
  {
    if n < m {
      NoneCollected(funcs, invokeIndex, n, m - 1);
    }
  }

  // What everybody in the run phase relies on: the values the code starts from, and those of the entries.
  datatype Ground = Ground(base: Flow, sent: seq<Flow>, inputs: seq<Value>)

  ghost predicate GroundOk(funcs: seq<Func>, invokeIndex: nat, invoke: nat, init: Option<nat>, g: Ground) {
    && Prepared(funcs, invokeIndex, invoke, init) && |g.sent| == |funcs| && SentOk(funcs, g.sent)
    && |g.inputs| == |funcs[invoke].outputs|
  }

  // Who takes the type at position 'n' gets from the code what it should.
  ghost predicate Gets(w: World, funcs: seq<Func>, invoke: nat, init: Option<nat>, g: Ground, n: nat, t: TypeCode)
    requires n <= |funcs| && invoke < |funcs| && (init.Some? ==> init.value < |funcs|)
  {
    var closest := Closest(funcs, n, t);
    && CodedRun(funcs, invoke, init, n, t) == closest
    && (closest.None? || Early(funcs[closest.value]) ==> Get(w, g.base, t) == SentBy(w, g.sent, closest, t))
  }

  // What the code has at position 'n' while no provider of the run phase has sent the type.
  ghost function Underneath(w: World, funcs: seq<Func>, invoke: nat, g: Ground, t: TypeCode): Value
    requires invoke < |funcs| && |g.inputs| == |funcs[invoke].outputs|
  {
    Get(w, if t in funcs[invoke].outputs then Interp.Bind(map[], funcs[invoke].outputs, g.inputs) else g.base, t)
  }

  ghost predicate RunIs(w: World, funcs: seq<Func>, invokeIndex: nat, invoke: nat, init: Option<nat>, g: Ground, n: nat,
                        coded: Flow, down: Flow)
    requires n <= |funcs| && GroundOk(funcs, invokeIndex, invoke, init, g)
  {
    forall t :: RunIsFor(w, funcs, invokeIndex, invoke, init, g, n, coded, down, t)
  }

  ghost predicate RunIsFor(w: World, funcs: seq<Func>, invokeIndex: nat, invoke: nat, init: Option<nat>, g: Ground,
                           n: nat, coded: Flow, down: Flow, t: TypeCode)
    requires n <= |funcs| && GroundOk(funcs, invokeIndex, invoke, init, g)
  {
    && (Gets(w, funcs, invoke, init, g, n, t) ==> Get(w, coded, t) == Get(w, down, t))
    && (Latest(funcs, n, t, RunOnes).None? ==> Get(w, coded, t) == Underneath(w, funcs, invoke, g, t))
  }

  lemma RunStarts(w: World, funcs: seq<Func>, invokeIndex: nat, invoke: nat, init: Option<nat>, g: Ground)
    requires GroundOk(funcs, invokeIndex, invoke, init, g)
    ensures RunIs(w, funcs, invokeIndex, invoke, init, g, 0, Interp.Bind(g.base, funcs[invoke].outputs, g.inputs),
                  map[])
  {
    BindGets(w, g.base, funcs[invoke].outputs, g.inputs);
  }

  lemma RunSkips(w: World, funcs: seq<Func>, invokeIndex: nat, invoke: nat, init: Option<nat>, g: Ground, n: nat,
                 coded: Flow, down: Flow)
    requires n < |funcs| && GroundOk(funcs, invokeIndex, invoke, init, g) && !funcs[n].included
    requires RunIs(w, funcs, invokeIndex, invoke, init, g, n, coded, down)
    ensures RunIs(w, funcs, invokeIndex, invoke, init, g, n + 1, coded, down)
  {
    hide GroundOk, Latest, Underneath, CodedEarly;
    var n' := n + 1;
    forall t ensures RunIsFor(w, funcs, invokeIndex, invoke, init, g, n', coded, down, t) {
      LatestStep(funcs, n, t, Anybody);
      LatestStep(funcs, n, t, RunOnes);
      assert RunIsFor(w, funcs, invokeIndex, invoke, init, g, n, coded, down, t);
    }
  }

  lemma RunPassesEarly(w: World, funcs: seq<Func>, invokeIndex: nat, invoke: nat, init: Option<nat>, g: Ground, n: nat,
                       coded: Flow, down: Flow)
    requires n < |funcs| && GroundOk(funcs, invokeIndex, invoke, init, g) && funcs[n].included && Early(funcs[n])
    requires RunIs(w, funcs, invokeIndex, invoke, init, g, n, coded, down)
    ensures RunIs(w, funcs, invokeIndex, invoke, init, g, n + 1, coded, down + g.sent[n])
  {
    hide Latest, CodedEarly;
    var n', down' := n + 1, down + g.sent[n];
    forall t ensures RunIsFor(w, funcs, invokeIndex, invoke, init, g, n', coded, down', t) {
      LatestStep(funcs, n, t, Anybody);
      LatestStep(funcs, n, t, RunOnes);
      assert RunIsFor(w, funcs, invokeIndex, invoke, init, g, n, coded, down, t);
      var sent: Flow := g.sent[n];
      assert t in sent <==> t in funcs[n].outputs;
      assert Get(w, down + sent, t) == if t in sent then Get(w, sent, t) else Get(w, down, t);
    }
  }

  lemma RunPassesInvoke(w: World, funcs: seq<Func>, invokeIndex: nat, invoke: nat, init: Option<nat>, g: Ground,
                        coded: Flow, down: Flow)
    requires invoke < |funcs| && GroundOk(funcs, invokeIndex, invoke, init, g)
    requires RunIs(w, funcs, invokeIndex, invoke, init, g, invoke, coded, down)
    ensures RunIs(w, funcs, invokeIndex, invoke, init, g, invoke + 1, coded,
                  Interp.Bind(down, funcs[invoke].outputs, g.inputs))
  {
    hide Latest, CodedEarly, Interp.Bind;
    BindGets(w, down, funcs[invoke].outputs, g.inputs);
    var n', down' := invoke + 1, Interp.Bind(down, funcs[invoke].outputs, g.inputs);
    forall t ensures RunIsFor(w, funcs, invokeIndex, invoke, init, g, n', coded, down', t) {
      LatestStep(funcs, invoke, t, Anybody);
      LatestStep(funcs, invoke, t, RunOnes);
      assert RunIsFor(w, funcs, invokeIndex, invoke, init, g, invoke, coded, down, t);
    }
  }

  lemma RunSends(w: World, funcs: seq<Func>, invokeIndex: nat, invoke: nat, init: Option<nat>, g: Ground, n: nat,
                 coded: Flow, down: Flow, values: seq<Value>)
    requires n < |funcs| && GroundOk(funcs, invokeIndex, invoke, init, g)
    requires funcs[n].included && InGroup(funcs[n], Runs) && |values| == |funcs[n].outputs|
    requires RunIs(w, funcs, invokeIndex, invoke, init, g, n, coded, down)
    ensures RunIs(w, funcs, invokeIndex, invoke, init, g, n + 1, Interp.Bind(coded, funcs[n].outputs, values),
                  Interp.Bind(down, funcs[n].outputs, values))
  {
    hide GroundOk, Latest, Underneath, CodedEarly, Interp.Bind;
    BindGets(w, coded, funcs[n].outputs, values);
    BindGets(w, down, funcs[n].outputs, values);
    var n', coded', down' := n + 1, Interp.Bind(coded, funcs[n].outputs, values),
        Interp.Bind(down, funcs[n].outputs, values);
    forall t ensures RunIsFor(w, funcs, invokeIndex, invoke, init, g, n', coded', down', t) {
      LatestStep(funcs, n, t, Anybody);
      LatestStep(funcs, n, t, RunOnes);
      assert RunIsFor(w, funcs, invokeIndex, invoke, init, g, n, coded, down, t);
    }
  }

  // Two maps that read the same.
  ghost predicate SameUp(w: World, up: Flow, up': Flow) {
    forall t :: Get(w, up, t) == Get(w, up', t)
  }

  lemma SameRead(w: World, up: Flow, up': Flow, types: seq<TypeCode>)
    requires SameUp(w, up, up')
    ensures GetAll(w, up, types) == GetAll(w, up', types)
  {
  }

  lemma SameBound(w: World, up: Flow, up': Flow, types: seq<TypeCode>, values: seq<Value>)
    requires SameUp(w, up, up') && |types| == |values|
    ensures SameUp(w, Interp.Bind(up, types, values), Interp.Bind(up', types, values))
  {
    BindGets(w, up, types, values);
    BindGets(w, up', types, values);
    hide Interp.Bind;
    forall t ensures Get(w, Interp.Bind(up, types, values), t) == Get(w, Interp.Bind(up', types, values), t) {
    }
  }

  // Everybody in the run phase gets what it takes from the closest entry, and nobody follows the final function.
  ghost predicate RunsGet(w: World, funcs: seq<Func>, invoke: nat, init: Option<nat>, g: Ground, last: nat)
    requires invoke < |funcs| && (init.Some? ==> init.value < |funcs|)
  {
    && last < |funcs| && funcs[last].kind.Final?
    && (forall k: nat :: last < k < |funcs| ==> !RunTaker(funcs[k]))
    && (forall k: nat, t :: k < |funcs| && RunTaker(funcs[k]) && t in funcs[k].inputs ==>
          Gets(w, funcs, invoke, init, g, k, t))
  }

  lemma SameInputs(w: World, funcs: seq<Func>, invokeIndex: nat, invoke: nat, init: Option<nat>, g: Ground, last: nat,
                   n: nat, coded: Flow, down: Flow)
    requires n < |funcs| && GroundOk(funcs, invokeIndex, invoke, init, g) && RunsGet(w, funcs, invoke, init, g, last)
    requires RunTaker(funcs[n]) && RunIs(w, funcs, invokeIndex, invoke, init, g, n, coded, down)
    ensures GetAll(w, coded, funcs[n].inputs) == GetAll(w, down, funcs[n].inputs)
  {
    hide GroundOk, Gets, Underneath;
    forall i | 0 <= i < |funcs[n].inputs| ensures Get(w, coded, funcs[n].inputs[i])
        == Get(w, down, funcs[n].inputs[i]) {
      var t := funcs[n].inputs[i];
      assert RunIsFor(w, funcs, invokeIndex, invoke, init, g, n, coded, down, t);
    }
  }

  ghost predicate SameOutcome(w: World, o: Outcome, q: Outcome) {
    o.trace == q.trace && SameUp(w, o.up, q.up)
  }

  ghost predicate SameCalls(w: World, calls: Calls, calls': Calls) {
    calls.count == calls'.count && calls.trace == calls'.trace && SameUp(w, calls.last, calls'.last)
  }

  lemma GroundParts(funcs: seq<Func>, invokeIndex: nat, invoke: nat, init: Option<nat>, g: Ground)
    requires GroundOk(funcs, invokeIndex, invoke, init, g)
    ensures Phases(funcs, invokeIndex, invoke) && invokeIndex <= |funcs| && invoke < |funcs|
    ensures init.Some? ==> init.value < |funcs| && funcs[init.value].kind.Init? && funcs[init.value].included
    ensures |g.sent| == |funcs| && |g.inputs| == |funcs[invoke].outputs|
    ensures forall i: nat :: i < |funcs| && i != invoke ==> StaticPhase(funcs[i]) || RunPhase(funcs[i])
    ensures funcs[invoke].kind.Invoke?
  {
  }

  // What an entry of the run phase is.
  lemma RunKinds(f: Func)
    requires StaticPhase(f) || RunPhase(f)
    ensures Early(f) || InGroup(f, Runs) || f.kind.Final?
    ensures InGroup(f, Runs) ==> IsInjector(f) || f.kind.Wrapper?
    ensures Early(f) ==> !InGroup(f, Runs) && !f.kind.Final? && !f.kind.Wrapper?
    ensures InGroup(f, Runs) && !f.kind.Wrapper? ==> IsInjector(f) && !f.kind.Final?
    ensures f.kind.Final? ==> !InGroup(f, Runs) && !Early(f)
  {
  }

  // The rest of the run chain does what the rest of the list does.
  lemma {:induction false} RunAgrees(w: World, funcs: seq<Func>, invokeIndex: nat, invoke: nat, init: Option<nat>,
                                     g: Ground, last: nat, n: nat, coded: Flow, down: Flow, tr: Trace)
    requires GroundOk(funcs, invokeIndex, invoke, init, g) && RunsGet(w, funcs, invoke, init, g, last) && n <= last
    requires RunIs(w, funcs, invokeIndex, invoke, init, g, n, coded, down)
    ensures
      var c, chain := |Collection(funcs, invokeIndex, Runs, n)|, ChainOf(funcs, invokeIndex);
      && invokeIndex <= |funcs| && RunChain(chain) && c < |chain|
      && SameOutcome(w, RunFrom(Ideal, w, chain, c, coded, tr),
                     RunList(w, funcs, invokeIndex, invoke, g.sent, g.inputs, n, down, tr))
    decreases |funcs| - n, 2, 0
  {
    hide *;
    GroundParts(funcs, invokeIndex, invoke, init, g);
    RunsGetParts(w, funcs, invoke, init, g, last);
    RunTurn(funcs, invokeIndex, invoke, n);
    RunListIs(w, funcs, invokeIndex, invoke, g.sent, g.inputs, n, down, tr);
    var f := funcs[n];
    if n == invoke {
      InvokeIsNoRun(f);
      RunPassesInvoke(w, funcs, invokeIndex, invoke, init, g, coded, down);
      RunAgrees(w, funcs, invokeIndex, invoke, init, g, last, n + 1, coded, Interp.Bind(down, f.outputs, g.inputs), tr);
    } else if !f.included {
      FinalIsIncluded(funcs, invokeIndex, invoke, last);
      RunSkips(w, funcs, invokeIndex, invoke, init, g, n, coded, down);
      RunAgrees(w, funcs, invokeIndex, invoke, init, g, last, n + 1, coded, down, tr);
    } else if Early(f) {
      RunKinds(f);
      RunPassesEarly(w, funcs, invokeIndex, invoke, init, g, n, coded, down);
      RunAgrees(w, funcs, invokeIndex, invoke, init, g, last, n + 1, coded, down + g.sent[n], tr);
    } else {
      RunKinds(f);
      IsTaker(f);
      SameInputs(w, funcs, invokeIndex, invoke, init, g, last, n, coded, down);
      TakerAgrees(w, funcs, invokeIndex, invoke, init, g, last, n, coded, down, tr);
    }
  }

  lemma RunsGetParts(w: World, funcs: seq<Func>, invoke: nat, init: Option<nat>, g: Ground, last: nat)
    requires invoke < |funcs| && (init.Some? ==> init.value < |funcs|)
    requires RunsGet(w, funcs, invoke, init, g, last)
    ensures last < |funcs| && funcs[last].kind.Final? && forall k: nat :: last < k < |funcs| ==> !RunTaker(funcs[k])
  {
  }

  lemma InvokeIsNoRun(f: Func)
    requires f.kind.Invoke?
    ensures !InGroup(f, Runs) && !f.kind.Final?
  {
  }

  lemma FinalIsIncluded(funcs: seq<Func>, invokeIndex: nat, invoke: nat, last: nat)
    requires Phases(funcs, invokeIndex, invoke) && last < |funcs| && funcs[last].kind.Final?
    ensures funcs[last].included
  {
  }

  lemma FinalsAreOne(funcs: seq<Func>, invokeIndex: nat, invoke: nat, n: nat, last: nat)
    requires Phases(funcs, invokeIndex, invoke) && n < |funcs| && last < |funcs|
    requires funcs[n].kind.Final? && funcs[last].kind.Final?
    ensures n == last
  {
  }

  lemma IsTaker(f: Func)
    requires f.included && (InGroup(f, Runs) || f.kind.Final?)
    ensures RunTaker(f)
  {
  }

  // One position of the run phase, read in the order of the list.
  lemma RunListIs(w: World, funcs: seq<Func>, invokeIndex: nat, invoke: nat, sent: seq<Flow>, inputs: seq<Value>,
                n: nat, down: Flow, tr: Trace)
    requires Phases(funcs, invokeIndex, invoke) && |sent| == |funcs| && |inputs| == |funcs[invoke].outputs|
    requires n < |funcs|
    ensures
      var f := funcs[n];
      var o := RunList(w, funcs, invokeIndex, invoke, sent, inputs, n, down, tr);
      if n == invoke then
        o == RunList(w, funcs, invokeIndex, invoke, sent, inputs, n + 1, Interp.Bind(down, f.outputs, inputs), tr)
      else if !f.included then
        o == RunList(w, funcs, invokeIndex, invoke, sent, inputs, n + 1, down, tr)
      else Early(f) ==>
        o == RunList(w, funcs, invokeIndex, invoke, sent, inputs, n + 1, down + sent[n], tr)
  {
  }

  lemma SkipsAside(funcs: seq<Func>, invokeIndex: nat, n: nat)
    requires n < |funcs| && invokeIndex <= |funcs|
    ensures WithSkips(funcs, invokeIndex, n) == funcs[n].(skips := WithSkips(funcs, invokeIndex, n).skips)
  {
  }

  lemma {:induction false} TakerAgrees(w: World, funcs: seq<Func>, invokeIndex: nat, invoke: nat, init: Option<nat>,
                                       g: Ground, last: nat, n: nat, coded: Flow, down: Flow, tr: Trace)
    requires GroundOk(funcs, invokeIndex, invoke, init, g) && RunsGet(w, funcs, invoke, init, g, last) && n <= last
    requires RunIs(w, funcs, invokeIndex, invoke, init, g, n, coded, down)
    requires n != invoke && RunTaker(funcs[n]) && !Early(funcs[n])
    requires GetAll(w, coded, funcs[n].inputs) == GetAll(w, down, funcs[n].inputs)
    ensures
      var c, chain := |Collection(funcs, invokeIndex, Runs, n)|, ChainOf(funcs, invokeIndex);
      && invokeIndex <= |funcs| && RunChain(chain) && c < |chain|
      && SameOutcome(w, RunFrom(Ideal, w, chain, c, coded, tr),
                     RunList(w, funcs, invokeIndex, invoke, g.sent, g.inputs, n, down, tr))
    decreases |funcs| - n, 1, 0
  {
    hide *;
    GroundParts(funcs, invokeIndex, invoke, init, g);
    RunsGetParts(w, funcs, invoke, init, g, last);
    RunTurn(funcs, invokeIndex, invoke, n);
    SkipsAside(funcs, invokeIndex, n);
    RunKinds(funcs[n]);
    TakerIs(funcs[n]);
    var f, chain, c := funcs[n], ChainOf(funcs, invokeIndex), |Collection(funcs, invokeIndex, Runs, n)|;
    var tr1 := tr + [Call(f.id, GetAll(w, down, f.inputs))];
    if f.kind.Final? {
      FinalsAreOne(funcs, invokeIndex, invoke, n, last);
      FinalAgrees(w, funcs, invokeIndex, invoke, g, chain, c, n, coded, down, tr);
    } else if f.kind.Wrapper? {
      var start := Calls(0, map[], map[], tr1);
      Same(w, start);
      InnersAgree(w, funcs, invokeIndex, invoke, init, g, last, n, coded, down, start, start, w.maxCalls(f.id, tr1));
      WrapperAgrees(w, funcs, invokeIndex, invoke, g, chain, c, n, coded, down, tr);
    } else {
      InjectorAgrees(w, funcs, invokeIndex, invoke, g, chain, c, n, coded, down, tr);
      if !Fails(w, f, tr1) {
        RunSends(w, funcs, invokeIndex, invoke, init, g, n, coded, down, Sent(w, f, tr1));
        FinalIsNoRun(funcs, n, last);
        RunAgrees(w, funcs, invokeIndex, invoke, init, g, last, n + 1,
                  Interp.Bind(coded, f.outputs, Sent(w, f, tr1)), Interp.Bind(down, f.outputs, Sent(w, f, tr1)), tr1);
      }
    }
  }

  lemma TakerIs(f: Func)
    requires RunTaker(f)
    ensures f.included && (InGroup(f, Runs) || f.kind.Final?)
  {
  }

  lemma FinalIsNoRun(funcs: seq<Func>, n: nat, last: nat)
    requires n <= last < |funcs| && InGroup(funcs[n], Runs) && funcs[last].kind.Final?
    ensures n < last
  {
  }

  lemma Same(w: World, calls: Calls)
    ensures SameCalls(w, calls, calls)
  {
  }

  lemma FinalAgrees(w: World, funcs: seq<Func>, invokeIndex: nat, invoke: nat, g: Ground, chain: seq<Func>, c: nat,
                    n: nat, coded: Flow, down: Flow, tr: Trace)
    requires Phases(funcs, invokeIndex, invoke) && |g.sent| == |funcs| && |g.inputs| == |funcs[invoke].outputs|
    requires n < |funcs| && n != invoke && funcs[n].included && funcs[n].kind.Final?
    requires RunChain(chain) && c < |chain| && chain[c] == funcs[n].(skips := chain[c].skips)
    requires GetAll(w, coded, funcs[n].inputs) == GetAll(w, down, funcs[n].inputs)
    ensures SameOutcome(w, RunFrom(Ideal, w, chain, c, coded, tr),
                        RunList(w, funcs, invokeIndex, invoke, g.sent, g.inputs, n, down, tr))
  {
  }

  lemma InjectorAgrees(w: World, funcs: seq<Func>, invokeIndex: nat, invoke: nat, g: Ground, chain: seq<Func>, c: nat,
                       n: nat, coded: Flow, down: Flow, tr: Trace)
    requires Phases(funcs, invokeIndex, invoke) && |g.sent| == |funcs| && |g.inputs| == |funcs[invoke].outputs|
    requires n < |funcs| && n != invoke && funcs[n].included && IsInjector(funcs[n]) && !funcs[n].kind.Wrapper?
    requires RunChain(chain) && c + 1 < |chain| && chain[c] == funcs[n].(skips := chain[c].skips)
    requires GetAll(w, coded, funcs[n].inputs) == GetAll(w, down, funcs[n].inputs)
    ensures
      var f := funcs[n];
      var tr1 := tr + [Call(f.id, GetAll(w, down, f.inputs))];
      var o := RunFrom(Ideal, w, chain, c, coded, tr);
      var q := RunList(w, funcs, invokeIndex, invoke, g.sent, g.inputs, n, down, tr);
      if Fails(w, f, tr1) then SameOutcome(w, o, q)
      else
        && o == RunFrom(Ideal, w, chain, c + 1, Interp.Bind(coded, f.outputs, Sent(w, f, tr1)), tr1)
        && q == RunList(w, funcs, invokeIndex, invoke, g.sent, g.inputs, n + 1,
                      Interp.Bind(down, f.outputs, Sent(w, f, tr1)), tr1)
  {
  }

  lemma WrapperAgrees(w: World, funcs: seq<Func>, invokeIndex: nat, invoke: nat, g: Ground, chain: seq<Func>, c: nat,
                      n: nat, coded: Flow, down: Flow, tr: Trace)
    requires Phases(funcs, invokeIndex, invoke) && |g.sent| == |funcs| && |g.inputs| == |funcs[invoke].outputs|
    requires n < |funcs| && n != invoke && funcs[n].included && funcs[n].kind.Wrapper?
    requires RunChain(chain) && c + 1 < |chain| && chain[c] == funcs[n].(skips := chain[c].skips)
    requires GetAll(w, coded, funcs[n].inputs) == GetAll(w, down, funcs[n].inputs)
    requires
      var tr1 := tr + [Call(funcs[n].id, GetAll(w, down, funcs[n].inputs))];
      var start, left := Calls(0, map[], map[], tr1), w.maxCalls(funcs[n].id, tr1);
      SameCalls(w, RunInner(Ideal, w, chain, c, coded, start, left),
                InnerList(w, funcs, invokeIndex, invoke, g.sent, g.inputs, n, down, start, left))
    ensures SameOutcome(w, RunFrom(Ideal, w, chain, c, coded, tr),
                        RunList(w, funcs, invokeIndex, invoke, g.sent, g.inputs, n, down, tr))
  {
    var f := funcs[n];
    var tr1 := tr + [Call(f.id, GetAll(w, down, f.inputs))];
    var start, left := Calls(0, map[], map[], tr1), w.maxCalls(f.id, tr1);
    var calls := RunInner(Ideal, w, chain, c, coded, start, left);
    var calls' := InnerList(w, funcs, invokeIndex, invoke, g.sent, g.inputs, n, down, start, left);
    CombinedIsAbove(w, chain[c], f, calls, calls', Results(w, f.id, calls.trace, |f.returned|));
    hide RunInner, InnerList, Combined, Above, SameUp;
  }

  lemma CombinedIsAbove(w: World, p: Func, f: Func, calls: Calls, calls': Calls, values: seq<Value>)
    requires f.kind.Wrapper? && p == f.(skips := p.skips) && |values| == |f.returned| && SameCalls(w, calls, calls')
    ensures SameUp(w, Combined(Ideal, w, p, calls, values), Above(f, calls', values))
  {
    assert SameUp(w, Zeroed(w, map[], p.skips), map[]);
    SameBound(w, Zeroed(w, map[], p.skips), map[], f.returned, values);
    SameBound(w, calls.last, calls'.last, f.returned, values);
    assert SameUp(w, Interp.Bind(map[], f.returned, values), Interp.Bind(map[], f.returned, values));
  }

  // The inner calls that are still to come.
  lemma {:induction false} InnersAgree(w: World, funcs: seq<Func>, invokeIndex: nat, invoke: nat, init: Option<nat>,
                                       g: Ground, last: nat, n: nat, coded: Flow, down: Flow, calls: Calls,
                                       calls': Calls, left: nat)
    requires GroundOk(funcs, invokeIndex, invoke, init, g) && RunsGet(w, funcs, invoke, init, g, last) && n <= last
    requires RunIs(w, funcs, invokeIndex, invoke, init, g, n, coded, down)
    requires n != invoke && funcs[n].included && InGroup(funcs[n], Runs) && funcs[n].kind.Wrapper?
    requires SameCalls(w, calls, calls')
    ensures
      var c, chain := |Collection(funcs, invokeIndex, Runs, n)|, ChainOf(funcs, invokeIndex);
      && invokeIndex <= |funcs| && RunChain(chain) && c + 1 < |chain|
      && SameCalls(w, RunInner(Ideal, w, chain, c, coded, calls, left),
                   InnerList(w, funcs, invokeIndex, invoke, g.sent, g.inputs, n, down, calls', left))
    decreases |funcs| - n, 0, left
  {
    hide *;
    GroundParts(funcs, invokeIndex, invoke, init, g);
    RunsGetParts(w, funcs, invoke, init, g, last);
    RunTurn(funcs, invokeIndex, invoke, n);
    SkipsAside(funcs, invokeIndex, n);
    FinalIsNoRun(funcs, n, last);
    SameCallsParts(w, calls, calls');
    var f, chain, c := funcs[n], ChainOf(funcs, invokeIndex), |Collection(funcs, invokeIndex, Runs, n)|;
    InnersUnfold(w, funcs, invokeIndex, invoke, g, chain, c, n, coded, down, calls, calls', left);
    if left > 0 && w.wants(f.id, calls.trace) {
      var args := InnerArgs(w, f.id, calls.trace, |f.outputs|);
      RunSends(w, funcs, invokeIndex, invoke, init, g, n, coded, down, args);
      RunAgrees(w, funcs, invokeIndex, invoke, init, g, last, n + 1, Interp.Bind(coded, f.outputs, args),
                Interp.Bind(down, f.outputs, args), calls.trace + [Inner(f.id, args)]);
      OneCallAgrees(w, funcs, invokeIndex, invoke, g, chain, c, n, coded, down, calls, calls');
      InnersAgree(w, funcs, invokeIndex, invoke, init, g, last, n, coded, down,
                  OneCall(Ideal, w, chain, c, coded, calls),
                  OneCallOn(w, funcs, invokeIndex, invoke, g.sent, g.inputs, n, down, calls'), left - 1);
    }
  }

  lemma SameCallsParts(w: World, calls: Calls, calls': Calls)
    requires SameCalls(w, calls, calls')
    ensures calls.count == calls'.count && calls.trace == calls'.trace
  {
  }

  lemma InnersUnfold(w: World, funcs: seq<Func>, invokeIndex: nat, invoke: nat, g: Ground, chain: seq<Func>, c: nat,
                     n: nat, coded: Flow, down: Flow, calls: Calls, calls': Calls, left: nat)
    requires Phases(funcs, invokeIndex, invoke) && |g.sent| == |funcs| && |g.inputs| == |funcs[invoke].outputs|
    requires n < |funcs| && RunChain(chain) && c + 1 < |chain| && chain[c] == funcs[n].(skips := chain[c].skips)
    requires calls.trace == calls'.trace
    ensures
      var q := RunInner(Ideal, w, chain, c, coded, calls, left);
      var q' := InnerList(w, funcs, invokeIndex, invoke, g.sent, g.inputs, n, down, calls', left);
      if left == 0 || !w.wants(funcs[n].id, calls.trace) then q == calls && q' == calls'
      else
        && q == RunInner(Ideal, w, chain, c, coded, OneCall(Ideal, w, chain, c, coded, calls), left - 1)
        && q' == InnerList(w, funcs, invokeIndex, invoke, g.sent, g.inputs, n, down,
                            OneCallOn(w, funcs, invokeIndex, invoke, g.sent, g.inputs, n, down, calls'), left - 1)
  {
  }

  lemma OneCallAgrees(w: World, funcs: seq<Func>, invokeIndex: nat, invoke: nat, g: Ground, chain: seq<Func>, c: nat,
                      n: nat, coded: Flow, down: Flow, calls: Calls, calls': Calls)
    requires Phases(funcs, invokeIndex, invoke) && |g.sent| == |funcs| && |g.inputs| == |funcs[invoke].outputs|
    requires n < |funcs| && RunChain(chain) && c + 1 < |chain| && chain[c] == funcs[n].(skips := chain[c].skips)
    requires calls.count == calls'.count && calls.trace == calls'.trace
    requires
      var args := InnerArgs(w, funcs[n].id, calls.trace, |funcs[n].outputs|);
      var tr1 := calls.trace + [Inner(funcs[n].id, args)];
      SameOutcome(w, RunFrom(Ideal, w, chain, c + 1, Interp.Bind(coded, funcs[n].outputs, args), tr1),
                  RunList(w, funcs, invokeIndex, invoke, g.sent, g.inputs, n + 1,
                        Interp.Bind(down, funcs[n].outputs, args), tr1))
    ensures SameCalls(w, OneCall(Ideal, w, chain, c, coded, calls),
                      OneCallOn(w, funcs, invokeIndex, invoke, g.sent, g.inputs, n, down, calls'))
  {
    hide RunFrom, RunList, Interp.Bind;
    var args := InnerArgs(w, funcs[n].id, calls.trace, |funcs[n].outputs|);
    var tr1 := calls.trace + [Inner(funcs[n].id, args)];
    var o := RunFrom(Ideal, w, chain, c + 1, Interp.Bind(coded, funcs[n].outputs, args), tr1);
    var q := RunList(w, funcs, invokeIndex, invoke, g.sent, g.inputs, n + 1,
                   Interp.Bind(down, funcs[n].outputs, args), tr1);
    SameRead(w, o.up, q.up, funcs[n].received);
  }

  // ------------------------------------------------------------------ Histories

  // What the code has kept, and what has been lived through.
  ghost predicate SameLife(w: World, funcs: seq<Func>, invokeIndex: nat, init: Option<nat>, s: Shared, l: Lived)
    requires invokeIndex <= |funcs| && (init.Some? ==> init.value < |funcs|)
    requires forall i: nat :: i < |funcs| && funcs[i].kind.Literal? ==> funcs[i].outputs != []
  {
    && s.initDone == l.sent.Some?
    && match l.sent
       case None => s.base == LiteralFlow(funcs, |funcs|)
       case Some(sent) => |sent| == |funcs| && SentOk(funcs, sent) && BaseIs(w, funcs, invokeIndex, init, s.base, sent)
  }

  lemma ListFacts(funcs: seq<Func>, invokeIndex: nat, invoke: nat, init: Option<nat>)
    requires Prepared(funcs, invokeIndex, invoke, init)
    ensures Phases(funcs, invokeIndex, invoke) && invokeIndex <= |funcs| && invoke < |funcs|
    ensures init.Some? ==> init.value < |funcs| && funcs[init.value].kind.Init? && funcs[init.value].included
    ensures forall i: nat :: i < |funcs| && funcs[i].kind.Literal? ==> funcs[i].outputs != []
  {
    PhasesAre(funcs, invokeIndex, invoke);
  }

  lemma ClosestParts(funcs: seq<Func>, invokeIndex: nat, invoke: nat, init: Option<nat>)
    requires invokeIndex <= |funcs| && invoke < |funcs| && (init.Some? ==> init.value < |funcs|)
    requires ClosestWins(funcs, invokeIndex, invoke, init)
    ensures StaticsGetClosest(funcs, init)
    ensures init.Some? ==> forall t :: t in funcs[init.value].received ==>
              LeftFrom(funcs, invokeIndex, init, t, ClosestEarly(funcs, invoke, t))
  {
  }

  // The static chain, run once.
  lemma OnceAgrees(w: World, funcs: seq<Func>, invokeIndex: nat, invoke: nat, init: Option<nat>, initInputs: seq<Value>,
                   s: Shared, tr: Trace)
    requires Prepared(funcs, invokeIndex, invoke, init) && Runnable(funcs, initInputs)
    requires invokeIndex <= |funcs| && invoke < |funcs| && (init.Some? ==> init.value < |funcs|)
    requires ClosestWins(funcs, invokeIndex, invoke, init) && !s.initDone
    ensures forall i: nat :: i < |funcs| && funcs[i].kind.Literal? ==> funcs[i].outputs != []
    ensures init.Some? ==> |initInputs| == |funcs[init.value].outputs|
    ensures PlanOk(PlanFor(funcs, invokeIndex, invoke, init))
    ensures
      var pass := StaticPass(w, funcs, initInputs, |funcs|, tr);
      var (s1, tr1) := Once(w, PlanFor(funcs, invokeIndex, invoke, init), s, StartOf(funcs, init, initInputs), tr);
      && s1.initDone && tr1 == pass.trace && SentOk(funcs, pass.sent)
      && BaseIs(w, funcs, invokeIndex, init, s1.base, pass.sent)
  {
    hide *;
    ListFacts(funcs, invokeIndex, invoke, init);
    ClosestParts(funcs, invokeIndex, invoke, init);
    PlanIsOk(funcs, invokeIndex, invoke, init);
    PlanParts(funcs, invokeIndex, invoke, init);
    CodedStarts(w, funcs, invokeIndex, invoke, init, initInputs);
    PassStarts(w, funcs, initInputs, tr);
    PassIs(w, funcs, initInputs, |funcs|, tr);
    StaticAgrees(w, funcs, invokeIndex, invoke, init, initInputs, 0, StartOf(funcs, init, initInputs), tr);
    OnceIs(w, PlanFor(funcs, invokeIndex, invoke, init), s, StartOf(funcs, init, initInputs), tr);
  }

  lemma PassStarts(w: World, funcs: seq<Func>, initInputs: seq<Value>, tr: Trace)
    requires Runnable(funcs, initInputs)
    ensures StaticPass(w, funcs, initInputs, 0, tr) == Pass([], false, tr)
  {
  }

  lemma OnceIs(w: World, p: Plan, s: Shared, base: Flow, tr: Trace)
    requires PlanOk(p) && !s.initDone
    ensures forall i :: 0 <= i < |p.statics| ==> IsStatic(p.statics[i])
    ensures
      var o := StaticFrom(w, p.statics, 0, base, tr);
      Once(w, p, s, base, tr) == (Shared(true, o.down, s.staticRuns + 1), o.trace)
  {
  }

  // What the init function returns.
  lemma InitResultsAgree(w: World, funcs: seq<Func>, invokeIndex: nat, invoke: nat, init: Option<nat>, base: Flow,
                         sent: seq<Flow>)
    requires invokeIndex <= |funcs| && invoke < |funcs| && |sent| == |funcs| && SentOk(funcs, sent)
    requires init.Some? && init.value < |funcs| && funcs[init.value].included
    requires ClosestWins(funcs, invokeIndex, invoke, init) && BaseIs(w, funcs, invokeIndex, init, base, sent)
    ensures GetAll(w, base, funcs[init.value].received) ==
              GetAll(w, BoundBefore(funcs, sent, invoke), funcs[init.value].received)
  {
    hide ClosestWins, LeftFrom;
    ClosestParts(funcs, invokeIndex, invoke, init);
    var types := funcs[init.value].received;
    forall i | 0 <= i < |types| ensures Get(w, base, types[i]) == Get(w, BoundBefore(funcs, sent, invoke), types[i]) {
      var t := types[i];
      BoundIs(funcs, sent, invoke, t);
      assert t in Flows(funcs[init.value]);
    }
  }

  // Everybody in the run phase gets what it should.
  lemma AllGet(w: World, funcs: seq<Func>, invokeIndex: nat, invoke: nat, init: Option<nat>, g: Ground)
    returns (last: nat)
    requires GroundOk(funcs, invokeIndex, invoke, init, g)
    requires invokeIndex <= |funcs| && invoke < |funcs| && (init.Some? ==> init.value < |funcs|)
    requires ClosestWins(funcs, invokeIndex, invoke, init) && BaseIs(w, funcs, invokeIndex, init, g.base, g.sent)
    ensures RunsGet(w, funcs, invoke, init, g, last)
  {
    hide LeftFrom, StaticPhase, RunPhase, CodedRun, Closest;
    last :| OneFinal(funcs, last);
    forall k: nat, t | k < |funcs| && RunTaker(funcs[k]) && t in funcs[k].inputs
      ensures Gets(w, funcs, invoke, init, g, k, t)
    {
      assert RunGetsClosest(funcs, invokeIndex, invoke, init, k, t);
      assert t in Flows(funcs[k]);
    }
  }

  lemma InvokeAgrees(w: World, funcs: seq<Func>, invokeIndex: nat, invoke: nat, init: Option<nat>, base: Flow,
                     sent: seq<Flow>, inputs: seq<Value>, tr: Trace)
    requires Prepared(funcs, invokeIndex, invoke, init) && |sent| == |funcs| && SentOk(funcs, sent)
    requires invokeIndex <= |funcs| && invoke < |funcs| && (init.Some? ==> init.value < |funcs|)
    requires |inputs| == |funcs[invoke].outputs| && PlanOk(PlanFor(funcs, invokeIndex, invoke, init))
    requires ClosestWins(funcs, invokeIndex, invoke, init) && BaseIs(w, funcs, invokeIndex, init, base, sent)
    requires SingleCalls(w, ChainOf(funcs, invokeIndex))
    ensures Phases(funcs, invokeIndex, invoke)
    ensures
      var p := PlanFor(funcs, invokeIndex, invoke, init);
      var o := RunFrom(AsCoded, w, p.chain, 0, Interp.Bind(base, p.invokeF.outputs, inputs), tr);
      var q := RunList(w, funcs, invokeIndex, invoke, sent, inputs, 0, map[], tr);
      o.trace == q.trace && GetAll(w, o.up, p.invokeF.received) == GetAll(w, q.up, funcs[invoke].received)
  {
    hide *;
    ListFacts(funcs, invokeIndex, invoke, init);
    PlanParts(funcs, invokeIndex, invoke, init);
    ChainStarts(PlanFor(funcs, invokeIndex, invoke, init));
    var g := Ground(base, sent, inputs);
    GroundIs(funcs, invokeIndex, invoke, init, g);
    var last := AllGet(w, funcs, invokeIndex, invoke, init, g);
    RunStarts(w, funcs, invokeIndex, invoke, init, g);
    CollectionStarts(funcs, invokeIndex);
    RunAgrees(w, funcs, invokeIndex, invoke, init, g, last, 0, Interp.Bind(base, funcs[invoke].outputs, inputs),
              map[], tr);
    SingleCallsAreIdeal(w, ChainOf(funcs, invokeIndex), 0, Interp.Bind(base, funcs[invoke].outputs, inputs), tr);
    OutcomeReads(w, RunFrom(Ideal, w, ChainOf(funcs, invokeIndex), 0,
                            Interp.Bind(base, funcs[invoke].outputs, inputs), tr),
                 RunList(w, funcs, invokeIndex, invoke, sent, inputs, 0, map[], tr), funcs[invoke].received);
  }

  lemma GroundIs(funcs: seq<Func>, invokeIndex: nat, invoke: nat, init: Option<nat>, g: Ground)
    requires Prepared(funcs, invokeIndex, invoke, init) && |g.sent| == |funcs| && SentOk(funcs, g.sent)
    requires invoke < |funcs| && |g.inputs| == |funcs[invoke].outputs|
    ensures GroundOk(funcs, invokeIndex, invoke, init, g)
  {
  }

  lemma CollectionStarts(funcs: seq<Func>, invokeIndex: nat)
    requires invokeIndex <= |funcs|
    ensures Collection(funcs, invokeIndex, Runs, 0) == []
  {
  }

  lemma OutcomeReads(w: World, o: Outcome, q: Outcome, types: seq<TypeCode>)
    requires SameOutcome(w, o, q)
    ensures o.trace == q.trace && GetAll(w, o.up, types) == GetAll(w, q.up, types)
  {
    SameRead(w, o.up, q.up, types);
  }

  // One call of the init or the invoke function.
  lemma CallAgrees(w: World, funcs: seq<Func>, invokeIndex: nat, invoke: nat, init: Option<nat>, s: Shared, l: Lived,
                   op: Op)
    requires Prepared(funcs, invokeIndex, invoke, init)
    requires invokeIndex <= |funcs| && invoke < |funcs| && (init.Some? ==> init.value < |funcs|)
    requires forall i: nat :: i < |funcs| && funcs[i].kind.Literal? ==> funcs[i].outputs != []
    requires ClosestWins(funcs, invokeIndex, invoke, init) && SingleCalls(w, ChainOf(funcs, invokeIndex))
    requires SameLife(w, funcs, invokeIndex, init, s, l) && OneOk(funcs, invoke, init, op)
    requires init.Some? && op.InvokeCall? ==> l.sent.Some?
    ensures PlanOk(PlanFor(funcs, invokeIndex, invoke, init)) && OpOk(PlanFor(funcs, invokeIndex, invoke, init), op)
    ensures LivedOk(funcs, init, l)
    ensures
      var (s1, out, tr1) := OpStep(AsCoded, w, PlanFor(funcs, invokeIndex, invoke, init), s, op, l.trace);
      var l1 := Live(w, funcs, invokeIndex, invoke, init, l, op);
      SameLife(w, funcs, invokeIndex, init, s1, l1) && l1.results == l.results + [out] && l1.trace == tr1
  {
    hide Prepared, Phases, ClosestWins, BaseIs, SentOk, StaticFrom, StaticPass, RunFrom, RunList, ChainOf,
         SingleCalls, Once,
         BoundBefore, Collection, GetAll;
    ListFacts(funcs, invokeIndex, invoke, init);
    PlanIsOk(funcs, invokeIndex, invoke, init);
    PlanParts(funcs, invokeIndex, invoke, init);
    var p := PlanFor(funcs, invokeIndex, invoke, init);
    var initInputs := if op.InitCall? then op.inputs else [];
    PreparedRuns(funcs, invokeIndex, invoke, init, initInputs);
    OnceSkips(w, p, s, l.trace);
    if l.sent.None? {
      OnceAgrees(w, funcs, invokeIndex, invoke, init, initInputs, s, l.trace);
    }
    var l1 := Live(w, funcs, invokeIndex, invoke, init, l, op);
    var sent := l1.sent.value;
    if op.InitCall? {
      var (s1, tr1) := Once(w, p, s, Interp.Bind(s.base, p.initF.value.outputs, op.inputs), l.trace);
      InitResultsAgree(w, funcs, invokeIndex, invoke, init, s1.base, sent);
    } else {
      var (s1, tr1) := if p.initF.Some? then (s, l.trace) else Once(w, p, s, s.base, l.trace);
      InvokeAgrees(w, funcs, invokeIndex, invoke, init, s1.base, sent, op.inputs, tr1);
    }
  }

  lemma OnceSkips(w: World, p: Plan, s: Shared, tr: Trace)
    requires PlanOk(p)
    ensures forall base :: s.initDone ==> Once(w, p, s, base, tr) == (s, tr)
  {
  }

  // The code does exactly what the direct interpreter does, in every history that starts with the init
  // function if there is one, if everybody gets what it takes from the closest entry and wrappers not marked
  // Parallel make at most one inner call.
  lemma {:induction false} HistoryIsDirect(w: World, funcs: seq<Func>, invokeIndex: nat, invoke: nat, init: Option<nat>,
                                           s: Shared, l: Lived, ops: seq<Op>)
    requires Prepared(funcs, invokeIndex, invoke, init)
    requires invokeIndex <= |funcs| && invoke < |funcs| && (init.Some? ==> init.value < |funcs|)
    requires forall i: nat :: i < |funcs| && funcs[i].kind.Literal? ==> funcs[i].outputs != []
    requires ClosestWins(funcs, invokeIndex, invoke, init) && SingleCalls(w, ChainOf(funcs, invokeIndex))
    requires SameLife(w, funcs, invokeIndex, init, s, l)
    requires (forall op :: op in ops ==> OneOk(funcs, invoke, init, op))
             && (init.Some? && ops != [] && l.sent.None? ==> ops[0].InitCall?)
    ensures PlanOk(PlanFor(funcs, invokeIndex, invoke, init))
    ensures (forall op :: op in ops ==> OpOk(PlanFor(funcs, invokeIndex, invoke, init), op)) && LivedOk(funcs, init, l)
    ensures
      var past := History(AsCoded, w, PlanFor(funcs, invokeIndex, invoke, init), s, ops, l.trace);
      var l1 := LiveAll(w, funcs, invokeIndex, invoke, init, l, ops);
      l1.results == l.results + past.results && l1.trace == past.trace
    decreases |ops|
  {
    hide Prepared, ClosestWins, SingleCalls, SameLife, OpStep, Live, ChainOf, Phases, BaseIs;
    PlanIsOk(funcs, invokeIndex, invoke, init);
    LifeParts(w, funcs, invokeIndex, init, s, l);
    var p := PlanFor(funcs, invokeIndex, invoke, init);
    forall op | op in ops ensures OpOk(p, op) {
    }
    if ops != [] {
      CallAgrees(w, funcs, invokeIndex, invoke, init, s, l, ops[0]);
      var (s1, out, tr1) := OpStep(AsCoded, w, p, s, ops[0], l.trace);
      var l1 := Live(w, funcs, invokeIndex, invoke, init, l, ops[0]);
      HistoryIsDirect(w, funcs, invokeIndex, invoke, init, s1, l1, ops[1..]);
    }
  }

  lemma LifeParts(w: World, funcs: seq<Func>, invokeIndex: nat, init: Option<nat>, s: Shared, l: Lived)
    requires invokeIndex <= |funcs| && (init.Some? ==> init.value < |funcs|)
    requires forall i: nat :: i < |funcs| && funcs[i].kind.Literal? ==> funcs[i].outputs != []
    requires SameLife(w, funcs, invokeIndex, init, s, l)
    ensures LivedOk(funcs, init, l)
  {
  }
}
