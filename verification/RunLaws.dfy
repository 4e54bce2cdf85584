/**
 What one provider of a chain does, said in terms of what its function returns: which of the results go where,
 what the function is called with, and whether anybody comes after it.
 */
module RunLaws {
  import opened Basics
  import opened Interp

  // The k-th type of a list does not occur in it again.
  predicate LastOf(types: seq<TypeCode>, k: nat) {
    k < |types| && forall j :: k < j < |types| ==> types[j] != types[k]
  }

  // Where 'm' differs from 'before' is in these types, each of which has the value given last.
  ghost predicate Updated(before: Flow, m: Flow, types: seq<TypeCode>, value: nat -> Value) {
    && (forall t :: t in m <==> t in before || t in types)
    && (forall t :: t in before && t !in types ==> m[t] == before[t])
    && (forall k: nat :: LastOf(types, k) ==> types[k] in m && m[types[k]] == value(k))
  }

  // The function has been called with what has been set, and zero values for the rest.
  ghost predicate CalledWith(w: World, f: Func, down: Flow, tr: Trace, tr1: Trace) {
    && |tr1| == |tr| + 1 && tr <= tr1
    && tr1[|tr|].Call? && tr1[|tr|].id == f.id && |tr1[|tr|].args| == |f.inputs|
    && (forall k :: 0 <= k < |f.inputs| && f.inputs[k] in down ==> tr1[|tr|].args[k] == down[f.inputs[k]])
    && (forall k :: 0 <= k < |f.inputs| && f.inputs[k] !in down ==> tr1[|tr|].args[k] == w.zero(f.inputs[k]))
  }

  lemma {:induction false} BindKeeps(m: Flow, types: seq<TypeCode>, values: seq<Value>, t: TypeCode)
    requires |types| == |values| && t !in types && t in m
    ensures t in Interp.Bind(m, types, values) && Interp.Bind(m, types, values)[t] == m[t]
  {
    if types != [] {
      BindKeeps(m, types[..|types| - 1], values[..|types| - 1], t);
    }
  }

  lemma BindUpdates(m: Flow, types: seq<TypeCode>, values: seq<Value>, value: nat -> Value)
    requires |types| == |values| && forall k: nat :: k < |values| ==> values[k] == value(k)
    ensures Updated(m, Interp.Bind(m, types, values), types, value)
  {
    hide Interp.Bind;
    BindKeys(m, types, values);
    forall t | t in m && t !in types ensures Interp.Bind(m, types, values)[t] == m[t] {
      BindKeeps(m, types, values, t);
    }
    forall k: nat | LastOf(types, k)
      ensures types[k] in Interp.Bind(m, types, values) && Interp.Bind(m, types, values)[types[k]] == value(k)
    {
      BindAt(m, types, values, k);
    }
  }

  lemma CallIs(w: World, f: Func, down: Flow, tr: Trace)
    ensures CalledWith(w, f, down, tr, tr + [Call(f.id, GetAll(w, down, f.inputs))])
  {
    var tr1 := tr + [Call(f.id, GetAll(w, down, f.inputs))];
    assert tr1[|tr|] == Call(f.id, GetAll(w, down, f.inputs));
  }

  // The results an injector sends, by number: all but the TerminalError.
  function SentAt(f: Func, k: nat): nat {
    if f.kind.Fallible? && k >= f.kind.errorIndex then k + 1 else k
  }

  // What an injector sends is its results in order, without the TerminalError.
  lemma SentByIndex(w: World, f: Func, tr: Trace, k: nat)
    requires IsInjector(f) && k < |f.outputs|
    ensures Sent(w, f, tr)[k] == w.result(f.id, tr, SentAt(f, k))
    ensures SentAt(f, k) == if f.kind.Fallible? && k >= f.kind.errorIndex then k + 1 else k
  {
    if f.kind.Fallible? {
      var raw := Results(w, f.id, tr, |f.outputs| + 1);
      assert Sent(w, f, tr) == Without(raw, f.kind.errorIndex);
      assert raw[SentAt(f, k)] == w.result(f.id, tr, SentAt(f, k));
    }
  }

  // An injector whose TerminalError, if it has one, is nil: the rest of the chain runs on what was there and its
  // other results.
  lemma InjectorPasses(m: Mode, w: World, chain: seq<Func>, i: nat, down: Flow, tr: Trace)
    returns (down1: Flow, tr1: Trace)
    requires RunChain(chain) && i < |chain| && (chain[i].kind.Injector? || chain[i].kind.Fallible?)
    ensures CalledWith(w, chain[i], down, tr, tr1)
    ensures
      var f := chain[i];
      (f.kind.Fallible? ==> w.isNil(w.result(f.id, tr1, f.kind.errorIndex))) ==>
        && Updated(down, down1, f.outputs, (k: nat) => w.result(f.id, tr1, SentAt(f, k)))
        && i + 1 < |chain| && RunFrom(m, w, chain, i, down, tr) == RunFrom(m, w, chain, i + 1, down1, tr1)
  {
    var f := chain[i];
    assert IsInjector(f);
    tr1 := tr + [Call(f.id, GetAll(w, down, f.inputs))];
    CallIs(w, f, down, tr);
    var tr1' := tr1;
    down1 := Interp.Bind(down, f.outputs, Sent(w, f, tr1));
    forall k: nat | k < |f.outputs| ensures Sent(w, f, tr1)[k] == w.result(f.id, tr1', SentAt(f, k)) {
      SentByIndex(w, f, tr1, k);
    }
    BindUpdates(down, f.outputs, Sent(w, f, tr1), (k: nat) => w.result(f.id, tr1', SentAt(f, k)));
  }

  // One whose TerminalError is not nil ends the chain: what comes up is that error, and zero values for what it
  // has to zero.
  lemma InjectorFails(m: Mode, w: World, chain: seq<Func>, i: nat, down: Flow, tr: Trace)
    requires RunChain(chain) && i < |chain| && chain[i].kind.Fallible?
    ensures
      var f, o := chain[i], RunFrom(m, w, chain, i, down, tr);
      var tr1 := tr + [Call(f.id, GetAll(w, down, f.inputs))];
      CalledWith(w, f, down, tr, tr1) && (!w.isNil(w.result(f.id, tr1, f.kind.errorIndex)) ==>
        && o.trace == tr1 && ERROR in o.up && o.up[ERROR] == w.result(f.id, tr1, f.kind.errorIndex)
        && (forall t :: t != ERROR ==> (t in o.up <==> t in f.skips))
        && (forall t :: t != ERROR && t in f.skips ==> o.up[t] == w.zero(t)))
  {
    assert IsInjector(chain[i]);
    CallIs(w, chain[i], down, tr);
  }

  // What the final function returns comes up, and nothing else.
  lemma FinalReturns(m: Mode, w: World, chain: seq<Func>, i: nat, down: Flow, tr: Trace)
    requires RunChain(chain) && i < |chain| && chain[i].kind.Final?
    ensures
      var f, o := chain[i], RunFrom(m, w, chain, i, down, tr);
      && CalledWith(w, f, down, tr, o.trace)
      && Updated(map[], o.up, f.returned, (k: nat) => w.result(f.id, o.trace, k))
  {
    var f := chain[i];
    CallIs(w, f, down, tr);
    var tr1 := tr + [Call(f.id, GetAll(w, down, f.inputs))];
    BindUpdates(map[], f.returned, Results(w, f.id, tr1, |f.returned|), (k: nat) => w.result(f.id, tr1, k));
  }

  // A wrapper that calls inner() once: the rest of the chain runs on what was there and the arguments of the call,
  // the wrapper gets what it receives of what comes up, and upstream sees that overridden by what it returns,
  // unless it is marked Parallel.
  lemma WrapperCallsOnce(m: Mode, w: World, chain: seq<Func>, i: nat, down: Flow, tr: Trace)
    returns (down1: Flow, tr1: Trace, tr2: Trace)
    requires RunChain(chain) && i < |chain| && chain[i].kind.Wrapper?
    ensures CalledWith(w, chain[i], down, tr, tr1)
    ensures
      var f, o := chain[i], RunFrom(m, w, chain, i, down, tr);
      w.maxCalls(f.id, tr1) == 1 && w.wants(f.id, tr1) ==>
        && i + 1 < |chain| && Updated(down, down1, f.outputs, (k: nat) => w.innerArg(f.id, tr1, k))
        && |tr2| == |tr1| + 1 && tr1 <= tr2 && tr2[|tr1|].Inner? && tr2[|tr1|].id == f.id
        && |tr2[|tr1|].args| == |f.outputs|
        && (forall k: nat :: k < |f.outputs| ==> tr2[|tr1|].args[k] == w.innerArg(f.id, tr1, k))
        && var below := RunFrom(m, w, chain, i + 1, down1, tr2);
           && |o.trace| == |below.trace| + 1 && below.trace <= o.trace
           && GotBack(w, f, below.up, o.trace[|below.trace|])
           && Updated(if f.kind.parallel then map[] else below.up, o.up, f.returned,
                      (k: nat) => w.result(f.id, o.trace, k))
  {
    var f := chain[i];
    tr1 := tr + [Call(f.id, GetAll(w, down, f.inputs))];
    CallIs(w, f, down, tr);
    var args := InnerArgs(w, f.id, tr1, |f.outputs|);
    down1, tr2 := Interp.Bind(down, f.outputs, args), tr1 + [Inner(f.id, args)];
    var start, tr1' := Calls(0, map[], map[], tr1), tr1;
    if w.maxCalls(f.id, tr1) == 1 && w.wants(f.id, tr1) {
      BindUpdates(down, f.outputs, args, (k: nat) => w.innerArg(f.id, tr1', k));
      var one := OneCall(m, w, chain, i, down, start);
      assert RunInner(m, w, chain, i, down, start, 1) == RunInner(m, w, chain, i, down, one, 0) == one;
      var below := RunFrom(m, w, chain, i + 1, down1, tr2);
      var tr3 := below.trace + [Back(f.id, GetAll(w, below.up, f.received))];
      assert tr3[|below.trace|] == Back(f.id, GetAll(w, below.up, f.received));
      BindUpdates(if f.kind.parallel then map[] else below.up, f.returned, Results(w, f.id, tr3, |f.returned|),
                  (k: nat) => w.result(f.id, tr3, k));
    }
  }

  ghost predicate GotBack(w: World, f: Func, up: Flow, e: Event) {
    && e.Back? && e.id == f.id && |e.results| == |f.received|
    && (forall k :: 0 <= k < |f.received| && f.received[k] in up ==> e.results[k] == up[f.received[k]])
    && (forall k :: 0 <= k < |f.received| && f.received[k] !in up ==> e.results[k] == w.zero(f.received[k]))
  }

  // One that does not call it: upstream sees what it returns, over zero values for what it has to zero.
  lemma WrapperCallsNever(m: Mode, w: World, chain: seq<Func>, i: nat, down: Flow, tr: Trace)
    requires RunChain(chain) && i < |chain| && chain[i].kind.Wrapper?
    ensures
      var f, o := chain[i], RunFrom(m, w, chain, i, down, tr);
      var tr1 := tr + [Call(f.id, GetAll(w, down, f.inputs))];
      CalledWith(w, f, down, tr, tr1) && (w.maxCalls(f.id, tr1) == 0 || !w.wants(f.id, tr1) ==>
        && o.trace == tr1
        && (forall t :: t in o.up <==> t in f.skips || t in f.returned)
        && (forall t :: t in f.skips && t !in f.returned ==> o.up[t] == w.zero(t))
        && (forall k: nat :: LastOf(f.returned, k) ==> o.up[f.returned[k]] == w.result(f.id, tr1, k)))
  {
    var f := chain[i];
    CallIs(w, f, down, tr);
    var tr1 := tr + [Call(f.id, GetAll(w, down, f.inputs))];
    BindUpdates(Zeroed(w, map[], f.skips), f.returned, Results(w, f.id, tr1, |f.returned|),
                (k: nat) => w.result(f.id, tr1, k));
  }

  // A static provider sends all its results.  If it may fail and its error is not nil, the static chain is over, and
  // what it has to zero is zero; otherwise the rest runs.
  lemma StaticSends(w: World, statics: seq<Func>, k: nat, down: Flow, tr: Trace) returns (down1: Flow, tr1: Trace)
    requires k < |statics| && forall i :: 0 <= i < |statics| ==> IsStatic(statics[i])
    ensures CalledWith(w, statics[k], down, tr, tr1)
    ensures Updated(down, down1, statics[k].outputs, (j: nat) => w.result(statics[k].id, tr1, j))
    ensures
      var f, o := statics[k], StaticFrom(w, statics, k, down, tr);
      if f.kind.StaticFallible? && !w.isNil(w.result(f.id, tr1, f.kind.errorIndex)) then
        && o.failed && o.trace == tr1 && (forall t :: t in o.down <==> t in down1 || t in f.skips)
        && (forall t :: t in o.down ==> o.down[t] == if t in f.skips then w.zero(t) else down1[t])
      else o == StaticFrom(w, statics, k + 1, down1, tr1)
  {
    var f := statics[k];
    tr1 := tr + [Call(f.id, GetAll(w, down, f.inputs))];
    CallIs(w, f, down, tr);
    var tr1' := tr1;
    down1 := Interp.Bind(down, f.outputs, Results(w, f.id, tr1, |f.outputs|));
    BindUpdates(down, f.outputs, Results(w, f.id, tr1, |f.outputs|), (j: nat) => w.result(f.id, tr1', j));
  }
}
