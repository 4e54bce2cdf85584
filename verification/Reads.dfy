/**
 Whether what a run reads has been set: the inputs of every provider called, and the results every
 wrapper gets back from inner().  The maps of the interpreter have exactly the types whose positions in
 the value collection have been set.
 */
module Reads {
  import opened Basics
  import opened Interp

  // In the run of the chain from position 'i' on, every provider finds its inputs, and every inner call
  // returns all that the wrapper receives.
  ghost predicate ReadsSet(w: World, chain: seq<Func>, i: nat, down: Flow, tr: Trace)
    requires RunChain(chain) && i < |chain|
    decreases |chain| - i, 1, 0
  {
    var p := chain[i];
    var tr1 := tr + [Call(p.id, GetAll(w, down, p.inputs))];
    && (forall t :: t in p.inputs ==> t in down)
    && if p.kind.Final? then true
       else if p.kind.Wrapper? then InnersReadSet(w, chain, i, down, Calls(0, map[], map[], tr1), w.maxCalls(p.id, tr1))
       else Fails(w, p, tr1) || ReadsSet(w, chain, i + 1, Bind(down, p.outputs, Sent(w, p, tr1)), tr1)
  }

  // The same for the inner calls that are still to come.
  ghost predicate InnersReadSet(w: World, chain: seq<Func>, i: nat, down: Flow, calls: Calls, left: nat)
    requires RunChain(chain) && i + 1 < |chain|
    decreases |chain| - i, 0, left
  {
    var p := chain[i];
    left == 0 || !w.wants(p.id, calls.trace) ||
    var args := InnerArgs(w, p.id, calls.trace, |p.outputs|);
    var next := OneCall(AsCoded, w, chain, i, down, calls);
    && ReadsSet(w, chain, i + 1, Bind(down, p.outputs, args), calls.trace + [Inner(p.id, args)])
    && (forall t :: t in p.received ==> t in next.last)
    && InnersReadSet(w, chain, i, down, next, left - 1)
  }

  // The type has been set when the chain from position 'i' on is through, whatever happens: wrappers may
  // skip the rest or call it, once or (unless 'once') more often, and fallible injectors may fail.
  predicate Safe(chain: seq<Func>, i: nat, t: TypeCode, once: bool)
    requires RunChain(chain) && i < |chain|
    decreases |chain| - i
  {
    var p := chain[i];
    if p.kind.Final? then t in p.returned
    else if p.kind.Wrapper? then
      && (t in p.skips || t in p.returned)
      && if p.kind.parallel then t in p.returned
         else (t in p.returned || Safe(chain, i + 1, t, once)) && (once || Safe(chain, i + 1, t, once))
    else if p.kind.Fallible? then (t in p.skips || t == ERROR) && Safe(chain, i + 1, t, once)
    else Safe(chain, i + 1, t, once)
  }

  // What wrappers receive is safe.
  ghost predicate ReceivedSafe(chain: seq<Func>, once: bool)
    requires RunChain(chain)
  {
    forall i: nat, t :: i < |chain| && chain[i].kind.Wrapper? && t in chain[i].received ==> Safe(chain, i + 1, t, once)
  }

  ghost predicate Limited(w: World, chain: seq<Func>, once: bool) {
    once ==> SingleCalls(w, chain)
  }

  lemma {:induction false} CountBounded(m: Mode, w: World, chain: seq<Func>, i: nat, down: Flow, calls: Calls,
                                        left: nat)
    requires RunChain(chain) && i + 1 < |chain|
    ensures RunInner(m, w, chain, i, down, calls, left).count <= calls.count + left
    decreases left
  {
    if left > 0 && w.wants(chain[i].id, calls.trace) {
      CountBounded(m, w, chain, i, down, OneCall(m, w, chain, i, down, calls), left - 1);
    }
  }

  lemma {:induction false} SafeIsSet(w: World, chain: seq<Func>, i: nat, t: TypeCode, once: bool, down: Flow, tr: Trace)
    requires RunChain(chain) && i < |chain| && Limited(w, chain, once) && Safe(chain, i, t, once)
    ensures t in RunFrom(AsCoded, w, chain, i, down, tr).up
    decreases |chain| - i, 1, 0
  {
    var p := chain[i];
    var tr1 := tr + [Call(p.id, GetAll(w, down, p.inputs))];
    if p.kind.Final? {
      BindKeys(map[], p.returned, Results(w, p.id, tr1, |p.returned|));
    } else if p.kind.Wrapper? {
      var start, left := Calls(0, map[], map[], tr1), w.maxCalls(p.id, tr1);
      var calls := RunInner(AsCoded, w, chain, i, down, start, left);
      CountBounded(AsCoded, w, chain, i, down, start, left);
      if Safe(chain, i + 1, t, once) {
        SafeInners(w, chain, i, t, once, down, start, left);
      }
      CombinedKeys(w, p, calls, t);
    } else if !Fails(w, p, tr1) {
      SafeIsSet(w, chain, i + 1, t, once, Bind(down, p.outputs, Sent(w, p, tr1)), tr1);
    }
  }

  lemma {:induction false} SafeInners(w: World, chain: seq<Func>, i: nat, t: TypeCode, once: bool, down: Flow,
                                      calls: Calls, left: nat)
    requires RunChain(chain) && i + 1 < |chain| && Limited(w, chain, once) && Safe(chain, i + 1, t, once)
    requires calls.count > 0 ==> t in calls.first
    ensures
      var all := RunInner(AsCoded, w, chain, i, down, calls, left);
      all.count > 0 ==> t in all.first
    decreases |chain| - i, 0, left
  {
    var p := chain[i];
    if left > 0 && w.wants(p.id, calls.trace) {
      var args := InnerArgs(w, p.id, calls.trace, |p.outputs|);
      SafeIsSet(w, chain, i + 1, t, once, Bind(down, p.outputs, args), calls.trace + [Inner(p.id, args)]);
      SafeInners(w, chain, i, t, once, down, OneCall(AsCoded, w, chain, i, down, calls), left - 1);
    }
  }

  // Which types are set upstream of a wrapper.
  lemma CombinedKeys(w: World, p: Func, calls: Calls, t: TypeCode)
    requires p.kind.Wrapper?
    ensures
      t in Combined(AsCoded, w, p, calls, Results(w, p.id, calls.trace, |p.returned|)) <==>
        if calls.count == 0 then t in p.skips || t in p.returned
        else if p.kind.parallel then t in p.returned
        else if calls.count == 1 then t in calls.first || t in p.returned
        else t in calls.first
  {
    var values := Results(w, p.id, calls.trace, |p.returned|);
    BindKeys(Zeroed(w, map[], p.skips), p.returned, values);
    BindKeys(map[], p.returned, values);
    BindKeys(calls.first, p.returned, values);
  }

  // What the chain from position 'i' on needs is in 'down' or sent by an earlier provider of the chain.
  ghost predicate Supplied(chain: seq<Func>, i: nat, down: Flow) {
    forall k, t :: i <= k < |chain| && t in chain[k].inputs ==>
      t in down || exists j :: i <= j < k && t in chain[j].outputs
  }

  // One step further down, everybody still finds its inputs.
  lemma InputsAreSupplied(chain: seq<Func>, i: nat, down: Flow, values: seq<Value>)
    requires i < |chain| && Supplied(chain, i, down) && |values| == |chain[i].outputs|
    ensures forall t :: t in chain[i].inputs ==> t in down
    ensures Supplied(chain, i + 1, Bind(down, chain[i].outputs, values))
  {
    BindKeys(down, chain[i].outputs, values);
    forall k, t | i + 1 <= k < |chain| && t in chain[k].inputs
      ensures t in Bind(down, chain[i].outputs, values) || exists j :: i + 1 <= j < k && t in chain[j].outputs
    {
      if t !in down && t !in chain[i].outputs {
        var j :| i <= j < k && t in chain[j].outputs;
      }
    }
  }

  lemma {:induction false} EverythingSet(w: World, chain: seq<Func>, i: nat, once: bool, down: Flow, tr: Trace)
    requires RunChain(chain) && i < |chain| && Limited(w, chain, once)
    requires Supplied(chain, i, down) && ReceivedSafe(chain, once)
    ensures ReadsSet(w, chain, i, down, tr)
    decreases |chain| - i, 1, 0
  {
    var p := chain[i];
    var tr1 := tr + [Call(p.id, GetAll(w, down, p.inputs))];
    assert forall t :: t in p.inputs ==> t in down by {
      InputsAreSupplied(chain, i, down, Results(w, p.id, tr1, |p.outputs|));
    }
    if p.kind.Wrapper? {
      EveryInnerSet(w, chain, i, once, down, Calls(0, map[], map[], tr1), w.maxCalls(p.id, tr1));
    } else if !p.kind.Final? && !Fails(w, p, tr1) {
      InputsAreSupplied(chain, i, down, Sent(w, p, tr1));
      EverythingSet(w, chain, i + 1, once, Bind(down, p.outputs, Sent(w, p, tr1)), tr1);
    }
  }

  lemma {:induction false} EveryInnerSet(w: World, chain: seq<Func>, i: nat, once: bool, down: Flow, calls: Calls,
                                         left: nat)
    requires RunChain(chain) && i + 1 < |chain| && chain[i].kind.Wrapper? && Limited(w, chain, once)
    requires Supplied(chain, i, down) && ReceivedSafe(chain, once)
    ensures InnersReadSet(w, chain, i, down, calls, left)
    decreases |chain| - i, 0, left
  {
    var p := chain[i];
    if left > 0 && w.wants(p.id, calls.trace) {
      var args := InnerArgs(w, p.id, calls.trace, |p.outputs|);
      var down1, tr1 := Bind(down, p.outputs, args), calls.trace + [Inner(p.id, args)];
      InputsAreSupplied(chain, i, down, args);
      EverythingSet(w, chain, i + 1, once, down1, tr1);
      forall t | t in p.received ensures t in OneCall(AsCoded, w, chain, i, down, calls).last {
        SafeIsSet(w, chain, i + 1, t, once, down1, tr1);
      }
      EveryInnerSet(w, chain, i, once, down, OneCall(AsCoded, w, chain, i, down, calls), left - 1);
    }
  }

  ghost predicate DistinctIds(chain: seq<Func>) {
    forall i: nat, j: nat :: i < j < |chain| ==> chain[i].id != chain[j].id
  }

  function Position(chain: seq<Func>, id: nat): (k: nat)
    ensures k <= |chain|
  {
    if chain == [] then 0 else if chain[0].id == id then 0 else 1 + Position(chain[1..], id)
  }

  lemma {:induction false} PositionOf(chain: seq<Func>, k: nat)
    requires k < |chain| && DistinctIds(chain)
    ensures Position(chain, chain[k].id) == k
  {
    if k > 0 {
      assert chain[0].id != chain[k].id;
      var rest := chain[1..];
      assert forall i: nat, j: nat :: i < j < |rest| ==> rest[i] == chain[i + 1] && rest[j] == chain[j + 1];
      PositionOf(rest, k - 1);
    }
  }

  // The run that leaves the type unset if there is one: up to 'from' everybody calls the rest, and from
  // there on everybody does what is worst.
  function InnerCalls(chain: seq<Func>, from: nat, t: TypeCode, once: bool, k: nat): nat {
    if k >= |chain| || k < from then 1
    else if t !in chain[k].skips && t !in chain[k].returned then 0
    else if t !in chain[k].returned || once then 1
    else 2
  }

  predicate MustFail(chain: seq<Func>, from: nat, t: TypeCode, k: nat) {
    from <= k < |chain| && t !in chain[k].skips && t != ERROR
  }

  function Worst(chain: seq<Func>, from: nat, t: TypeCode, once: bool): World {
    World(_ => 0, x => x == 0,
          (id: nat, _, _) => if MustFail(chain, from, t, Position(chain, id)) then 1 else 0,
          (_, _) => true, (_, _, _) => 0,
          (id: nat, _) => InnerCalls(chain, from, t, once, Position(chain, id)))
  }

  lemma WorstIsLimited(chain: seq<Func>, from: nat, t: TypeCode, once: bool)
    ensures Limited(Worst(chain, from, t, once), chain, once)
  {
  }

  lemma WorstFails(chain: seq<Func>, from: nat, t: TypeCode, once: bool, i: nat, tr: Trace)
    requires DistinctIds(chain) && i < |chain| && IsInjector(chain[i])
    ensures Fails(Worst(chain, from, t, once), chain[i], tr) <==> chain[i].kind.Fallible? && MustFail(chain, from, t, i)
  {
    PositionOf(chain, i);
  }

  lemma {:induction false} UnsafeIsUnset(chain: seq<Func>, from: nat, t: TypeCode, once: bool, i: nat, down: Flow,
                                         tr: Trace)
    requires RunChain(chain) && DistinctIds(chain) && from <= i < |chain| && !Safe(chain, i, t, once)
    ensures t !in RunFrom(AsCoded, Worst(chain, from, t, once), chain, i, down, tr).up
    decreases |chain| - i
  {
    var p, w := chain[i], Worst(chain, from, t, once);
    var tr1 := tr + [Call(p.id, GetAll(w, down, p.inputs))];
    if p.kind.Final? {
      BindKeys(map[], p.returned, Results(w, p.id, tr1, |p.returned|));
    } else if p.kind.Wrapper? {
      UnsafeWrapper(chain, from, t, once, i, down, tr1);
    } else {
      WorstFails(chain, from, t, once, i, tr1);
      if !Fails(w, p, tr1) {
        UnsafeIsUnset(chain, from, t, once, i + 1, Bind(down, p.outputs, Sent(w, p, tr1)), tr1);
      }
    }
  }

  lemma {:induction false} UnsafeWrapper(chain: seq<Func>, from: nat, t: TypeCode, once: bool, i: nat, down: Flow,
                                         tr1: Trace)
    requires RunChain(chain) && DistinctIds(chain) && from <= i && i + 1 < |chain| && !Safe(chain, i, t, once)
    requires chain[i].kind.Wrapper?
    ensures
      var p, w := chain[i], Worst(chain, from, t, once);
      var calls := RunInner(AsCoded, w, chain, i, down, Calls(0, map[], map[], tr1), w.maxCalls(p.id, tr1));
      t !in Combined(AsCoded, w, p, calls, Results(w, p.id, calls.trace, |p.returned|))
    decreases |chain| - i, 0
  {
    var p, w := chain[i], Worst(chain, from, t, once);
    PositionOf(chain, i);
    var left := w.maxCalls(p.id, tr1);
    assert left == InnerCalls(chain, from, t, once, i);
    var c0 := Calls(0, map[], map[], tr1);
    var calls := RunInner(AsCoded, w, chain, i, down, c0, left);
    if left > 0 {
      var c1 := OneCall(AsCoded, w, chain, i, down, c0);
      if !p.kind.parallel {
        var args := InnerArgs(w, p.id, tr1, |p.outputs|);
        UnsafeIsUnset(chain, from, t, once, i + 1, Bind(down, p.outputs, args), tr1 + [Inner(p.id, args)]);
      }
      FirstStays(w, chain, i, down, c1, left - 1);
      if left == 1 {
        assert RunInner(AsCoded, w, chain, i, down, c1, 0) == c1;
      } else {
        var c2 := OneCall(AsCoded, w, chain, i, down, c1);
        assert RunInner(AsCoded, w, chain, i, down, c2, 0) == c2;
      }
    }
    CombinedKeys(w, p, calls, t);
  }

  lemma {:induction false} FirstStays(w: World, chain: seq<Func>, i: nat, down: Flow, calls: Calls, left: nat)
    requires RunChain(chain) && i + 1 < |chain| && calls.count > 0
    ensures RunInner(AsCoded, w, chain, i, down, calls, left).first == calls.first
    ensures RunInner(AsCoded, w, chain, i, down, calls, left).count >= calls.count
    decreases left
  {
    if left > 0 && w.wants(chain[i].id, calls.trace) {
      FirstStays(w, chain, i, down, OneCall(AsCoded, w, chain, i, down, calls), left - 1);
    }
  }

  // The run gets to wrapper 'j', whose inner call comes back without the type.
  lemma {:induction false} UnsafeIsRead(chain: seq<Func>, j: nat, t: TypeCode, once: bool, s: nat, down: Flow,
                                        tr: Trace)
    requires RunChain(chain) && DistinctIds(chain) && s <= j && j + 1 < |chain|
    requires chain[j].kind.Wrapper? && t in chain[j].received && !Safe(chain, j + 1, t, once)
    ensures !ReadsSet(Worst(chain, j + 1, t, once), chain, s, down, tr)
    decreases |chain| - s
  {
    var p, w := chain[s], Worst(chain, j + 1, t, once);
    var tr1 := tr + [Call(p.id, GetAll(w, down, p.inputs))];
    PositionOf(chain, s);
    if p.kind.Wrapper? {
      var start := Calls(0, map[], map[], tr1);
      assert w.maxCalls(p.id, tr1) == 1;
      var args := InnerArgs(w, p.id, tr1, |p.outputs|);
      var down1, tr2 := Bind(down, p.outputs, args), tr1 + [Inner(p.id, args)];
      if s < j {
        UnsafeIsRead(chain, j, t, once, s + 1, down1, tr2);
      } else {
        UnsafeIsUnset(chain, j + 1, t, once, j + 1, down1, tr2);
        assert t !in OneCall(AsCoded, w, chain, s, down, start).last;
      }
    } else {
      WorstFails(chain, j + 1, t, once, s, tr1);
      UnsafeIsRead(chain, j, t, once, s + 1, Bind(down, p.outputs, Sent(w, p, tr1)), tr1);
    }
  }

  // In every run of a chain that finds its inputs, all that is received, 'last' by the caller of the
  // chain, has been set: exactly if it is safe.
  lemma ReadsSetExactlyIf(chain: seq<Func>, once: bool, down: Flow, last: seq<TypeCode>)
    requires RunChain(chain) && DistinctIds(chain) && Supplied(chain, 0, down)
    ensures
      (forall w, tr :: Limited(w, chain, once) ==>
         && ReadsSet(w, chain, 0, down, tr)
         && forall t :: t in last ==> t in RunFrom(AsCoded, w, chain, 0, down, tr).up)
      <==> ReceivedSafe(chain, once) && forall t :: t in last ==> Safe(chain, 0, t, once)
  {
    if ReceivedSafe(chain, once) && forall t :: t in last ==> Safe(chain, 0, t, once) {
      forall w, tr | Limited(w, chain, once)
        ensures ReadsSet(w, chain, 0, down, tr)
        ensures forall t :: t in last ==> t in RunFrom(AsCoded, w, chain, 0, down, tr).up
      {
        EverythingSet(w, chain, 0, once, down, tr);
        forall t | t in last ensures t in RunFrom(AsCoded, w, chain, 0, down, tr).up {
          SafeIsSet(w, chain, 0, t, once, down, tr);
        }
      }
    }
    if !ReceivedSafe(chain, once) {
      var j: nat, t :| j < |chain| && chain[j].kind.Wrapper? && t in chain[j].received && !Safe(chain, j + 1, t, once);
      WorstIsLimited(chain, j + 1, t, once);
      UnsafeIsRead(chain, j, t, once, 0, down, []);
    }
    if t :| t in last && !Safe(chain, 0, t, once) {
      WorstIsLimited(chain, 0, t, once);
      UnsafeIsUnset(chain, 0, t, once, 0, down, []);
    }
  }

  predicate Returns(f: Func, t: TypeCode) {
    t in f.returned && (f.kind.Wrapper? || f.kind.Final?)
  }

  // Provider 'r' returns the type, and everybody before it zeroes the type if 'r' does not get a chance.
  ghost predicate ReturnedOver(chain: seq<Func>, i: nat, r: nat, t: TypeCode) {
    && i <= r < |chain| && Returns(chain[r], t)
    && forall j :: i <= j < r && !chain[j].kind.Injector? ==>
         t in chain[j].skips || (chain[j].kind.Fallible? && t == ERROR)
  }

  // If nobody is marked Parallel and nobody calls inner() twice, a type is safe exactly if some wrapper or
  // the final function returns it, and it is zeroed by everybody before that who may skip it.
  lemma {:induction false} SafeExactlyIfReturned(chain: seq<Func>, i: nat, t: TypeCode)
    requires RunChain(chain) && i < |chain|
    requires forall k: nat :: k < |chain| ==> chain[k].kind != Wrapper(true)
    ensures Safe(chain, i, t, true) <==> exists r: nat :: ReturnedOver(chain, i, r, t)
    decreases |chain| - i
  {
    if i + 1 < |chain| {
      SafeExactlyIfReturned(chain, i + 1, t);
      if Safe(chain, i, t, true) && !Returns(chain[i], t) {
        var r: nat :| ReturnedOver(chain, i + 1, r, t);
        assert ReturnedOver(chain, i, r, t);
      }
      if r: nat :| ReturnedOver(chain, i, r, t) && r > i {
        assert ReturnedOver(chain, i + 1, r, t);
      }
    }
    if Returns(chain[i], t) {
      assert ReturnedOver(chain, i, i, t);
    }
  }

  // Nobody fails, and every wrapper calls inner().
  ghost predicate GoesOn(w: World, chain: seq<Func>) {
    && (forall i: nat, tr :: i < |chain| && chain[i].kind.Wrapper? ==>
          w.maxCalls(chain[i].id, tr) > 0 && w.wants(chain[i].id, tr))
    && (forall i: nat, tr :: i < |chain| && IsInjector(chain[i]) ==> !Fails(w, chain[i], tr))
  }

  // Then whoever lacks an input reads it unset.
  lemma {:induction false} LackingIsRead(w: World, chain: seq<Func>, j: nat, t: TypeCode, s: nat, down: Flow, tr: Trace)
    requires RunChain(chain) && GoesOn(w, chain) && s <= j < |chain| && t in chain[j].inputs
    requires t !in down && forall i :: s <= i < j ==> t !in chain[i].outputs
    ensures !ReadsSet(w, chain, s, down, tr)
    decreases |chain| - s
  {
    if s < j {
      var p := chain[s];
      var tr1 := tr + [Call(p.id, GetAll(w, down, p.inputs))];
      if p.kind.Wrapper? {
        var args := InnerArgs(w, p.id, tr1, |p.outputs|);
        BindKeys(down, p.outputs, args);
        LackingIsRead(w, chain, j, t, s + 1, Bind(down, p.outputs, args), tr1 + [Inner(p.id, args)]);
      } else {
        BindKeys(down, p.outputs, Sent(w, p, tr1));
        LackingIsRead(w, chain, j, t, s + 1, Bind(down, p.outputs, Sent(w, p, tr1)), tr1);
      }
    }
  }
}
