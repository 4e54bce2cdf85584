/**
 Lists in which somebody does not get what it takes from the closest entry.  All of them are choices that
 inclusion can make.
 */
module OutOfOrder {
  import opened Basics
  import opened Interp
  import FlowGraph
  import opened Reads
  import opened Binding
  import opened Binder
  import opened Supply
  import opened Direct
  import opened DirectAgrees

  const X: TypeCode := 1
  const Y: TypeCode := 2

  // Every function returns 7, and nobody fails.
  const SEVENS: World := World(_ => 0, x => true, (_, _, _) => 7, (_, _) => true, (_, _, _) => 7, (_, _) => 1)

  // [literal X = 1, injector X -> Y, literal X = 2, invoke, final (X, Y)]
  const LATER: seq<Func> := [
    Func(0, Literal(1), true, [], [X], [], [], {}), Func(1, StaticInjector, true, [X], [Y], [], [], {}),
    Func(2, Literal(2), true, [], [X], [], [], {}), Func(3, Invoke, true, [], [], [], [], {}),
    Func(4, Final, true, [X, Y], [], [], [], {})]

  const LATER_CHAIN: FlowGraph.Chain := FlowGraph.Chain(
    [Sender([], [X], [], false), Sender([X], [Y], [], false), Sender([], [X], [], false), Sender([], [], [], true),
     Sender([X, Y], [], [], false)], None, 3, {})

  // The injector is called with the literal that stands after it.
  lemma LaterLiteralIsTaken()
    ensures Chosen(LATER_CHAIN, {0, 1, 2, 3, 4}, LATER, 3) && FlowGraph.Consistent(LATER_CHAIN, {0, 1, 2, 3, 4})
    ensures Prepared(LATER, 3, 3, None) && Separated(LATER, 3) && DistinctIds(LATER)
    ensures CodedEarly(LATER, None, 1, X) == Some(2) && ClosestEarly(LATER, 1, X) == Some(0)
    ensures !ClosestWins(LATER, 3, 3, None)
    ensures Runnable(LATER, []) && forall f :: f in Collection(LATER, 3, Statics, 5) ==> IsStatic(f)
    ensures StaticFrom(SEVENS, Collection(LATER, 3, Statics, 5), 0, StartOf(LATER, None, []), []).trace
            == [Call(1, [2])]
    ensures StaticPass(SEVENS, LATER, [], 5, []).trace == [Call(1, [1])]
  {
    hide *;
    LaterIsConsistent();
    LaterIsChosen();
    LaterSources();
    LaterCoded();
    LaterDirect();
  }

  lemma LaterIsConsistent()
    ensures FlowGraph.Consistent(LATER_CHAIN, {0, 1, 2, 3, 4})
  {
    var c, s := LATER_CHAIN, {0, 1, 2, 3, 4};
    assert FlowGraph.Supplies(c, 0, 1, FlowGraph.Inputs, X);
    assert FlowGraph.Supplies(c, 2, 4, FlowGraph.Inputs, X);
    assert FlowGraph.Supplies(c, 1, 4, FlowGraph.Inputs, Y);
    forall i | i in s ensures FlowGraph.LocallyConsistent(c, s, i) {
      if i == 1 {
        assert FlowGraph.SourcedIn(c, s, 1, FlowGraph.Inputs, X);
      } else if i == 4 {
        assert FlowGraph.SourcedIn(c, s, 4, FlowGraph.Inputs, X) && FlowGraph.SourcedIn(c, s, 4, FlowGraph.Inputs, Y);
      }
    }
  }

  lemma LaterIsChosen()
    ensures Chosen(LATER_CHAIN, {0, 1, 2, 3, 4}, LATER, 3) && Prepared(LATER, 3, 3, None)
    ensures Separated(LATER, 3) && DistinctIds(LATER)
  {
    LaterIsPhased();
    hide Phases;
  }

  lemma LaterIsPhased()
    ensures Phases(LATER, 3, 3) && Separated(LATER, 3) && DistinctIds(LATER)
  {
    assert OneFinal(LATER, 4);
  }

  lemma LaterSources()
    ensures CodedEarly(LATER, None, 1, X) == Some(2) && ClosestEarly(LATER, 1, X) == Some(0)
    ensures !ClosestWins(LATER, 3, 3, None)
  {
    assert LATER[1].included && InGroup(LATER[1], Statics) && X in LATER[1].inputs;
    assert LATER[2].included && OfSort(LATER[2], LiteralOnes) && X in LATER[2].outputs;
    assert LATER[0].included && OfSort(LATER[0], Anybody) && X in LATER[0].outputs;
    hide Latest;
    assert CodedEarly(LATER, None, 1, X) == Some(2);
    assert ClosestEarly(LATER, 1, X) == Some(0);
  }

  lemma LaterCoded()
    ensures forall f :: f in Collection(LATER, 3, Statics, 5) ==> IsStatic(f)
    ensures Prepared(LATER, 3, 3, None)
    ensures StaticFrom(SEVENS, Collection(LATER, 3, Statics, 5), 0, StartOf(LATER, None, []), []).trace
            == [Call(1, [2])]
  {
    LaterIsChosen();
    hide WithSkips, StaticFrom, Prepared, LiteralFlow;
    assert Collection(LATER, 3, Statics, 0) == Collection(LATER, 3, Statics, 1) == [];
    assert Collection(LATER, 3, Statics, 2) == [WithSkips(LATER, 3, 1)];
    assert Collection(LATER, 3, Statics, 5) == Collection(LATER, 3, Statics, 4) == Collection(LATER, 3, Statics, 3);
    SkipsAside(LATER, 3, 1);
    LaterLiterals();
    assert GetAll(SEVENS, map[X := 2], [X]) == [2];
    var f := WithSkips(LATER, 3, 1);
    OneStatic(f, map[X := 2]);
    assert Collection(LATER, 3, Statics, 5) == [f] && f.id == 1 && f.inputs == [X];
    assert |LATER| == 5 && StartOf(LATER, None, []) == map[X := 2];
  }

  lemma LaterLiterals()
    ensures LiteralFlow(LATER, 5) == map[X := 2]
  {
    assert LiteralFlow(LATER, 0) == map[];
    assert LiteralFlow(LATER, 1) == map[X := 1] && LiteralFlow(LATER, 2) == map[X := 1];
    assert LiteralFlow(LATER, 3) == map[X := 2] && LiteralFlow(LATER, 4) == map[X := 2];
  }

  lemma OneStatic(f: Func, down: Flow)
    requires f.kind.StaticInjector? && IsStatic(f)
    ensures StaticFrom(SEVENS, [f], 0, down, []).trace == [Call(f.id, GetAll(SEVENS, down, f.inputs))]
  {
  }

  lemma LaterDirect()
    ensures Runnable(LATER, []) && StaticPass(SEVENS, LATER, [], 5, []).trace == [Call(1, [1])]
  {
    PassStarts(SEVENS, LATER, [], []);
    PassNext(SEVENS, LATER, [], 0, []);
    PassNext(SEVENS, LATER, [], 1, []);
    var p1 := StaticPass(SEVENS, LATER, [], 1, []);
    hide StaticPass;
    assert p1.sent[0] == map[X := 1];
    assert BoundBefore(LATER, p1.sent, 0) == map[];
    assert BoundBefore(LATER, p1.sent, 1) == map[X := 1];
    assert GetAll(SEVENS, map[X := 1], [X]) == [1];
    PassNext(SEVENS, LATER, [], 2, []);
    PassNext(SEVENS, LATER, [], 3, []);
    PassNext(SEVENS, LATER, [], 4, []);
  }

  // [injector -> X, injector X -> Y, literal X = 5, invoke, final (X, Y)]
  const KEPT: seq<Func> := [
    Func(0, StaticInjector, true, [], [X], [], [], {}), Func(1, StaticInjector, true, [X], [Y], [], [], {}),
    Func(2, Literal(5), true, [], [X], [], [], {}), Func(3, Invoke, true, [], [], [], [], {}),
    Func(4, Final, true, [X, Y], [], [], [], {})]

  const KEPT_CHAIN: FlowGraph.Chain := FlowGraph.Chain(
    [Sender([], [X], [], false), Sender([X], [Y], [], false), Sender([], [X], [], false), Sender([], [], [], true),
     Sender([X, Y], [], [], false)], None, 3, {})

  // The literal is closest to the final function, and what the injector returns is there instead.
  lemma EarlierInjectorStays()
    ensures Chosen(KEPT_CHAIN, {0, 1, 2, 3, 4}, KEPT, 3) && FlowGraph.Consistent(KEPT_CHAIN, {0, 1, 2, 3, 4})
    ensures Prepared(KEPT, 3, 3, None) && Separated(KEPT, 3) && DistinctIds(KEPT)
    ensures CodedRun(KEPT, 3, None, 4, X) == Some(0) && Closest(KEPT, 4, X) == Some(2)
    ensures !ClosestWins(KEPT, 3, 3, None)
  {
    hide *;
    KeptIsConsistent();
    KeptIsChosen();
    KeptSources();
  }

  lemma KeptIsConsistent()
    ensures FlowGraph.Consistent(KEPT_CHAIN, {0, 1, 2, 3, 4})
  {
    var c, s := KEPT_CHAIN, {0, 1, 2, 3, 4};
    assert FlowGraph.Supplies(c, 0, 1, FlowGraph.Inputs, X);
    assert FlowGraph.Supplies(c, 2, 4, FlowGraph.Inputs, X);
    assert FlowGraph.Supplies(c, 1, 4, FlowGraph.Inputs, Y);
    forall i | i in s ensures FlowGraph.LocallyConsistent(c, s, i) {
      if i == 1 {
        assert FlowGraph.SourcedIn(c, s, 1, FlowGraph.Inputs, X);
      } else if i == 4 {
        assert FlowGraph.SourcedIn(c, s, 4, FlowGraph.Inputs, X) && FlowGraph.SourcedIn(c, s, 4, FlowGraph.Inputs, Y);
      }
    }
  }

  lemma KeptIsChosen()
    ensures Chosen(KEPT_CHAIN, {0, 1, 2, 3, 4}, KEPT, 3) && Prepared(KEPT, 3, 3, None)
    ensures Separated(KEPT, 3) && DistinctIds(KEPT)
  {
    KeptIsPhased();
    hide Phases;
  }

  lemma KeptIsPhased()
    ensures Phases(KEPT, 3, 3) && Separated(KEPT, 3) && DistinctIds(KEPT)
  {
    assert OneFinal(KEPT, 4);
  }

  lemma KeptSources()
    ensures CodedRun(KEPT, 3, None, 4, X) == Some(0) && Closest(KEPT, 4, X) == Some(2)
    ensures !ClosestWins(KEPT, 3, 3, None)
  {
    assert KEPT[0].included && OfSort(KEPT[0], StaticOnes) && X in KEPT[0].outputs;
    assert KEPT[2].included && OfSort(KEPT[2], Anybody) && X in KEPT[2].outputs;
    assert RunTaker(KEPT[4]) && X in KEPT[4].inputs;
    hide Latest;
    assert CodedRun(KEPT, 3, None, 4, X) == Some(0);
    assert Closest(KEPT, 4, X) == Some(2);
    assert !RunGetsClosest(KEPT, 3, 3, None, 4, X);
  }

  // What the static chain leaves.
  lemma InjectorIsLeft()
    ensures forall f :: f in Collection(KEPT, 3, Statics, 5) ==> IsStatic(f)
    ensures Prepared(KEPT, 3, 3, None)
    ensures StaticFrom(SEVENS, Collection(KEPT, 3, Statics, 5), 0, StartOf(KEPT, None, []), []).down
            == map[X := 7, Y := 7]
  {
    KeptIsChosen();
    hide WithSkips, StaticFrom, Prepared, LiteralFlow;
    assert Collection(KEPT, 3, Statics, 0) == [];
    assert Collection(KEPT, 3, Statics, 1) == [WithSkips(KEPT, 3, 0)];
    assert Collection(KEPT, 3, Statics, 2) == [WithSkips(KEPT, 3, 0), WithSkips(KEPT, 3, 1)];
    assert Collection(KEPT, 3, Statics, 5) == Collection(KEPT, 3, Statics, 4) == Collection(KEPT, 3, Statics, 3);
    SkipsAside(KEPT, 3, 0);
    SkipsAside(KEPT, 3, 1);
    KeptLiterals();
    var f, g := WithSkips(KEPT, 3, 0), WithSkips(KEPT, 3, 1);
    assert Collection(KEPT, 3, Statics, 5) == [f, g] && f.outputs == [X] && g.outputs == [Y];
    assert |KEPT| == 5 && StartOf(KEPT, None, []) == map[X := 5];
    TwoStatics(f, g);
  }

  lemma KeptLiterals()
    ensures LiteralFlow(KEPT, 5) == map[X := 5]
  {
    assert LiteralFlow(KEPT, 0) == map[] && LiteralFlow(KEPT, 1) == map[] && LiteralFlow(KEPT, 2) == map[];
    assert LiteralFlow(KEPT, 3) == map[X := 5] && LiteralFlow(KEPT, 4) == map[X := 5];
  }

  lemma TwoStatics(f: Func, g: Func)
    requires f.kind.StaticInjector? && IsStatic(f) && f.outputs == [X]
    requires g.kind.StaticInjector? && IsStatic(g) && g.outputs == [Y]
    ensures StaticFrom(SEVENS, [f, g], 0, map[X := 5], []).down == map[X := 7, Y := 7]
  {
    hide StaticFrom, Interp.Bind;
    var statics := [f, g];
    var tr: Trace := [];
    var tr1 := tr + [Call(f.id, GetAll(SEVENS, map[X := 5], f.inputs))];
    OneTurn(statics, 0, map[X := 5], tr, X);
    assert (map[X := 5])[X := 7] == map[X := 7];
    OneTurn(statics, 1, map[X := 7], tr1, Y);
    assert (map[X := 7])[Y := 7] == map[X := 7, Y := 7];
    assert StaticFrom(SEVENS, statics, 0, map[X := 5], tr) == StaticFrom(SEVENS, statics, 1, map[X := 7], tr1);
  }

  lemma OneTurn(statics: seq<Func>, k: nat, down: Flow, tr: Trace, t: TypeCode)
    requires k < |statics| && (forall i :: 0 <= i < |statics| ==> IsStatic(statics[i]))
             && statics[k].kind.StaticInjector?
    requires statics[k].outputs == [t]
    ensures
      var tr1 := tr + [Call(statics[k].id, GetAll(SEVENS, down, statics[k].inputs))];
      var down1 := down[t := 7];
      && StaticFrom(SEVENS, statics, k, down, tr) == StaticFrom(SEVENS, statics, k + 1, down1, tr1)
      && (k + 1 == |statics| ==> StaticFrom(SEVENS, statics, k, down, tr).down == down1)
  {
    BindOne(down, t, statics[k].id, tr + [Call(statics[k].id, GetAll(SEVENS, down, statics[k].inputs))]);
    hide Interp.Bind;
  }

  lemma BindOne(m: Flow, t: TypeCode, id: nat, tr: Trace)
    ensures Interp.Bind(m, [t], Results(SEVENS, id, tr, 1)) == m[t := 7]
  {
    var values := Results(SEVENS, id, tr, 1);
    var types := [t];
    assert types[..|types| - 1] == [] && values[..|types| - 1] == [] && values[|types| - 1] == 7;
    assert Interp.Bind(m, types[..|types| - 1], values[..|types| - 1]) == m;
    assert Interp.Bind(m, types, values) == m[t := 7];
  }

  // [init -> X, literal X = 5, invoke, final (X)]: the inputs of the init function overwrite the literal.
  const OVERWRITTEN: seq<Func> := [
    Func(0, Init, true, [], [X], [], [], {}), Func(1, Literal(5), true, [], [X], [], [], {}),
    Func(2, Invoke, true, [], [], [], [], {}), Func(3, Final, true, [X], [], [], [], {})]

  const OVERWRITTEN_CHAIN: FlowGraph.Chain := FlowGraph.Chain(
    [Sender([], [X], [], false), Sender([], [X], [], false), Sender([], [], [], true), Sender([X], [], [], false)],
    Some(0), 2, {})

  lemma LiteralOverwritten()
    ensures Chosen(OVERWRITTEN_CHAIN, {0, 1, 2, 3}, OVERWRITTEN, 2)
    ensures FlowGraph.Consistent(OVERWRITTEN_CHAIN, {0, 1, 2, 3}) && Separated(OVERWRITTEN, 2)
    ensures CodedRun(OVERWRITTEN, 2, Some(0), 3, X) == Some(0) && Closest(OVERWRITTEN, 3, X) == Some(1)
  {
    OverwrittenIsConsistent();
    OverwrittenIsPhased();
    hide FlowGraph.Consistent, Phases, Separated;
    assert OVERWRITTEN[1].included && OfSort(OVERWRITTEN[1], Anybody) && X in OVERWRITTEN[1].outputs;
  }

  lemma OverwrittenIsPhased()
    ensures Phases(OVERWRITTEN, 2, 2) && Separated(OVERWRITTEN, 2)
  {
    assert OneFinal(OVERWRITTEN, 3);
  }

  lemma OverwrittenIsConsistent()
    ensures FlowGraph.Consistent(OVERWRITTEN_CHAIN, {0, 1, 2, 3})
  {
    var c, s := OVERWRITTEN_CHAIN, {0, 1, 2, 3};
    assert FlowGraph.Supplies(c, 1, 3, FlowGraph.Inputs, X);
    forall i | i in s ensures FlowGraph.LocallyConsistent(c, s, i) {
      if i == 3 {
        assert FlowGraph.SourcedIn(c, s, 3, FlowGraph.Inputs, X);
      }
    }
  }

  // [literal X = 5, injector X -> Y, invoke -> X, final (Y)], the injector having been moved in front of the invoke
  // function: it gets what that is called with.
  const MOVED: seq<Func> := [
    Func(0, Literal(5), true, [], [X], [], [], {}), Func(1, Injector, true, [X], [Y], [], [], {}),
    Func(2, Invoke, true, [], [X], [], [], {}), Func(3, Final, true, [Y], [], [], [], {})]

  const MOVED_CHAIN: FlowGraph.Chain := FlowGraph.Chain(
    [Sender([], [X], [], false), Sender([X], [Y], [], false), Sender([], [X], [], true), Sender([Y], [], [], false)],
    None, 2, {})

  lemma MovedGetsInvokeInputs()
    ensures Chosen(MOVED_CHAIN, {0, 1, 2, 3}, MOVED, 1) && FlowGraph.Consistent(MOVED_CHAIN, {0, 1, 2, 3})
    ensures RoomForReturns(MOVED, 1)
    ensures CodedRun(MOVED, 2, None, 1, X) == Some(2) && Closest(MOVED, 1, X) == Some(0)
  {
    MovedIsConsistent();
    hide FlowGraph.Consistent;
    assert OneFinal(MOVED, 3);
    assert Phases(MOVED, 1, 2);
    hide Phases, OneFinal;
    assert MOVED[0].included && OfSort(MOVED[0], Anybody) && X in MOVED[0].outputs;
  }

  lemma MovedIsConsistent()
    ensures FlowGraph.Consistent(MOVED_CHAIN, {0, 1, 2, 3})
  {
    var c, s := MOVED_CHAIN, {0, 1, 2, 3};
    assert FlowGraph.Supplies(c, 0, 1, FlowGraph.Inputs, X);
    assert FlowGraph.Supplies(c, 1, 3, FlowGraph.Inputs, Y);
    forall i | i in s ensures FlowGraph.LocallyConsistent(c, s, i) {
      if i == 1 {
        assert FlowGraph.SourcedIn(c, s, 1, FlowGraph.Inputs, X);
      } else if i == 3 {
        assert FlowGraph.SourcedIn(c, s, 3, FlowGraph.Inputs, Y);
      }
    }
  }
}
