/**
 What the choice of the included providers means for the code made from them: when binding can fail, and
 when a value can be used before it has been set.
 */
module Supply {
  import opened Basics
  import FlowGraph
  import opened Interp
  import opened Reads
  import opened Slots
  import opened Binding
  import opened Binder

  predicate SameTypes(a: seq<TypeCode>, b: seq<TypeCode>) {
    && (forall t :: t in a && t != NO_TYPE ==> t in b)
    && (forall t :: t in b ==> t in a && t != NO_TYPE)
  }

  // The provider as the inclusion solver sees it and as binding sees it.  The results of the init
  // function are its bypass flow; inner() is in the flows of the solver as NO_TYPE.
  predicate Describes(p: FlowGraph.Provider, f: Func) {
    && SameTypes(p.inputs, f.inputs) && SameTypes(p.outputs, f.outputs) && SameTypes(p.returned, f.returned)
    && (if f.kind.Init? then SameTypes(p.bypass, f.received) else SameTypes(p.received, f.received))
  }

  // A chain together with the providers chosen from it, ready to be bound.
  ghost predicate Chosen(c: FlowGraph.Chain, included: set<nat>, funcs: seq<Func>, invokeIndex: nat) {
    && |funcs| == |c.funcs| && c.givenUp == {}
    && Phases(funcs, invokeIndex, c.invoke) && InitOk(funcs, invokeIndex, c.init)
    && (forall i: nat :: i < |funcs| ==> Describes(c.funcs[i], funcs[i]))
    && (forall i: nat :: i < |funcs| ==> (funcs[i].included <==> i in included))
    && (forall i: nat :: i < |funcs| && funcs[i].kind.Init? ==> c.init == Some(i))
  }

  lemma InputHasSource(c: FlowGraph.Chain, included: set<nat>, funcs: seq<Func>, invokeIndex: nat, i: nat, t: TypeCode)
    returns (j: nat)
    requires Chosen(c, included, funcs, invokeIndex) && FlowGraph.Consistent(c, included)
    requires i in included && i < |funcs| && t in funcs[i].inputs
    ensures j < i && j in included && t in funcs[j].outputs
  {
    assert Describes(c.funcs[i], funcs[i]) && FlowGraph.LocallyConsistent(c, included, i);
    assert FlowGraph.Needs(c, i, FlowGraph.Inputs, t);
    assert FlowGraph.SourcedIn(c, included, i, FlowGraph.Inputs, t);
    j :| j in included && FlowGraph.Supplies(c, j, i, FlowGraph.Inputs, t);
    assert Describes(c.funcs[j], funcs[j]);
  }

  lemma ReceivedHasSource(c: FlowGraph.Chain, included: set<nat>, funcs: seq<Func>, invokeIndex: nat, i: nat,
                          t: TypeCode)
    returns (j: nat)
    requires Chosen(c, included, funcs, invokeIndex) && FlowGraph.Consistent(c, included)
    requires i in included && i < |funcs| && t in funcs[i].received
    ensures j in included && j < |funcs|
    ensures if funcs[i].kind.Init? then j < c.invoke && t in funcs[j].outputs else i < j && t in funcs[j].returned
  {
    var flow := if funcs[i].kind.Init? then FlowGraph.Bypass else FlowGraph.Received;
    assert Describes(c.funcs[i], funcs[i]) && FlowGraph.LocallyConsistent(c, included, i);
    assert FlowGraph.Needs(c, i, flow, t);
    assert FlowGraph.SourcedIn(c, included, i, flow, t);
    j :| j in included && FlowGraph.Supplies(c, j, i, flow, t);
    assert Describes(c.funcs[j], funcs[j]);
  }

  // What comes up, errors included, is returned by somebody from 'invokeIndex' on, so that there is a place
  // for it.
  ghost predicate RoomForReturns(funcs: seq<Func>, invokeIndex: nat) {
    forall i: nat, t :: i < |funcs| && funcs[i].included && ComesUp(funcs[i], t) ==> ReturnedFrom(funcs, invokeIndex, t)
  }

  // A self-consistent choice has a place for everything that goes down.  The init function is starved
  // exactly if some result of it is sent by no entry before 'invokeIndex', so that it was to come from
  // entries that reordering has left between there and the invoke function.
  lemma ChoiceCanBeBound(c: FlowGraph.Chain, included: set<nat>, funcs: seq<Func>, invokeIndex: nat)
    requires Chosen(c, included, funcs, invokeIndex) && FlowGraph.Consistent(c, included)
    ensures invokeIndex <= |funcs| && (WellSupplied(funcs, invokeIndex) <==> RoomForReturns(funcs, invokeIndex))
    ensures InitStarved(funcs, invokeIndex, c.init) <==> exists t :: SentTooLate(c, funcs, invokeIndex, t)
  {
    forall i: nat | i < |funcs| && funcs[i].included ensures NO_TYPE !in Flows(funcs[i]) {
      assert Describes(c.funcs[i], funcs[i]);
    }
    forall i: nat, t | i < invokeIndex && funcs[i].included && t in funcs[i].inputs
      ensures SentBetween(funcs, 0, invokeIndex, t)
    {
      var j := InputHasSource(c, included, funcs, invokeIndex, i, t);
    }
    if InitStarved(funcs, invokeIndex, c.init) {
      var t :| t in funcs[c.init.value].received && !SentBetween(funcs, 0, invokeIndex, t);
      var j := ReceivedHasSource(c, included, funcs, invokeIndex, c.init.value, t);
      assert SentTooLate(c, funcs, invokeIndex, t);
    }
  }

  // A result of the init function that only entries between 'invokeIndex' and the invoke function send.
  ghost predicate SentTooLate(c: FlowGraph.Chain, funcs: seq<Func>, invokeIndex: nat, t: TypeCode)
    requires c.invoke < |funcs| && invokeIndex <= |funcs| && InitOk(funcs, invokeIndex, c.init)
  {
    && c.init.Some? && t in funcs[c.init.value].received && !SentBetween(funcs, 0, invokeIndex, t)
    && exists j: nat :: invokeIndex <= j < c.invoke && funcs[j].included && t in funcs[j].outputs
  }

  // As long as nobody has been moved past 'invokeIndex' there is a place for what comes up as well.
  lemma SeparatedHasRoom(c: FlowGraph.Chain, included: set<nat>, funcs: seq<Func>, invokeIndex: nat)
    requires Chosen(c, included, funcs, invokeIndex) && FlowGraph.Consistent(c, included)
    requires Separated(funcs, invokeIndex)
    ensures RoomForReturns(funcs, invokeIndex)
  {
    forall i: nat, t | i < |funcs| && funcs[i].included && ComesUp(funcs[i], t)
      ensures ReturnedFrom(funcs, invokeIndex, t)
    {
      assert invokeIndex <= i;
      if !funcs[i].kind.Init? && t in funcs[i].received {
        var j := ReceivedHasSource(c, included, funcs, invokeIndex, i, t);
      } else {
        PhasesAre(funcs, invokeIndex, c.invoke);
        assert t in funcs[i].returned;
      }
    }
  }

  // Binding the providers that have been chosen, if there is a place for what comes up, fails in that
  // case only.
  method BindChosen(w: World, funcs: seq<Func>, invokeIndex: nat, invoke: nat, init: Option<nat>,
                    ghost c: FlowGraph.Chain, ghost included: set<nat>)
    returns (r: Option<Bound>)
    requires Chosen(c, included, funcs, invokeIndex) && FlowGraph.Consistent(c, included)
    requires invoke == c.invoke && init == c.init && RoomForReturns(funcs, invokeIndex)
    ensures invokeIndex <= |funcs| && (r == None <==> exists t :: SentTooLate(c, funcs, invokeIndex, t))
    ensures r.Some? ==> fresh(r.value) && r.value.Valid() && r.value.w == w && !r.value.initDone
    ensures r.Some? ==> r.value.p == PlanFor(funcs, invokeIndex, invoke, init)
  {
    ChoiceCanBeBound(c, included, funcs, invokeIndex);
    r := DoBind(w, funcs, invokeIndex, invoke, init);
  }

  // A chain in which that happens: [init, sender, invoke, final], where init returns a type that only the
  // sender sends, and the sender has been moved in front of the invoke function.
  const WANTED: TypeCode := 4
  const STARVING: seq<Func> := [
    Func(0, Init, true, [], [], [], [WANTED], {}), Func(1, Injector, true, [], [WANTED], [], [], {}),
    Func(2, Invoke, true, [], [], [], [], {}), Func(3, Final, true, [], [], [], [], {})]

  function Plain(outputs: seq<TypeCode>, bypass: seq<TypeCode>, isInvoke: bool): FlowGraph.Provider {
    FlowGraph.Provider(isInvoke, true, false, false, 0, None, None, true, outputs, [], [], [], bypass)
  }

  const STARVING_CHAIN: FlowGraph.Chain :=
    FlowGraph.Chain([Plain([], [WANTED], false), Plain([WANTED], [], false), Plain([], [], true), Plain([], [], false)],
                    Some(0), 2, {})

  lemma StarvedByMovedProvider()
    ensures Chosen(STARVING_CHAIN, {0, 1, 2, 3}, STARVING, 1) && FlowGraph.Consistent(STARVING_CHAIN, {0, 1, 2, 3})
    ensures InitStarved(STARVING, 1, Some(0))
  {
    var c, s := STARVING_CHAIN, {0, 1, 2, 3};
    assert OneFinal(STARVING, 3);
    forall i | i in s ensures FlowGraph.LocallyConsistent(c, s, i) {
      if i == 0 {
        assert FlowGraph.Supplies(c, 1, 0, FlowGraph.Bypass, WANTED);
        assert FlowGraph.SourcedIn(c, s, 0, FlowGraph.Bypass, WANTED);
      }
    }
    assert WANTED in STARVING[0].received && !SentBetween(STARVING, 0, 1, WANTED);
  }

  // A chain without a place for an error: [checker, literal, invoke, final], where the checker may fail and
  // has been moved in front of the literal, before 'invokeIndex'.
  const ROOMLESS: seq<Func> := [
    Func(0, Fallible(0), true, [], [], [ERROR], [], {}), Func(1, Literal(7), true, [], [WANTED], [], [], {}),
    Func(2, Invoke, true, [], [], [], [], {}), Func(3, Final, true, [WANTED], [], [], [], {})]

  function Sender(inputs: seq<TypeCode>, outputs: seq<TypeCode>, returned: seq<TypeCode>, isInvoke: bool)
    : FlowGraph.Provider
  {
    FlowGraph.Provider(isInvoke, true, false, false, 0, None, Some({ERROR}), true, outputs, inputs, returned, [], [])
  }

  const ROOMLESS_CHAIN: FlowGraph.Chain := FlowGraph.Chain(
    [Sender([], [], [ERROR], false), Sender([], [WANTED], [], false), Sender([], [], [], true),
     Sender([WANTED], [], [], false)], None, 2, {})

  lemma NoRoomForError()
    ensures Chosen(ROOMLESS_CHAIN, {0, 1, 2, 3}, ROOMLESS, 1) && FlowGraph.Consistent(ROOMLESS_CHAIN, {0, 1, 2, 3})
    ensures !RoomForReturns(ROOMLESS, 1)
  {
    var c, s := ROOMLESS_CHAIN, {0, 1, 2, 3};
    assert OneFinal(ROOMLESS, 3);
    assert FlowGraph.Supplies(c, 1, 3, FlowGraph.Inputs, WANTED);
    forall i | i in s ensures FlowGraph.LocallyConsistent(c, s, i) {
      if i == 3 {
        assert FlowGraph.SourcedIn(c, s, 3, FlowGraph.Inputs, WANTED);
      }
    }
    assert ComesUp(ROOMLESS[0], ERROR) && !ReturnedFrom(ROOMLESS, 1, ERROR);
  }

  // ------------------------------------------------------------------ What has been set

  // The init function is the only one of its kind.
  ghost predicate Prepared(funcs: seq<Func>, invokeIndex: nat, invoke: nat, init: Option<nat>) {
    && Phases(funcs, invokeIndex, invoke) && InitOk(funcs, invokeIndex, init)
    && forall i: nat :: i < |funcs| && funcs[i].kind.Init? ==> init == Some(i)
  }

  lemma ChosenIsPrepared(c: FlowGraph.Chain, included: set<nat>, funcs: seq<Func>, invokeIndex: nat)
    requires Chosen(c, included, funcs, invokeIndex)
    ensures Prepared(funcs, invokeIndex, c.invoke, c.init)
  {
  }

  // Types that are there before the static chain runs, and types sent by the static providers among the
  // first 'n'.
  ghost predicate FromStart(funcs: seq<Func>, t: TypeCode) {
    exists i: nat ::
      && i < |funcs| && funcs[i].included && t in funcs[i].outputs
      && (funcs[i].kind.Literal? || funcs[i].kind.Init?)
  }

  ghost predicate StaticSends(funcs: seq<Func>, n: nat, t: TypeCode) {
    exists i: nat :: i < n && i < |funcs| && funcs[i].included && InGroup(funcs[i], Statics) && t in funcs[i].outputs
  }

  // Every static provider finds its inputs among these, wherever else they may be sent.
  ghost predicate StaticsSupplied(funcs: seq<Func>) {
    forall k: nat, t :: k < |funcs| && funcs[k].included && InGroup(funcs[k], Statics) && t in funcs[k].inputs ==>
      FromStart(funcs, t) || StaticSends(funcs, k, t)
  }

  // The type is there once the static chain has run, whoever has failed.
  ghost predicate BaseSet(funcs: seq<Func>, invokeIndex: nat, t: TypeCode)
    requires invokeIndex <= |funcs|
  {
    || FromStart(funcs, t)
    || (StaticSends(funcs, |funcs|, t)
        && forall k: nat :: k < |funcs| && funcs[k].included && funcs[k].kind.StaticFallible? ==>
             StaticSends(funcs, k + 1, t) || SentBetween(funcs, k + 1, invokeIndex, t))
  }

  // Every provider of the run chain finds its inputs there, among the inputs of the invoke function, or
  // further up in the chain.
  ghost predicate RunsSupplied(funcs: seq<Func>, invokeIndex: nat, invoke: nat)
    requires invokeIndex <= |funcs| && invoke < |funcs|
  {
    var chain := ChainOf(funcs, invokeIndex);
    forall j, t :: 0 <= j < |chain| && t in chain[j].inputs ==>
      || BaseSet(funcs, invokeIndex, t) || t in funcs[invoke].outputs
      || exists i :: 0 <= i < j && t in chain[i].outputs
  }

  // If nobody has been moved past 'invokeIndex', a self-consistent choice supplies everybody.
  lemma ConsistentIsSupplied(c: FlowGraph.Chain, included: set<nat>, funcs: seq<Func>, invokeIndex: nat)
    requires Chosen(c, included, funcs, invokeIndex) && FlowGraph.Consistent(c, included)
    requires Separated(funcs, invokeIndex)
    ensures invokeIndex <= |funcs| && c.invoke < |funcs|
    ensures StaticsSupplied(funcs) && RunsSupplied(funcs, invokeIndex, c.invoke)
    ensures forall t :: BaseSet(funcs, invokeIndex, t) <==> SentFirst(funcs, invokeIndex, t)
  {
    forall t ensures BaseSet(funcs, invokeIndex, t) <==> SentFirst(funcs, invokeIndex, t) {
      SeparatedBase(funcs, invokeIndex, c.invoke, t);
    }
    forall k: nat, t | k < |funcs| && funcs[k].included && InGroup(funcs[k], Statics) && t in funcs[k].inputs
      ensures FromStart(funcs, t) || StaticSends(funcs, k, t)
    {
      PhasesAre(funcs, invokeIndex, c.invoke);
      var j := InputHasSource(c, included, funcs, invokeIndex, k, t);
    }
    var at, last := ChainOrigins(funcs, invokeIndex, c.invoke);
    var chain := ChainOf(funcs, invokeIndex);
    forall j, t | 0 <= j < |chain| && t in chain[j].inputs
      ensures BaseSet(funcs, invokeIndex, t) || t in funcs[c.invoke].outputs
              || exists i :: 0 <= i < j && t in chain[i].outputs
    {
      RunHasSource(c, included, funcs, invokeIndex, at, last, j, t);
    }
  }

  // An included entry before 'invokeIndex' sends the type.
  ghost predicate SentFirst(funcs: seq<Func>, invokeIndex: nat, t: TypeCode) {
    exists i: nat :: i < invokeIndex && i < |funcs| && funcs[i].included && t in funcs[i].outputs
  }

  lemma SeparatedBase(funcs: seq<Func>, invokeIndex: nat, invoke: nat, t: TypeCode)
    requires Phases(funcs, invokeIndex, invoke) && Separated(funcs, invokeIndex)
    ensures BaseSet(funcs, invokeIndex, t) <==> SentFirst(funcs, invokeIndex, t)
  {
    if i: nat :| i < invokeIndex && i < |funcs| && funcs[i].included && t in funcs[i].outputs {
      assert StaticPhase(funcs[i]);
      forall k: nat | k < |funcs| && funcs[k].included && funcs[k].kind.StaticFallible? && InGroup(funcs[i], Statics)
        ensures StaticSends(funcs, k + 1, t) || SentBetween(funcs, k + 1, invokeIndex, t)
      {
      }
    }
    if BaseSet(funcs, invokeIndex, t) {
      assert FromStart(funcs, t) || StaticSends(funcs, |funcs|, t);
      var i: nat :| i < |funcs| && funcs[i].included && t in funcs[i].outputs
                    && (funcs[i].kind.Literal? || funcs[i].kind.Init? || InGroup(funcs[i], Statics));
      PhasesAre(funcs, invokeIndex, invoke);
    }
  }

  lemma RunHasSource(c: FlowGraph.Chain, included: set<nat>, funcs: seq<Func>, invokeIndex: nat, at: seq<nat>,
                     last: nat, j: nat, t: TypeCode)
    requires Chosen(c, included, funcs, invokeIndex) && FlowGraph.Consistent(c, included)
    requires Separated(funcs, invokeIndex)
    requires c.invoke < |funcs| && MadeFrom(funcs, invokeIndex, at, last)
    requires j < |ChainOf(funcs, invokeIndex)| && t in ChainOf(funcs, invokeIndex)[j].inputs
    ensures BaseSet(funcs, invokeIndex, t) || t in funcs[c.invoke].outputs
            || exists i :: 0 <= i < j && t in ChainOf(funcs, invokeIndex)[i].outputs
  {
    var i := InputHasSource(c, included, funcs, invokeIndex, at[j], t);
    if i < invokeIndex {
      SeparatedBase(funcs, invokeIndex, c.invoke, t);
      assert SentFirst(funcs, invokeIndex, t);
    } else if i != c.invoke {
      assert RunPhase(funcs[i]) && InGroup(funcs[i], Runs);
      var k: nat :| k < |at| - 1 && at[k] == i;
      assert k < j;
      assert ChainOf(funcs, invokeIndex)[k] == WithSkips(funcs, invokeIndex, i);
    }
  }

  lemma FinalOf(funcs: seq<Func>, invokeIndex: nat, invoke: nat) returns (last: nat)
    requires Phases(funcs, invokeIndex, invoke)
    ensures OneFinal(funcs, last) && last < |funcs| && funcs[last].included && invokeIndex <= |funcs|
    ensures ChainOf(funcs, invokeIndex) == Collection(funcs, invokeIndex, Runs, |funcs|)
            + [WithSkips(funcs, invokeIndex, last)]
  {
    last :| OneFinal(funcs, last);
    FinalsSoFar(funcs, invokeIndex, last, |funcs|);
  }

  // The members of a collection, by position.
  lemma {:induction false} Origins(funcs: seq<Func>, invokeIndex: nat, g: Group, n: nat) returns (at: seq<nat>)
    requires n <= |funcs| && invokeIndex <= |funcs|
    ensures |at| == |Collection(funcs, invokeIndex, g, n)|
    ensures forall k :: 0 <= k < |at| ==> at[k] < n && funcs[at[k]].included && InGroup(funcs[at[k]], g)
    ensures forall k :: 0 <= k < |at| ==>
              Collection(funcs, invokeIndex, g, n)[k] == WithSkips(funcs, invokeIndex, at[k])
    ensures forall k, l :: 0 <= k < l < |at| ==> at[k] < at[l]
    ensures forall i: nat :: i < n && funcs[i].included && InGroup(funcs[i], g) ==> i in at
  {
    hide WithSkips, InGroup;
    at := [];
    if n > 0 {
      at := Origins(funcs, invokeIndex, g, n - 1);
      if funcs[n - 1].included && InGroup(funcs[n - 1], g) {
        at := at + [n - 1];
      }
    }
  }

  // The run chain consists of the providers at these positions: those of the run group in order, then the
  // final function.
  ghost predicate MadeFrom(funcs: seq<Func>, invokeIndex: nat, at: seq<nat>, last: nat)
    requires invokeIndex <= |funcs|
  {
    && OneFinal(funcs, last) && at != [] && at[|at| - 1] == last && |at| == |ChainOf(funcs, invokeIndex)|
    && (forall k :: 0 <= k < |at| ==> at[k] < |funcs| && funcs[at[k]].included)
    && (forall k :: 0 <= k < |at| ==> ChainOf(funcs, invokeIndex)[k] == WithSkips(funcs, invokeIndex, at[k]))
    && (forall k, l :: 0 <= k < l < |at| - 1 ==> at[k] < at[l])
    && (forall k :: 0 <= k < |at| - 1 ==> at[k] != last && InGroup(funcs[at[k]], Runs))
    && (forall i: nat :: i < |funcs| && funcs[i].included && InGroup(funcs[i], Runs) ==>
          exists k :: 0 <= k < |at| - 1 && at[k] == i)
  }

  lemma ChainOrigins(funcs: seq<Func>, invokeIndex: nat, invoke: nat) returns (at: seq<nat>, last: nat)
    requires Phases(funcs, invokeIndex, invoke)
    ensures invokeIndex <= |funcs| && MadeFrom(funcs, invokeIndex, at, last)
  {
    hide Phases, Collection, WithSkips, ChainOf;
    last := FinalOf(funcs, invokeIndex, invoke);
    var runs := Origins(funcs, invokeIndex, Runs, |funcs|);
    at := runs + [last];
    forall i: nat | i < |funcs| && funcs[i].included && InGroup(funcs[i], Runs)
      ensures exists k :: 0 <= k < |at| - 1 && at[k] == i
    {
      var k :| 0 <= k < |runs| && runs[k] == i;
      assert at[k] == i;
    }
  }

  lemma ChainIdsDistinct(funcs: seq<Func>, invokeIndex: nat, invoke: nat)
    requires Phases(funcs, invokeIndex, invoke) && DistinctIds(funcs)
    ensures invokeIndex <= |funcs| && DistinctIds(ChainOf(funcs, invokeIndex))
  {
    var at, last := ChainOrigins(funcs, invokeIndex, invoke);
    var chain := ChainOf(funcs, invokeIndex);
    forall i: nat, j: nat | i < j < |chain| ensures chain[i].id != chain[j].id {
      assert at[i] != at[j];
      assert at[i] < at[j] || at[j] < at[i];
    }
  }

  // In the run of the static chain from its k-th provider on, every provider called finds its inputs.
  ghost predicate StaticInputsSet(w: World, statics: seq<Func>, k: nat, down: Flow, tr: Trace)
    requires k <= |statics| && forall i :: 0 <= i < |statics| ==> IsStatic(statics[i])
    decreases |statics| - k
  {
    k == |statics| ||
    var f := statics[k];
    var tr1 := tr + [Call(f.id, GetAll(w, down, f.inputs))];
    && (forall t :: t in f.inputs ==> t in down)
    && (StaticFails(w, f, tr1) ||
        StaticInputsSet(w, statics, k + 1, Interp.Bind(down, f.outputs, Results(w, f.id, tr1, |f.outputs|)), tr1))
  }

  // Where a member of a group is in the collection.
  lemma {:induction false} AtPosition(funcs: seq<Func>, invokeIndex: nat, g: Group, n: nat, m: nat)
    requires n < m <= |funcs| && invokeIndex <= |funcs|
    requires funcs[n].included && InGroup(funcs[n], g)
    ensures
      var members, k := Collection(funcs, invokeIndex, g, m), |Collection(funcs, invokeIndex, g, n)|;
      && k < |members| && (m == n + 1 ==> |members| == k + 1)
      && members[k] == WithSkips(funcs, invokeIndex, n)
  {
    if m > n + 1 {
      AtPosition(funcs, invokeIndex, g, n, m - 1);
    }
  }

  lemma {:induction false} StaticsAreStatic(funcs: seq<Func>, invokeIndex: nat, invoke: nat, n: nat)
    requires Phases(funcs, invokeIndex, invoke) && n <= |funcs|
    ensures forall f :: f in Collection(funcs, invokeIndex, Statics, n) ==> IsStatic(f)
    ensures
      var statics := Collection(funcs, invokeIndex, Statics, n);
      forall k :: 0 <= k < |statics| ==> IsStatic(statics[k])
  {
    var statics := Collection(funcs, invokeIndex, Statics, n);
    if n > 0 {
      StaticsAreStatic(funcs, invokeIndex, invoke, n - 1);
      PhasesAre(funcs, invokeIndex, invoke);
      SkipsKeepKind(funcs, invokeIndex, n - 1);
    }
    forall k | 0 <= k < |statics| ensures IsStatic(statics[k]) {
      assert statics[k] in statics;
    }
  }

  lemma SkipsKeepKind(funcs: seq<Func>, invokeIndex: nat, n: nat)
    requires n < |funcs| && invokeIndex <= |funcs|
    ensures IsStatic(funcs[n]) <==> IsStatic(WithSkips(funcs, invokeIndex, n))
  {
  }

  lemma SkipsChangeLittle(w: World, funcs: seq<Func>, invokeIndex: nat, n: nat, tr: Trace)
    requires n < |funcs| && invokeIndex <= |funcs|
    ensures
      var f, g := funcs[n], WithSkips(funcs, invokeIndex, n);
      && g == f.(skips := g.skips) && (IsStatic(f) <==> IsStatic(g))
      && (IsStatic(f) ==> (StaticFails(w, f, tr) <==> StaticFails(w, g, tr)))
  {
  }

  lemma SkipsAre(funcs: seq<Func>, invokeIndex: nat, k: nat, i: nat, t: TypeCode)
    requires k < |funcs| && invokeIndex <= |funcs| && i < |funcs| && funcs[i].included && t in Flows(funcs[i])
    ensures t in WithSkips(funcs, invokeIndex, k).skips <==> ToSkip(funcs, invokeIndex, k, t)
  {
    var j: nat :| 0 <= j < |Flows(funcs[i])| && Flows(funcs[i])[j] == t;
  }

  // The base values from which the static chain starts, with the inputs of the init function if there
  // is one.
  ghost function StartOf(funcs: seq<Func>, init: Option<nat>, initInputs: seq<Value>): Flow
    requires init.Some? ==> init.value < |funcs| && |initInputs| == |funcs[init.value].outputs|
    requires forall i: nat :: i < |funcs| && funcs[i].kind.Literal? ==> funcs[i].outputs != []
  {
    var literals := LiteralFlow(funcs, |funcs|);
    if init.Some? then Interp.Bind(literals, funcs[init.value].outputs, initInputs) else literals
  }

  lemma {:induction false} LiteralsAreSet(funcs: seq<Func>, n: nat, t: TypeCode)
    requires n <= |funcs| && forall k: nat :: k < n && funcs[k].kind.Literal? ==> |funcs[k].outputs| == 1
    ensures t in LiteralFlow(funcs, n) <==>
              exists i: nat :: i < n && funcs[i].included && funcs[i].kind.Literal? && t in funcs[i].outputs
  {
    if n > 0 {
      LiteralsAreSet(funcs, n - 1, t);
      var f := funcs[n - 1];
      assert f.kind.Literal? ==> f.outputs == [f.outputs[0]];
    }
  }

  lemma StartHas(funcs: seq<Func>, invokeIndex: nat, invoke: nat, init: Option<nat>, initInputs: seq<Value>)
    requires Prepared(funcs, invokeIndex, invoke, init)
    requires init.Some? ==> |initInputs| == |funcs[init.value].outputs|
    ensures forall i: nat :: i < |funcs| && funcs[i].kind.Literal? ==> |funcs[i].outputs| == 1
    ensures forall t :: t in StartOf(funcs, init, initInputs) <==> FromStart(funcs, t)
  {
    PhasesAre(funcs, invokeIndex, invoke);
    if init.Some? {
      BindKeys(LiteralFlow(funcs, |funcs|), funcs[init.value].outputs, initInputs);
    }
    forall t ensures t in StartOf(funcs, init, initInputs) <==> FromStart(funcs, t) {
      LiteralsAreSet(funcs, |funcs|, t);
    }
  }

  // What is set when the static chain has come to position 'n' of the list.
  ghost predicate SetAt(funcs: seq<Func>, n: nat, down: Flow) {
    forall t :: t in down <==> FromStart(funcs, t) || StaticSends(funcs, n, t)
  }

  lemma SetAtStart(funcs: seq<Func>, invokeIndex: nat, invoke: nat, init: Option<nat>, initInputs: seq<Value>)
    requires Prepared(funcs, invokeIndex, invoke, init)
    requires init.Some? ==> |initInputs| == |funcs[init.value].outputs|
    ensures forall i: nat :: i < |funcs| && funcs[i].kind.Literal? ==> |funcs[i].outputs| == 1
    ensures SetAt(funcs, 0, StartOf(funcs, init, initInputs))
  {
    StartHas(funcs, invokeIndex, invoke, init, initInputs);
  }

  lemma SetAtNext(funcs: seq<Func>, n: nat, down: Flow, values: seq<Value>)
    requires n < |funcs| && SetAt(funcs, n, down) && |values| == |funcs[n].outputs|
    ensures if funcs[n].included && InGroup(funcs[n], Statics)
            then SetAt(funcs, n + 1, Interp.Bind(down, funcs[n].outputs, values)) else SetAt(funcs, n + 1, down)
  {
    BindKeys(down, funcs[n].outputs, values);
    forall t ensures StaticSends(funcs, n + 1, t) <==>
        StaticSends(funcs, n, t) || (funcs[n].included && InGroup(funcs[n], Statics) && t in funcs[n].outputs) {
    }
  }

  // One position of the static chain: the provider there, if it is a static one, is the next of the chain.
  lemma StaticTurn(w: World, funcs: seq<Func>, invokeIndex: nat, invoke: nat, n: nat, down: Flow, tr: Trace)
    requires Phases(funcs, invokeIndex, invoke) && n < |funcs|
    ensures
      var statics, k := Collection(funcs, invokeIndex, Statics, |funcs|), |Collection(funcs, invokeIndex, Statics, n)|;
      && (forall i :: 0 <= i < |statics| ==> IsStatic(statics[i])) && k <= |statics|
      && |Collection(funcs, invokeIndex, Statics, n + 1)| <= |statics|
      && (!(funcs[n].included && InGroup(funcs[n], Statics)) ==> |Collection(funcs, invokeIndex, Statics, n + 1)| == k)
      && (funcs[n].included && InGroup(funcs[n], Statics) ==>
            && k < |statics| && |Collection(funcs, invokeIndex, Statics, n + 1)| == k + 1 && IsStatic(funcs[n])
            && var f, tr1 := funcs[n], tr + [Call(funcs[n].id, GetAll(w, down, funcs[n].inputs))];
               var down1 := Interp.Bind(down, f.outputs, Results(w, f.id, tr1, |f.outputs|));
               && StaticFrom(w, statics, k, down, tr) == (
                    if StaticFails(w, f, tr1)
                    then StaticOutcome(Zeroed(w, down1, WithSkips(funcs, invokeIndex, n).skips), true, tr1)
                    else StaticFrom(w, statics, k + 1, down1, tr1))
               && (StaticInputsSet(w, statics, k, down, tr) <==>
                     (forall t :: t in f.inputs ==> t in down)
                     && (StaticFails(w, f, tr1) || StaticInputsSet(w, statics, k + 1, down1, tr1))))
  {
    hide Collection, WithSkips, IsStatic, Zeroed, Phases;
    PhasesAre(funcs, invokeIndex, invoke);
    StaticsAreStatic(funcs, invokeIndex, invoke, |funcs|);
    CollectionGrows(funcs, invokeIndex, Statics, n, |funcs|);
    CollectionGrows(funcs, invokeIndex, Statics, n + 1, |funcs|);
    OneMoreCollected(funcs, invokeIndex, Statics, n);
    if funcs[n].included && InGroup(funcs[n], Statics) {
      AtPosition(funcs, invokeIndex, Statics, n, |funcs|);
      SkipsChangeLittle(w, funcs, invokeIndex, n, tr + [Call(funcs[n].id, GetAll(w, down, funcs[n].inputs))]);
    }
  }

  lemma {:induction false} CollectionGrows(funcs: seq<Func>, invokeIndex: nat, g: Group, n: nat, m: nat)
    requires n <= m <= |funcs| && invokeIndex <= |funcs|
    ensures |Collection(funcs, invokeIndex, g, n)| <= |Collection(funcs, invokeIndex, g, m)|
  {
    if n < m {
      CollectionGrows(funcs, invokeIndex, g, n, m - 1);
    }
  }

  // From position 'n' of the list on, the static chain reads only what has been set, and leaves what is to
  // be there afterwards.
  lemma {:induction false} StaticsReadSet(w: World, funcs: seq<Func>, invokeIndex: nat, invoke: nat, n: nat, down: Flow,
                                          tr: Trace)
    requires Phases(funcs, invokeIndex, invoke) && n <= |funcs| && SetAt(funcs, n, down)
    ensures
      var statics, k := Collection(funcs, invokeIndex, Statics, |funcs|), |Collection(funcs, invokeIndex, Statics, n)|;
      && (forall i :: 0 <= i < |statics| ==> IsStatic(statics[i])) && k <= |statics|
      && (StaticsSupplied(funcs) ==> StaticInputsSet(w, statics, k, down, tr))
      && forall t :: BaseSet(funcs, invokeIndex, t) ==> t in StaticFrom(w, statics, k, down, tr).down
    decreases |funcs| - n
  {
    hide *;
    PhasesAre(funcs, invokeIndex, invoke);
    if n == |funcs| {
      StaticsAreStatic(funcs, invokeIndex, invoke, n);
      StaticsOver(w, funcs, invokeIndex, down, tr);
    } else {
      StaticTurn(w, funcs, invokeIndex, invoke, n, down, tr);
      var f, tr1 := funcs[n], tr + [Call(funcs[n].id, GetAll(w, down, funcs[n].inputs))];
      SetAtNext(funcs, n, down, Results(w, f.id, tr1, |f.outputs|));
      if f.included && InGroup(f, Statics) {
        SuppliedAt(funcs, n, down);
        var down1 := Interp.Bind(down, f.outputs, Results(w, f.id, tr1, |f.outputs|));
        StaticsReadSet(w, funcs, invokeIndex, invoke, n + 1, down1, tr1);
        if StaticFails(w, f, tr1) {
          FailureLeavesSet(w, funcs, invokeIndex, n, tr1, down1);
        }
      } else {
        StaticsReadSet(w, funcs, invokeIndex, invoke, n + 1, down, tr);
      }
    }
  }

  lemma StaticsOver(w: World, funcs: seq<Func>, invokeIndex: nat, down: Flow, tr: Trace)
    requires invokeIndex <= |funcs| && SetAt(funcs, |funcs|, down)
    requires
      var statics := Collection(funcs, invokeIndex, Statics, |funcs|);
      forall i :: 0 <= i < |statics| ==> IsStatic(statics[i])
    ensures
      var statics := Collection(funcs, invokeIndex, Statics, |funcs|);
      && StaticInputsSet(w, statics, |statics|, down, tr)
      && StaticFrom(w, statics, |statics|, down, tr) == StaticOutcome(down, false, tr)
      && forall t :: BaseSet(funcs, invokeIndex, t) ==> t in down
  {
  }

  lemma SuppliedAt(funcs: seq<Func>, n: nat, down: Flow)
    requires n < |funcs| && funcs[n].included && InGroup(funcs[n], Statics) && SetAt(funcs, n, down)
    ensures StaticsSupplied(funcs) ==> forall t :: t in funcs[n].inputs ==> t in down
  {
  }

  lemma FailureLeavesSet(w: World, funcs: seq<Func>, invokeIndex: nat, n: nat, tr: Trace, down: Flow)
    requires n < |funcs| && invokeIndex <= |funcs| && SetAt(funcs, n + 1, down)
    requires funcs[n].included && IsStatic(funcs[n]) && StaticFails(w, funcs[n], tr)
    ensures forall t :: BaseSet(funcs, invokeIndex, t) ==> t in Zeroed(w, down, WithSkips(funcs, invokeIndex, n).skips)
  {
    forall t | BaseSet(funcs, invokeIndex, t) ensures t in Zeroed(w, down, WithSkips(funcs, invokeIndex, n).skips) {
      if t !in down {
        var i: nat :| i < |funcs| && funcs[i].included && t in funcs[i].outputs;
        SkipsAre(funcs, invokeIndex, n, i, t);
      }
    }
  }

  // The world in which nobody fails but one provider, if any.
  function Failing(id: Option<nat>): World {
    World(_ => 0, x => x == 0, (i, _, _) => if Some(i) == id then 1 else 0, (_, _) => true, (_, _, _) => 0, (_, _) => 1)
  }

  lemma FailingFails(funcs: seq<Func>, k: Option<nat>, n: nat, tr: Trace)
    requires DistinctIds(funcs) && (k.Some? ==> k.value < |funcs|) && n < |funcs| && IsStatic(funcs[n])
    ensures StaticFails(Failing(if k.Some? then Some(funcs[k.value].id) else None), funcs[n], tr) <==>
              funcs[n].kind.StaticFallible? && k == Some(n)
  {
    if k.Some? && k.value != n {
      assert k.value < n || n < k.value;
    }
  }

  // In that world the static chain ends at that provider, and leaves unset what has not been set by then,
  // unless it is zeroed.
  lemma {:induction false} LeftUnset(funcs: seq<Func>, invokeIndex: nat, invoke: nat, k: Option<nat>, n: nat,
                                     down: Flow, tr: Trace, t: TypeCode)
    requires Phases(funcs, invokeIndex, invoke) && DistinctIds(funcs) && n <= |funcs| && SetAt(funcs, n, down)
    requires k.Some? ==> n <= k.value < |funcs| && funcs[k.value].included && funcs[k.value].kind.StaticFallible?
    requires !FromStart(funcs, t) && !StaticSends(funcs, if k.Some? then k.value + 1 else |funcs|, t)
    requires k.Some? ==> !SentBetween(funcs, k.value + 1, invokeIndex, t)
    ensures
      var statics, m := Collection(funcs, invokeIndex, Statics, |funcs|), |Collection(funcs, invokeIndex, Statics, n)|;
      && (forall i :: 0 <= i < |statics| ==> IsStatic(statics[i])) && m <= |statics|
      && t !in StaticFrom(Failing(if k.Some? then Some(funcs[k.value].id) else None), statics, m, down, tr).down
    decreases |funcs| - n
  {
    hide *;
    PhasesAre(funcs, invokeIndex, invoke);
    var w := Failing(if k.Some? then Some(funcs[k.value].id) else None);
    if n == |funcs| {
      StaticsAreStatic(funcs, invokeIndex, invoke, n);
      StaticsOver(w, funcs, invokeIndex, down, tr);
      SetAtMeans(funcs, n, down, t);
    } else {
      StaticTurn(w, funcs, invokeIndex, invoke, n, down, tr);
      var f, tr1 := funcs[n], tr + [Call(funcs[n].id, GetAll(w, down, funcs[n].inputs))];
      SetAtNext(funcs, n, down, Results(w, f.id, tr1, |f.outputs|));
      if f.included && InGroup(f, Statics) {
        FailingFails(funcs, k, n, tr1);
        var down1 := Interp.Bind(down, f.outputs, Results(w, f.id, tr1, |f.outputs|));
        if StaticFails(w, f, tr1) {
          SetAtMeans(funcs, n + 1, down1, t);
          SkipsMean(funcs, invokeIndex, n, t);
          ZeroedKeys(w, down1, WithSkips(funcs, invokeIndex, n).skips, t);
        } else {
          FallibleIsStatic(funcs, k);
          LeftUnset(funcs, invokeIndex, invoke, k, n + 1, down1, tr1, t);
        }
      } else {
        FallibleIsStatic(funcs, k);
        LeftUnset(funcs, invokeIndex, invoke, k, n + 1, down, tr, t);
      }
    }
  }

  lemma SetAtMeans(funcs: seq<Func>, n: nat, down: Flow, t: TypeCode)
    requires SetAt(funcs, n, down)
    ensures t in down <==> FromStart(funcs, t) || StaticSends(funcs, n, t)
  {
  }

  lemma SkipsMean(funcs: seq<Func>, invokeIndex: nat, n: nat, t: TypeCode)
    requires n < |funcs| && invokeIndex <= |funcs| && InGroup(funcs[n], Statics)
    ensures t in WithSkips(funcs, invokeIndex, n).skips ==> SentBetween(funcs, n + 1, invokeIndex, t)
  {
  }

  lemma ZeroedKeys(w: World, down: Flow, skips: set<TypeCode>, t: TypeCode)
    ensures t in Zeroed(w, down, skips) <==> t in down || t in skips
  {
  }

  lemma FallibleIsStatic(funcs: seq<Func>, k: Option<nat>)
    ensures k.Some? && k.value < |funcs| && funcs[k.value].kind.StaticFallible? ==> InGroup(funcs[k.value], Statics)
  {
  }

  // Whoever of the static chain lacks an input reads it unset.
  lemma {:induction false} StaticLackingIsRead(funcs: seq<Func>, invokeIndex: nat, invoke: nat, j: nat, t: TypeCode,
                                               n: nat, down: Flow, tr: Trace)
    requires Phases(funcs, invokeIndex, invoke) && DistinctIds(funcs) && n <= j < |funcs| && SetAt(funcs, n, down)
    requires funcs[j].included && InGroup(funcs[j], Statics) && t in funcs[j].inputs
    requires !FromStart(funcs, t) && !StaticSends(funcs, j, t)
    ensures
      var statics, m := Collection(funcs, invokeIndex, Statics, |funcs|), |Collection(funcs, invokeIndex, Statics, n)|;
      && (forall i :: 0 <= i < |statics| ==> IsStatic(statics[i])) && m <= |statics|
      && !StaticInputsSet(Failing(None), statics, m, down, tr)
    decreases |funcs| - n
  {
    hide *;
    var w := Failing(None);
    StaticTurn(w, funcs, invokeIndex, invoke, n, down, tr);
    var f, tr1 := funcs[n], tr + [Call(funcs[n].id, GetAll(w, down, funcs[n].inputs))];
    SetAtNext(funcs, n, down, Results(w, f.id, tr1, |f.outputs|));
    if n == j {
      SetAtMeans(funcs, n, down, t);
    } else if f.included && InGroup(f, Statics) {
      FailingFails(funcs, None, n, tr1);
      StaticLackingIsRead(funcs, invokeIndex, invoke, j, t, n + 1,
                          Interp.Bind(down, f.outputs, Results(w, f.id, tr1, |f.outputs|)), tr1);
    } else {
      StaticLackingIsRead(funcs, invokeIndex, invoke, j, t, n + 1, down, tr);
    }
  }

  // In the world 'w', whatever is read when the static chain and then the run chain are run has been set,
  // and so have the results of the invoke function.
  ghost predicate RunReadsSet(w: World, p: Plan, start: Flow, inputs: seq<Value>, tr: Trace)
    requires PlanOk(p) && |inputs| == |p.invokeF.outputs|
  {
    var o := StaticFrom(w, p.statics, 0, start, tr);
    var down := Interp.Bind(o.down, p.invokeF.outputs, inputs);
    && StaticInputsSet(w, p.statics, 0, start, tr)
    && ReadsSet(w, p.chain, 0, down, o.trace)
    && forall t :: t in p.invokeF.received ==> t in RunFrom(AsCoded, w, p.chain, 0, down, o.trace).up
  }

  lemma UnsafeRun(p: Plan, start: Flow, inputs: seq<Value>, once: bool)
    requires PlanOk(p) && |inputs| == |p.invokeF.outputs| && DistinctIds(p.chain)
    requires !(ReceivedSafe(p.chain, once) && forall t :: t in p.invokeF.received ==> Safe(p.chain, 0, t, once))
    ensures exists w, tr :: Limited(w, p.chain, once) && !RunReadsSet(w, p, start, inputs, tr)
  {
    var tr: Trace := [];
    if !ReceivedSafe(p.chain, once) {
      var j: nat, t :|
        j < |p.chain| && p.chain[j].kind.Wrapper? && t in p.chain[j].received && !Safe(p.chain, j + 1, t, once);
      var w := Worst(p.chain, j + 1, t, once);
      WorstIsLimited(p.chain, j + 1, t, once);
      var o := StaticFrom(w, p.statics, 0, start, tr);
      UnsafeIsRead(p.chain, j, t, once, 0, Interp.Bind(o.down, p.invokeF.outputs, inputs), o.trace);
      assert !RunReadsSet(w, p, start, inputs, tr);
    } else {
      var t :| t in p.invokeF.received && !Safe(p.chain, 0, t, once);
      var w := Worst(p.chain, 0, t, once);
      WorstIsLimited(p.chain, 0, t, once);
      var o := StaticFrom(w, p.statics, 0, start, tr);
      UnsafeIsUnset(p.chain, 0, t, once, 0, Interp.Bind(o.down, p.invokeF.outputs, inputs), o.trace);
      assert !RunReadsSet(w, p, start, inputs, tr);
    }
  }

  lemma PlanIsOk(funcs: seq<Func>, invokeIndex: nat, invoke: nat, init: Option<nat>)
    requires Prepared(funcs, invokeIndex, invoke, init)
    ensures invokeIndex <= |funcs| && invoke < |funcs| && (init.Some? ==> init.value < |funcs|)
    ensures PlanOk(PlanFor(funcs, invokeIndex, invoke, init))
  {
    RunsAreAChain(funcs, invokeIndex, invoke);
    StaticsAreStatic(funcs, invokeIndex, invoke, |funcs|);
  }

  // In every run, of the static chain and then of the run chain, all that is read has been set, and so have
  // the results of the invoke function: exactly if everybody is supplied, and what is received is safe.
  lemma NothingIsReadUnsetExactlyIf(funcs: seq<Func>, invokeIndex: nat, invoke: nat, init: Option<nat>,
                                    initInputs: seq<Value>, inputs: seq<Value>, once: bool)
    requires Prepared(funcs, invokeIndex, invoke, init) && DistinctIds(funcs)
    requires init.Some? ==> |initInputs| == |funcs[init.value].outputs|
    requires |inputs| == |funcs[invoke].outputs|
    ensures invokeIndex <= |funcs| && forall i: nat :: i < |funcs| && funcs[i].kind.Literal? ==> funcs[i].outputs != []
    ensures PlanOk(PlanFor(funcs, invokeIndex, invoke, init))
    ensures
      var p, start := PlanFor(funcs, invokeIndex, invoke, init), StartOf(funcs, init, initInputs);
      (forall w, tr :: Limited(w, p.chain, once) ==> RunReadsSet(w, p, start, inputs, tr)) <==>
        && StaticsSupplied(funcs) && RunsSupplied(funcs, invokeIndex, invoke)
        && ReceivedSafe(p.chain, once) && forall t :: t in p.invokeF.received ==> Safe(p.chain, 0, t, once)
  {
    hide *;
    SetAtStart(funcs, invokeIndex, invoke, init, initInputs);
    PlanIsOk(funcs, invokeIndex, invoke, init);
    PreparedIsPhased(funcs, invokeIndex, invoke, init);
    var p, start := PlanFor(funcs, invokeIndex, invoke, init), StartOf(funcs, init, initInputs);
    PlanParts(funcs, invokeIndex, invoke, init);
    ChainStarts(p);
    var safe := ReceivedSafe(p.chain, once) && forall t :: t in p.invokeF.received ==> Safe(p.chain, 0, t, once);
    if !StaticsSupplied(funcs) {
      StaticUnset(funcs, invokeIndex, invoke, init, start, inputs, once);
    } else if !RunsSupplied(funcs, invokeIndex, invoke) {
      RunUnset(funcs, invokeIndex, invoke, init, start, inputs, once);
    } else if !safe {
      ChainIdsDistinct(funcs, invokeIndex, invoke);
      UnsafeRun(p, start, inputs, once);
    } else {
      forall w, tr | Limited(w, p.chain, once) ensures RunReadsSet(w, p, start, inputs, tr) {
        SafeRunsReadSet(w, funcs, invokeIndex, invoke, init, start, inputs, once, tr);
      }
    }
  }

  lemma ChainStarts(p: Plan)
    requires PlanOk(p)
    ensures RunChain(p.chain) && 0 < |p.chain|
  {
  }

  lemma PreparedIsPhased(funcs: seq<Func>, invokeIndex: nat, invoke: nat, init: Option<nat>)
    requires Prepared(funcs, invokeIndex, invoke, init)
    ensures Phases(funcs, invokeIndex, invoke) && InitOk(funcs, invokeIndex, init)
  {
  }

  lemma PlanParts(funcs: seq<Func>, invokeIndex: nat, invoke: nat, init: Option<nat>)
    requires invokeIndex <= |funcs| && invoke < |funcs| && (init.Some? ==> init.value < |funcs|)
    ensures
      var p := PlanFor(funcs, invokeIndex, invoke, init);
      && p.statics == Collection(funcs, invokeIndex, Statics, |funcs|) && p.chain == ChainOf(funcs, invokeIndex)
      && p.invokeF == funcs[invoke] && Collection(funcs, invokeIndex, Statics, 0) == []
  {
  }

  lemma SafeRunsReadSet(w: World, funcs: seq<Func>, invokeIndex: nat, invoke: nat, init: Option<nat>,
                        start: Flow, inputs: seq<Value>, once: bool, tr: Trace)
    requires Prepared(funcs, invokeIndex, invoke, init) && |inputs| == |funcs[invoke].outputs|
    requires SetAt(funcs, 0, start) && PlanOk(PlanFor(funcs, invokeIndex, invoke, init))
    requires StaticsSupplied(funcs) && RunsSupplied(funcs, invokeIndex, invoke)
    requires Limited(w, ChainOf(funcs, invokeIndex), once) && ReceivedSafe(ChainOf(funcs, invokeIndex), once)
    requires forall t :: t in funcs[invoke].received ==> Safe(ChainOf(funcs, invokeIndex), 0, t, once)
    ensures RunReadsSet(w, PlanFor(funcs, invokeIndex, invoke, init), start, inputs, tr)
  {
    hide Prepared, Phases, InitOk, Collection, ChainOf, ReadsSet, StaticInputsSet, ReceivedSafe, Limited, Supplied,
         BaseSet, StaticsSupplied, RunsSupplied;
    PreparedIsPhased(funcs, invokeIndex, invoke, init);
    PlanParts(funcs, invokeIndex, invoke, init);
    var p := PlanFor(funcs, invokeIndex, invoke, init);
    StaticsReadSet(w, funcs, invokeIndex, invoke, 0, start, tr);
    var o := StaticFrom(w, p.statics, 0, start, tr);
    var down := Interp.Bind(o.down, p.invokeF.outputs, inputs);
    BindKeys(o.down, p.invokeF.outputs, inputs);
    SuppliedFrom(funcs, invokeIndex, invoke, down);
    EverythingSet(w, p.chain, 0, once, down, o.trace);
    forall t | t in p.invokeF.received ensures t in RunFrom(AsCoded, w, p.chain, 0, down, o.trace).up {
      SafeIsSet(w, p.chain, 0, t, once, down, o.trace);
    }
  }

  lemma SuppliedFrom(funcs: seq<Func>, invokeIndex: nat, invoke: nat, down: Flow)
    requires invokeIndex <= |funcs| && invoke < |funcs| && RunsSupplied(funcs, invokeIndex, invoke)
    requires forall t :: BaseSet(funcs, invokeIndex, t) || t in funcs[invoke].outputs ==> t in down
    ensures Supplied(ChainOf(funcs, invokeIndex), 0, down)
  {
    hide BaseSet, ChainOf;
  }

  lemma StaticUnset(funcs: seq<Func>, invokeIndex: nat, invoke: nat, init: Option<nat>, start: Flow, inputs: seq<Value>,
                    once: bool)
    requires Prepared(funcs, invokeIndex, invoke, init) && DistinctIds(funcs) && |inputs| == |funcs[invoke].outputs|
    requires SetAt(funcs, 0, start) && PlanOk(PlanFor(funcs, invokeIndex, invoke, init)) && !StaticsSupplied(funcs)
    ensures
      var p := PlanFor(funcs, invokeIndex, invoke, init);
      exists w, tr :: Limited(w, p.chain, once) && !RunReadsSet(w, p, start, inputs, tr)
  {
    hide Prepared, Phases, InitOk, Collection, ChainOf, ReadsSet, StaticInputsSet, FromStart, StaticSends;
    PreparedIsPhased(funcs, invokeIndex, invoke, init);
    PlanParts(funcs, invokeIndex, invoke, init);
    var p, tr := PlanFor(funcs, invokeIndex, invoke, init), [];
    var k: nat, t :| k < |funcs| && funcs[k].included && InGroup(funcs[k], Statics) && t in funcs[k].inputs
                     && !FromStart(funcs, t) && !StaticSends(funcs, k, t);
    StaticLackingIsRead(funcs, invokeIndex, invoke, k, t, 0, start, tr);
    FailingIsLimited(None, p.chain, once);
    assert !RunReadsSet(Failing(None), p, start, inputs, tr);
  }

  lemma FailingIsLimited(id: Option<nat>, chain: seq<Func>, once: bool)
    ensures Limited(Failing(id), chain, once)
  {
  }

  lemma RunUnset(funcs: seq<Func>, invokeIndex: nat, invoke: nat, init: Option<nat>, start: Flow, inputs: seq<Value>,
                 once: bool)
    requires Prepared(funcs, invokeIndex, invoke, init) && DistinctIds(funcs) && |inputs| == |funcs[invoke].outputs|
    requires SetAt(funcs, 0, start) && PlanOk(PlanFor(funcs, invokeIndex, invoke, init))
    requires !RunsSupplied(funcs, invokeIndex, invoke)
    ensures
      var p := PlanFor(funcs, invokeIndex, invoke, init);
      exists w, tr :: Limited(w, p.chain, once) && !RunReadsSet(w, p, start, inputs, tr)
  {
    hide Prepared, Phases, InitOk, Collection, ChainOf, ReadsSet, StaticInputsSet, BaseSet, StaticFrom;
    PreparedIsPhased(funcs, invokeIndex, invoke, init);
    PlanParts(funcs, invokeIndex, invoke, init);
    var p, tr := PlanFor(funcs, invokeIndex, invoke, init), [];
    var j, t :| 0 <= j < |p.chain| && t in p.chain[j].inputs && !BaseSet(funcs, invokeIndex, t)
                && t !in funcs[invoke].outputs && forall i :: 0 <= i < j ==> t !in p.chain[i].outputs;
    var k := LeavesUnset(funcs, invokeIndex, t);
    var id := if k.Some? then Some(funcs[k.value].id) else None;
    LeftUnset(funcs, invokeIndex, invoke, k, 0, start, tr, t);
    var o := StaticFrom(Failing(id), p.statics, 0, start, tr);
    BindKeys(o.down, p.invokeF.outputs, inputs);
    FailingGoesOn(funcs, invokeIndex, invoke, k);
    LackingIsRead(Failing(id), p.chain, j, t, 0, Interp.Bind(o.down, p.invokeF.outputs, inputs), o.trace);
    FailingIsLimited(id, p.chain, once);
    assert !RunReadsSet(Failing(id), p, start, inputs, tr);
  }

  // Whose failure, if any, leaves the type unset.
  lemma LeavesUnset(funcs: seq<Func>, invokeIndex: nat, t: TypeCode) returns (k: Option<nat>)
    requires invokeIndex <= |funcs| && !BaseSet(funcs, invokeIndex, t)
    ensures k.Some? ==> k.value < |funcs| && funcs[k.value].included && funcs[k.value].kind.StaticFallible?
    ensures !FromStart(funcs, t) && !StaticSends(funcs, if k.Some? then k.value + 1 else |funcs|, t)
    ensures k.Some? ==> !SentBetween(funcs, k.value + 1, invokeIndex, t)
  {
    k := None;
    if StaticSends(funcs, |funcs|, t) {
      var i: nat :| i < |funcs| && funcs[i].included && funcs[i].kind.StaticFallible?
                    && !StaticSends(funcs, i + 1, t) && !SentBetween(funcs, i + 1, invokeIndex, t);
      k := Some(i);
    }
  }

  // The failure of a static provider stops nobody of the run chain.
  lemma FailingGoesOn(funcs: seq<Func>, invokeIndex: nat, invoke: nat, k: Option<nat>)
    requires Phases(funcs, invokeIndex, invoke) && DistinctIds(funcs)
    requires k.Some? ==> k.value < |funcs| && funcs[k.value].kind.StaticFallible?
    ensures invokeIndex <= |funcs|
    ensures GoesOn(Failing(if k.Some? then Some(funcs[k.value].id) else None), ChainOf(funcs, invokeIndex))
  {
    var at, last := ChainOrigins(funcs, invokeIndex, invoke);
    var chain, w := ChainOf(funcs, invokeIndex), Failing(if k.Some? then Some(funcs[k.value].id) else None);
    forall i: nat, tr | i < |chain| && IsInjector(chain[i]) ensures !Fails(w, chain[i], tr) {
      assert chain[i].id == funcs[at[i]].id && chain[i].kind == funcs[at[i]].kind;
      if k.Some? {
        assert at[i] != k.value && (at[i] < k.value || k.value < at[i]);
      }
    }
  }

  // A type is there after the static chain in every run, failing ones included, for the results of the init
  // function as for the run chain, exactly under this condition.
  lemma BaseSetExactlyIf(funcs: seq<Func>, invokeIndex: nat, invoke: nat, init: Option<nat>, initInputs: seq<Value>,
                         t: TypeCode)
    requires Prepared(funcs, invokeIndex, invoke, init) && DistinctIds(funcs)
    requires init.Some? ==> |initInputs| == |funcs[init.value].outputs|
    ensures invokeIndex <= |funcs| && forall i: nat :: i < |funcs| && funcs[i].kind.Literal? ==> funcs[i].outputs != []
    ensures PlanOk(PlanFor(funcs, invokeIndex, invoke, init))
    ensures
      var statics, start := PlanFor(funcs, invokeIndex, invoke, init).statics, StartOf(funcs, init, initInputs);
      (forall w, tr :: t in StaticFrom(w, statics, 0, start, tr).down) <==> BaseSet(funcs, invokeIndex, t)
  {
    hide *;
    SetAtStart(funcs, invokeIndex, invoke, init, initInputs);
    PlanIsOk(funcs, invokeIndex, invoke, init);
    PreparedIsPhased(funcs, invokeIndex, invoke, init);
    PlanParts(funcs, invokeIndex, invoke, init);
    var statics, start := PlanFor(funcs, invokeIndex, invoke, init).statics, StartOf(funcs, init, initInputs);
    if BaseSet(funcs, invokeIndex, t) {
      forall w, tr ensures t in StaticFrom(w, statics, 0, start, tr).down {
        StaticsReadSet(w, funcs, invokeIndex, invoke, 0, start, tr);
      }
    } else {
      var k := LeavesUnset(funcs, invokeIndex, t);
      LeftUnset(funcs, invokeIndex, invoke, k, 0, start, [], t);
    }
  }

  // An init function whose result is never set: [sender, init, invoke, final], where the sender belongs to the
  // run phase.  It stands before 'invokeIndex', so that there is a place for what it sends.
  const UNSET: seq<Func> := [
    Func(0, Injector, true, [], [WANTED], [], [], {}), Func(1, Init, true, [], [], [], [WANTED], {}),
    Func(2, Invoke, true, [], [], [], [], {}), Func(3, Final, true, [], [], [], [], {})]

  const UNSET_CHAIN: FlowGraph.Chain := FlowGraph.Chain(
    [Plain([WANTED], [], false), Plain([], [WANTED], false), Plain([], [], true), Plain([], [], false)], Some(1), 2, {})

  lemma InitReturnsUnset()
    ensures Chosen(UNSET_CHAIN, {0, 1, 2, 3}, UNSET, 1) && FlowGraph.Consistent(UNSET_CHAIN, {0, 1, 2, 3})
    ensures !InitStarved(UNSET, 1, Some(1)) && WANTED in UNSET[1].received && !BaseSet(UNSET, 1, WANTED)
  {
    var c, s := UNSET_CHAIN, {0, 1, 2, 3};
    assert OneFinal(UNSET, 3);
    assert FlowGraph.Supplies(c, 0, 1, FlowGraph.Bypass, WANTED);
    forall i | i in s ensures FlowGraph.LocallyConsistent(c, s, i) {
      if i == 1 {
        assert FlowGraph.SourcedIn(c, s, 1, FlowGraph.Bypass, WANTED);
      }
    }
    assert WANTED in UNSET[0].outputs;
    assert SentBetween(UNSET, 0, 1, WANTED);
  }

  // ------------------------------------------------------------------ Errors, and what comes up

  // After the failure of static provider 'n' its error can be read, and is what the init function
  // returns if it returns errors, exactly if no later entry before 'invokeIndex' sends an error,
  // included or not.
  lemma FailureIsReported(w: World, funcs: seq<Func>, invokeIndex: nat, invoke: nat, n: nat, down: Flow, tr: Trace)
    requires Phases(funcs, invokeIndex, invoke) && n < |funcs|
    requires funcs[n].included && InGroup(funcs[n], Statics) && w.isNil(w.zero(ERROR)) && IsStatic(funcs[n])
    requires StaticFails(w, funcs[n], tr + [Call(funcs[n].id, GetAll(w, down, funcs[n].inputs))])
    requires forall i :: funcs[n].kind.errorIndex < i < |funcs[n].outputs| ==> funcs[n].outputs[i] != ERROR
    ensures
      var statics, k := Collection(funcs, invokeIndex, Statics, |funcs|), |Collection(funcs, invokeIndex, Statics, n)|;
      && k < |statics| && (forall i :: 0 <= i < |statics| ==> IsStatic(statics[i]))
      && var f, tr1 := funcs[n], tr + [Call(funcs[n].id, GetAll(w, down, funcs[n].inputs))];
         var err := Results(w, f.id, tr1, |f.outputs|)[f.kind.errorIndex];
         Get(w, StaticFrom(w, statics, k, down, tr).down, ERROR) == err <==>
             !SentBetween(funcs, n + 1, invokeIndex, ERROR)
  {
    hide Collection, WithSkips;
    var statics, k := Collection(funcs, invokeIndex, Statics, |funcs|), |Collection(funcs, invokeIndex, Statics, n)|;
    StaticsAreStatic(funcs, invokeIndex, invoke, |funcs|);
    AtPosition(funcs, invokeIndex, Statics, n, |funcs|);
    SkipsChangeLittle(w, funcs, invokeIndex, n, tr + [Call(funcs[n].id, GetAll(w, down, funcs[n].inputs))]);
    assert ERROR in Flows(funcs[n]);
    SkipsAre(funcs, invokeIndex, n, n, ERROR);
    ErrorAfterFailure(w, statics, k, down, tr);
  }

  // A static phase that loses its error: a later provider that sends errors has not even been included.
  const FAILING: World := World(_ => 0, x => x == 0, (_, _, _) => 7, (_, _) => true, (_, _, _) => 0, (_, _) => 1)
  const LOSING: seq<Func> := [
    Func(0, StaticFallible(0), true, [], [ERROR], [], [], {}), Func(1, StaticInjector, false, [], [ERROR], [], [], {})]

  lemma FailureIsLost()
    ensures
      var statics := Collection(LOSING, 2, Statics, 2);
      && |statics| == 1 && IsStatic(statics[0]) && StaticFrom(FAILING, statics, 0, map[], []).failed
      && Get(FAILING, StaticFrom(FAILING, statics, 0, map[], []).down, ERROR) == 0
  {
    assert LOSING[0].included && !LOSING[1].included;
    assert Collection(LOSING, 2, Statics, 0) == [];
    AtPosition(LOSING, 2, Statics, 0, 1);
    assert Collection(LOSING, 2, Statics, 2) == Collection(LOSING, 2, Statics, 1);
    var f := WithSkips(LOSING, 2, 0);
    assert ERROR in Flows(LOSING[0]) && ERROR in LOSING[1].outputs;
    SkipsAre(LOSING, 2, 0, 0, ERROR);
    assert Collection(LOSING, 2, Statics, 2) == [f];
    var tr1 := [] + [Call(0, GetAll(FAILING, map[], []))];
    assert StaticFails(FAILING, f, tr1);
  }

  // If nobody included is marked Parallel and nobody calls inner() twice, a type is safe exactly if some
  // wrapper or the final function returns it, and everybody before that who may skip it zeroes it: those
  // that stand behind 'invokeIndex' and have somebody behind them in the list, included or not, that returns it.
  lemma SafeInPlainChains(funcs: seq<Func>, invokeIndex: nat, invoke: nat, i: nat, t: TypeCode)
    returns (at: seq<nat>, last: nat)
    requires Phases(funcs, invokeIndex, invoke)
    requires forall k: nat :: k < |funcs| && funcs[k].included ==> funcs[k].kind != Wrapper(true)
    ensures invokeIndex <= |funcs| && RunChain(ChainOf(funcs, invokeIndex)) && MadeFrom(funcs, invokeIndex, at, last)
    ensures i < |at| ==>
              (Safe(ChainOf(funcs, invokeIndex), i, t, true) <==>
                 exists r: nat :: ComesBack(funcs, invokeIndex, at, i, r, t))
  {
    RunsAreAChain(funcs, invokeIndex, invoke);
    at, last := ChainOrigins(funcs, invokeIndex, invoke);
    var chain := ChainOf(funcs, invokeIndex);
    forall k: nat | k < |chain| ensures chain[k].kind != Wrapper(true) {
      assert funcs[at[k]].included;
    }
    if i < |chain| {
      SafeExactlyIfReturned(chain, i, t);
      forall r: nat ensures ReturnedOver(chain, i, r, t) <==> ComesBack(funcs, invokeIndex, at, i, r, t) {
        SkippedOnTheWay(funcs, invokeIndex, at, last, i, r, t);
      }
    }
  }

  ghost predicate ComesBack(funcs: seq<Func>, invokeIndex: nat, at: seq<nat>, i: nat, r: nat, t: TypeCode) {
    && i <= r < |at| && (forall k :: 0 <= k < |at| ==> at[k] < |funcs|) && Returns(funcs[at[r]], t)
    && forall j :: i <= j < r && !funcs[at[j]].kind.Injector? ==>
         || (invokeIndex <= at[j] && ReturnedFrom(funcs, at[j], t))
         || (funcs[at[j]].kind.Fallible? && t == ERROR)
  }

  lemma SkippedOnTheWay(funcs: seq<Func>, invokeIndex: nat, at: seq<nat>, last: nat, i: nat, r: nat, t: TypeCode)
    requires invokeIndex <= |funcs| && MadeFrom(funcs, invokeIndex, at, last)
    ensures ReturnedOver(ChainOf(funcs, invokeIndex), i, r, t) <==> ComesBack(funcs, invokeIndex, at, i, r, t)
  {
    var chain := ChainOf(funcs, invokeIndex);
    if r < |at| && Returns(funcs[at[r]], t) {
      assert chain[r] == WithSkips(funcs, invokeIndex, at[r]);
      forall j | 0 <= j < |at| && j < r
        ensures t in chain[j].skips <==> invokeIndex <= at[j] && ReturnedFrom(funcs, at[j], t)
      {
        assert j < |at| - 1 && InGroup(funcs[at[j]], Runs);
        assert t in Flows(funcs[at[r]]);
        SkipsAre(funcs, invokeIndex, at[j], at[r], t);
      }
    }
  }

  // A chain whose caller wants an error that only a fallible injector returns: unless that fails,
  // nobody sets it.
  const CHECKING: Func := Func(0, Fallible(0), true, [], [], [ERROR], [], {ERROR})
  const SILENT: Func := Func(1, Final, true, [], [], [], [], {})

  lemma ErrorOnlyOnFailure()
    ensures RunChain([CHECKING, SILENT]) && !Safe([CHECKING, SILENT], 0, ERROR, true)
    ensures Returned([CHECKING, SILENT], 0, ERROR)
  {
    assert [CHECKING, SILENT][0] == CHECKING && [CHECKING, SILENT][1] == SILENT;
  }

  ghost predicate Returned(chain: seq<Func>, i: nat, t: TypeCode) {
    exists j: nat :: i <= j < |chain| && t in chain[j].returned
  }
}
