/**
 The check of shadowing.go as binding calls it: on the whole list, with the providers that have not been included.
 */
module ShadowingList {
  import opened Basics
  import opened Interp
  import FlowGraph
  import opened Reads
  import opened Binder
  import opened Supply
  import opened Shadowing

  // Nothing has been marked Parallel, and every provider is somebody else.
  ghost predicate Ordinary(funcs: seq<Func>) {
    DistinctIds(funcs) && forall i: nat :: i < |funcs| && funcs[i].included ==> funcs[i].kind != Wrapper(true)
  }

  ghost predicate Offends(funcs: seq<Func>, i: nat, k: nat)
    requires i < |funcs| && k < |funcs[i].returned|
  {
    Shadows(funcs, i, k) && !Exempt(funcs[i], {}, funcs[i].returned[k])
  }

  // A type that provider 'i' returns makes the check reject the list for no good reason: one of the two that
  // return it has not been included, or the other is a fallible injector that comes after the final function in
  // the list alone.
  ghost predicate FalseAlarm(funcs: seq<Func>, i: nat, k: nat)
    requires i < |funcs| && k < |funcs[i].returned|
  {
    Offends(funcs, i, k) && (!funcs[i].included || exists j: nat :: Misled(funcs, i, j, funcs[i].returned[k]))
  }

  predicate Misled(funcs: seq<Func>, i: nat, j: nat, t: TypeCode)
    requires i < |funcs|
  {
    && i < j < |funcs| && t in funcs[j].returned && t !in funcs[j].received
    && (!funcs[j].included || (funcs[i].kind.Final? && funcs[j].kind.Fallible?))
  }

  ghost predicate NoFalseAlarm(funcs: seq<Func>) {
    forall i: nat, k: nat :: i < |funcs| && k < |funcs[i].returned| ==> !FalseAlarm(funcs, i, k)
  }

  lemma AcceptedMeans(funcs: seq<Func>)
    ensures Accepted(funcs) <==>
              forall i: nat, k: nat :: i < |funcs| && k < |funcs[i].returned| ==> !Offends(funcs, i, k)
  {
    forall i: nat | i < |funcs|
      ensures ShadowsAllowed(funcs, NoAllowances(|funcs|), i) <==>
                forall k: nat :: k < |funcs[i].returned| ==> !Offends(funcs, i, k)
    {
      hide Shadows, Exempt;
      assert NoAllowances(|funcs|)[i] == {};
      if forall k: nat :: k < |funcs[i].returned| ==> !Offends(funcs, i, k) {
        forall k: nat | k < |funcs[i].returned| && Shadows(funcs, i, k)
          ensures Exempt(funcs[i], {}, funcs[i].returned[k])
        {
          assert !Offends(funcs, i, k);
        }
      }
    }
    hide ShadowsAllowed, Offends;
  }

  // An offence in the run chain is one in the list, of the same provider or of the final function.
  lemma OffenceShows(funcs: seq<Func>, invokeIndex: nat, invoke: nat, at: seq<nat>, last: nat, p: nat, k: nat)
    requires Phases(funcs, invokeIndex, invoke) && MadeFrom(funcs, invokeIndex, at, last)
    requires p < |at| && k < |ChainOf(funcs, invokeIndex)[p].returned|
    requires Offends(ChainOf(funcs, invokeIndex), p, k)
    ensures !Accepted(funcs)
  {
    hide Phases, OneFinal, ChainOf;
    PhasesAre(funcs, invokeIndex, invoke);
    AcceptedMeans(funcs);
    var chain := ChainOf(funcs, invokeIndex);
    ChainIs(funcs, invokeIndex, at, last);
    FinalIs(funcs, invokeIndex, invoke, last);
    var i, t := at[p], chain[p].returned[k];
    if t in chain[p].returned[..k] {
      assert Offends(funcs, i, k);
    } else {
      var q: nat :| p + 1 <= q < |chain| && t in chain[q].returned && t !in chain[q].received;
      if at[p] < at[q] {
        assert Originates(funcs, i + 1, t);
        assert Offends(funcs, i, k);
      } else {
        assert q == |at| - 1 && at[q] == last;
        Reversed(funcs, last, i, t);
      }
    }
  }

  // The final function and somebody after it return the same type.
  lemma Reversed(funcs: seq<Func>, last: nat, i: nat, t: TypeCode)
    requires last < i < |funcs| && funcs[last].kind.Final? && funcs[last].received == [] && t in funcs[last].returned
    requires t in funcs[i].returned && t !in funcs[i].received
    ensures !Accepted(funcs)
  {
    AcceptedMeans(funcs);
    var k: nat :| k < |funcs[last].returned| && funcs[last].returned[k] == t;
    assert Originates(funcs, last + 1, t);
    assert Offends(funcs, last, k);
  }

  lemma ChainIs(funcs: seq<Func>, invokeIndex: nat, at: seq<nat>, last: nat)
    requires invokeIndex <= |funcs| && MadeFrom(funcs, invokeIndex, at, last)
    ensures |at| == |ChainOf(funcs, invokeIndex)| && at != [] && at[|at| - 1] == last
    ensures forall p: nat :: p < |at| ==>
              && at[p] < |funcs| && funcs[at[p]].included
              && ChainOf(funcs, invokeIndex)[p] == funcs[at[p]].(skips := ChainOf(funcs, invokeIndex)[p].skips)
    ensures forall p: nat, q: nat :: p < q < |at| - 1 ==> at[p] < at[q]
    ensures forall p: nat :: p < |at| - 1 ==> at[p] != last && InGroup(funcs[at[p]], Runs)
    ensures forall i: nat :: i < |funcs| && funcs[i].included && InGroup(funcs[i], Runs) ==>
              exists p: nat :: p < |at| - 1 && at[p] == i
  {
    hide ChainOf, OneFinal;
    forall p: nat | p < |at|
      ensures ChainOf(funcs, invokeIndex)[p] == funcs[at[p]].(skips := ChainOf(funcs, invokeIndex)[p].skips)
    {
      assert ChainOf(funcs, invokeIndex)[p] == WithSkips(funcs, invokeIndex, at[p]);
    }
  }

  lemma FinalIs(funcs: seq<Func>, invokeIndex: nat, invoke: nat, last: nat)
    requires Phases(funcs, invokeIndex, invoke) && OneFinal(funcs, last)
    ensures last < |funcs| && funcs[last].kind.Final? && funcs[last].included && funcs[last].received == []
  {
    PhasesAre(funcs, invokeIndex, invoke);
  }

  // Who returns something and has been included is in the run chain.
  lemma ReturnsInRuns(funcs: seq<Func>, invokeIndex: nat, invoke: nat, i: nat, last: nat)
    requires Phases(funcs, invokeIndex, invoke) && i < |funcs| && funcs[i].included && funcs[i].returned != []
    requires OneFinal(funcs, last)
    ensures InGroup(funcs[i], Runs) || i == last
  {
  }

  // An offence in the list that is no false alarm is one in the run chain.
  lemma OffenceIsReal(funcs: seq<Func>, invokeIndex: nat, invoke: nat, at: seq<nat>, last: nat, i: nat, k: nat)
    requires Phases(funcs, invokeIndex, invoke) && MadeFrom(funcs, invokeIndex, at, last)
    requires i < |funcs| && k < |funcs[i].returned| && Offends(funcs, i, k) && !FalseAlarm(funcs, i, k)
    ensures !Accepted(ChainOf(funcs, invokeIndex))
  {
    hide Phases, OneFinal, ChainOf;
    PhasesAre(funcs, invokeIndex, invoke);
    var chain := ChainOf(funcs, invokeIndex);
    AcceptedMeans(chain);
    ChainIs(funcs, invokeIndex, at, last);
    FinalIs(funcs, invokeIndex, invoke, last);
    ReturnsInRuns(funcs, invokeIndex, invoke, i, last);
    var t := funcs[i].returned[k];
    var p := InChain(funcs, invokeIndex, at, last, i);
    if t in funcs[i].returned[..k] {
      assert Offends(chain, p, k);
    } else {
      var j: nat :| i + 1 <= j < |funcs| && t in funcs[j].returned && t !in funcs[j].received;
      assert !Misled(funcs, i, j, t);
      ReturnsInRuns(funcs, invokeIndex, invoke, j, last);
      var q := InChain(funcs, invokeIndex, at, last, j);
      if p < q {
        assert Originates(chain, p + 1, t);
        assert Offends(chain, p, k);
      } else {
        assert p == |at| - 1 && i == last;
        var l: nat :| l < |chain[q].returned| && chain[q].returned[l] == t;
        assert Originates(chain, q + 1, t);
        assert Offends(chain, q, l);
      }
    }
  }

  lemma InChain(funcs: seq<Func>, invokeIndex: nat, at: seq<nat>, last: nat, i: nat) returns (p: nat)
    requires invokeIndex <= |funcs| && MadeFrom(funcs, invokeIndex, at, last)
    requires i < |funcs| && funcs[i].included && (InGroup(funcs[i], Runs) || i == last)
    ensures p < |at| && at[p] == i
  {
    hide ChainOf, OneFinal;
    ChainIs(funcs, invokeIndex, at, last);
    if i == last {
      p := |at| - 1;
    } else {
      p :| p < |at| - 1 && at[p] == i;
    }
  }

  // The check accepts a list exactly if it would accept what is going to run, and there is no false alarm.
  lemma AcceptedExactlyIf(funcs: seq<Func>, invokeIndex: nat, invoke: nat)
    requires Phases(funcs, invokeIndex, invoke)
    ensures invokeIndex <= |funcs|
    ensures Accepted(funcs) <==> Accepted(ChainOf(funcs, invokeIndex)) && NoFalseAlarm(funcs)
  {
    hide Phases, MadeFrom, Offends, ChainOf, Accepted;
    var at, last := ChainOrigins(funcs, invokeIndex, invoke);
    MadeFromLength(funcs, invokeIndex, at, last);
    var chain := ChainOf(funcs, invokeIndex);
    AcceptedMeans(funcs);
    AcceptedMeans(chain);
    if !Accepted(chain) {
      var p: nat, k: nat :| p < |chain| && k < |chain[p].returned| && Offends(chain, p, k);
      OffenceShows(funcs, invokeIndex, invoke, at, last, p, k);
    }
    if !Accepted(funcs) {
      var i: nat, k: nat :| i < |funcs| && k < |funcs[i].returned| && Offends(funcs, i, k);
      if !FalseAlarm(funcs, i, k) {
        OffenceIsReal(funcs, invokeIndex, invoke, at, last, i, k);
      }
    }
  }

  lemma MadeFromLength(funcs: seq<Func>, invokeIndex: nat, at: seq<nat>, last: nat)
    requires invokeIndex <= |funcs| && MadeFrom(funcs, invokeIndex, at, last)
    ensures |at| == |ChainOf(funcs, invokeIndex)|
  {
  }

  // In a self-consistent choice whatever is received is returned further down.
  lemma ChoiceIsShaped(c: FlowGraph.Chain, included: set<nat>, funcs: seq<Func>, invokeIndex: nat)
    requires Chosen(c, included, funcs, invokeIndex) && FlowGraph.Consistent(c, included) && Ordinary(funcs)
    ensures invokeIndex <= |funcs| && Shaped(ChainOf(funcs, invokeIndex))
  {
    hide FlowGraph.Consistent, Phases, MadeFrom, ChainOf;
    RunsAreAChain(funcs, invokeIndex, c.invoke);
    var at, last := ChainOrigins(funcs, invokeIndex, c.invoke);
    var chain := ChainOf(funcs, invokeIndex);
    ChainIs(funcs, invokeIndex, at, last);
    MadeFromFinal(funcs, invokeIndex, at, last);
    FinalIs(funcs, invokeIndex, c.invoke, last);
    ChainIdsDistinct(funcs, invokeIndex, c.invoke);
    PhasesAre(funcs, invokeIndex, c.invoke);
    forall p: nat, t | p < |chain| && t in chain[p].received ensures Shadowing.Returned(chain, p + 1, t) {
      var j := ReceivedHasSource(c, included, funcs, invokeIndex, at[p], t);
      ReturnsInRuns(funcs, invokeIndex, c.invoke, j, last);
      var q := InChain(funcs, invokeIndex, at, last, j);
      assert p < q;
    }
  }

  lemma MadeFromFinal(funcs: seq<Func>, invokeIndex: nat, at: seq<nat>, last: nat)
    requires invokeIndex <= |funcs| && MadeFrom(funcs, invokeIndex, at, last)
    ensures OneFinal(funcs, last)
  {
  }

  // What the check that binding makes means for the runs: it accepts exactly if nothing is lost in any run with
  // at most one inner call per wrapper, nobody in the chain returns a type twice that it has not received, and
  // there is no false alarm.
  lemma ListAcceptedExactlyIf(c: FlowGraph.Chain, included: set<nat>, funcs: seq<Func>, invokeIndex: nat)
    requires Chosen(c, included, funcs, invokeIndex) && FlowGraph.Consistent(c, included) && Ordinary(funcs)
    ensures invokeIndex <= |funcs| && Shaped(ChainOf(funcs, invokeIndex))
    ensures
      var chain := ChainOf(funcs, invokeIndex);
      Accepted(funcs) <==>
        && NobodyReturnsTwice(chain)
        && (forall w, down, tr :: SingleCalls(w, chain) ==> NothingLost(w, chain, 0, down, tr))
        && NoFalseAlarm(funcs)
  {
    ChoiceIsShaped(c, included, funcs, invokeIndex);
    ChosenIsPrepared(c, included, funcs, invokeIndex);
    hide FlowGraph.Consistent, Chosen, Phases, ChainOf, Accepted, Shaped, NoFalseAlarm, NothingLost, SingleCalls,
         NobodyReturnsTwice;
    AcceptedExactlyIf(funcs, invokeIndex, c.invoke);
    AcceptedExactlyIfNothingIsLost(ChainOf(funcs, invokeIndex));
  }

  // [invoke <- error, wrapper (wanted) <- error, final <- error], the wrapper being out because nobody sends what
  // it takes: the chain that is to run is the final function alone, and it is rejected.
  const REJECTED: seq<Func> := [
    Func(0, Invoke, true, [], [], [], [ERROR], {}), Func(1, Wrapper(false), false, [WANTED], [], [ERROR], [], {}),
    Func(2, Final, true, [], [], [ERROR], [], {})]

  const REJECTED_CHAIN: FlowGraph.Chain := FlowGraph.Chain(
    [FlowGraph.Provider(true, true, false, false, 0, None, None, true, [], [], [], [ERROR], []),
     FlowGraph.Provider(false, false, false, false, 0, None, None, true, [], [WANTED], [ERROR], [], []),
     FlowGraph.Provider(false, true, false, false, 0, None, None, true, [], [], [ERROR], [], [])], None, 0, {})

  lemma RejectedInVain()
    ensures Chosen(REJECTED_CHAIN, {0, 2}, REJECTED, 0) && FlowGraph.Consistent(REJECTED_CHAIN, {0, 2})
    ensures !FlowGraph.Consistent(REJECTED_CHAIN, {0, 1, 2})
    ensures !Accepted(REJECTED) && Accepted(ChainOf(REJECTED, 0))
  {
    hide *;
    RejectedIsConsistent();
    RejectedIsChosen();
    RejectedForOthers();
  }

  lemma RejectedIsConsistent()
    ensures FlowGraph.Consistent(REJECTED_CHAIN, {0, 2}) && !FlowGraph.Consistent(REJECTED_CHAIN, {0, 1, 2})
  {
    var c, s := REJECTED_CHAIN, {0, 2};
    assert FlowGraph.Supplies(c, 2, 0, FlowGraph.Received, ERROR);
    forall i | i in s ensures FlowGraph.LocallyConsistent(c, s, i) {
      if i == 0 {
        assert FlowGraph.SourcedIn(c, s, 0, FlowGraph.Received, ERROR);
      }
    }
    assert WANTED in c.funcs[1].inputs;
    assert !FlowGraph.SourcedIn(c, {0, 1, 2}, 1, FlowGraph.Inputs, WANTED);
    assert !FlowGraph.LocallyConsistent(c, {0, 1, 2}, 1);
  }

  lemma RejectedIsChosen()
    ensures Chosen(REJECTED_CHAIN, {0, 2}, REJECTED, 0)
  {
    assert OneFinal(REJECTED, 2);
    assert Phases(REJECTED, 0, 0);
    hide Phases, OneFinal;
  }

  lemma RejectedForOthers()
    ensures !Accepted(REJECTED) && Accepted(ChainOf(REJECTED, 0))
  {
    AcceptedMeans(REJECTED);
    assert Originates(REJECTED, 2, ERROR);
    assert REJECTED[1].returned[0] == ERROR && Offends(REJECTED, 1, 0);
    hide WithSkips;
    assert Collection(REJECTED, 0, Runs, 0) == Collection(REJECTED, 0, Runs, 1) == [];
    assert Collection(REJECTED, 0, Runs, 2) == Collection(REJECTED, 0, Runs, 3) == [];
    assert Collection(REJECTED, 0, Finals, 0) == Collection(REJECTED, 0, Finals, 1) == [];
    assert Collection(REJECTED, 0, Finals, 2) == [];
    var chain := ChainOf(REJECTED, 0);
    assert chain == [WithSkips(REJECTED, 0, 2)];
    AcceptedMeans(chain);
    assert chain[0].returned == [ERROR];
    assert !Originates(chain, 1, ERROR);
    assert chain[0].returned[..0] == [];
  }
}
