/**
 In which order the scheduler takes what could be taken: providers marked Reorder among each other, and those
 that wish to come after others.
 */
module ReorderOrder {
  import opened Basics
  import opened Topology
  import opened ReorderLaws

  // Wishes are recorded on both sides.
  ghost predicate WishesOk(g: Graph)
    requires GraphOk(g)
  {
    && (forall a: nat, b :: a < |g.items| && b in g.weakAfter[a] ==> b < |g.items|)
    && (forall a: nat, b: nat :: a < |g.items| && b < |g.items| ==> (b in g.weakAfter[a] <==> a in g.weakBefore[b]))
  }

  // What a provider still wishes to wait for; and who is where.
  ghost predicate WishesExact(g: Graph, st: State)
    requires GraphOk(g) && InGraph(g, st)
  {
    forall x: nat, y: nat {:trigger y in st.weakAfter[x]} {:trigger y in g.weakAfter[x]} ::
      x < |g.items| ==> (y in st.weakAfter[x] <==> y in g.weakAfter[x] && y !in st.released)
  }

  ghost predicate HeapsApart(g: Graph, st: State)
    requires GraphOk(g) && InGraph(g, st)
  {
    && (forall x: nat :: x in st.weakBlocked ==> x < |g.items| && g.weakAfter[x] != {})
    && (forall x: nat, y :: x < |g.items| && x in st.unblocked && y in g.weakAfter[x] ==> y in st.released)
  }

  ghost predicate Apart(g: Graph, st: State) {
    GraphOk(g) && InGraph(g, st) && WishesOk(g) && WishesExact(g, st) && HeapsApart(g, st)
  }

  // What releasing a node does to one provider.
  lemma ReleasedFor(g: Graph, st: State, i: nat, x: nat)
    requires GraphOk(g) && i < |g.before| && |st.after| == |st.weakAfter| == |g.after| && x < |st.after|
    ensures
      var r := ReleaseNode(g, st, i);
      && |r.after| == |r.weakAfter| == |g.after|
      && r.after[x] == (if x in g.before[i] then st.after[x] - {i} else st.after[x])
      && r.weakAfter[x] == (if x in g.before[i] + g.weakBefore[i] then st.weakAfter[x] - {i} else st.weakAfter[x])
      && (x in r.unblocked <==>
            x in st.unblocked || (x in g.before[i] && r.after[x] == {} && r.weakAfter[x] == {}))
      && (x in r.weakBlocked <==>
            x in st.weakBlocked || (x in g.before[i] && r.after[x] == {} && r.weakAfter[x] != {}))
  {
    ItemsAreNodes(g);
    hide GraphOk;
    var st1 := ReleaseWeakly(st, i, g.weakBefore[i]);
    assert st1.weakAfter[x] == if x in g.weakBefore[i] then st.weakAfter[x] - {i} else st.weakAfter[x];
    var q, z := Quiet(st1, i, g.before[i]), Stirred(st1, i, g.before[i]);
    assert x in q <==> x in g.before[i] && st1.after[x] - {i} == {} && st1.weakAfter[x] - {i} == {};
    assert x in z <==> x in g.before[i] && st1.after[x] - {i} == {} && st1.weakAfter[x] - {i} != {};
    hide Quiet, Stirred;
  }

  // What processing a node does to one provider.
  lemma ProcessedFor(g: Graph, st: State, i: nat, release: bool, x: nat)
    requires GraphOk(g) && InGraph(g, st) && IsNode(g, i) && x < |g.after|
    ensures
      var st' := ProcessOne(g, st, i, release);
      var now := release && i !in st.done;
      && |st'.after| == |st'.weakAfter| == |g.after|
      && st'.after[x] == (if now && x in g.before[i] then st.after[x] - {i} else st.after[x])
      && st'.weakAfter[x] ==
           (if now && x in g.before[i] + g.weakBefore[i] then st.weakAfter[x] - {i} else st.weakAfter[x])
      && (x < |g.items| ==>
            (x in st'.unblocked <==>
               x in st.unblocked || (now && x in g.before[i] && st'.after[x] == {} && st'.weakAfter[x] == {})))
      && (x in st'.weakBlocked <==>
            x in st.weakBlocked || (now && x in g.before[i] && st'.after[x] == {} && st'.weakAfter[x] != {}))
  {
    hide ReleaseNode, Gives;
    var s1 := st.(done := st.done + {i},
                  out := if i < |g.items| then st.out + [i] else st.out,
                  released := if release then st.released + [i] else st.released);
    ReleasedFor(g, s1, i, x);
    if i < |g.items| {
      GivesTypeNodes(g, i);
      TypesUnblocked(g, ReleaseNode(g, s1, i), i, x);
    }
  }

  lemma TypesUnblocked(g: Graph, st: State, i: nat, x: nat)
    requires i < |g.items|
    ensures x in ReleaseProvider(g, st, i).unblocked <==> x in st.unblocked || x in Gives(g, i)
  {
    hide Gives;
  }

  lemma Symmetric(g: Graph, i: nat, x: nat)
    requires GraphOk(g) && i < |g.after| && x < |g.after|
    ensures i in g.after[x] <==> x in g.before[i]
    ensures x in g.before[i] ==> x < |g.items|
  {
  }

  // What processing a node adds to either heap.
  lemma HeapsAfter(g: Graph, st: State, i: nat, release: bool)
    requires GraphOk(g) && InGraph(g, st) && IsNode(g, i)
    ensures InGraph(g, ProcessOne(g, st, i, release))
    ensures
      var st' := ProcessOne(g, st, i, release);
      var now := release && i !in st.done;
      && (forall x: nat :: x < |g.items| ==>
            (x in st'.unblocked <==>
               x in st.unblocked || (now && i in g.after[x] && st'.after[x] == {} && st'.weakAfter[x] == {}))
            && (x in st'.weakBlocked <==>
                  x in st.weakBlocked || (now && i in g.after[x] && st'.after[x] == {} && st'.weakAfter[x] != {})))
      && (forall x: nat :: |g.items| <= x < |g.after| ==> (x in st'.weakBlocked <==> x in st.weakBlocked))
  {
    ProcessStaysInGraph(g, st, i, release);
    ItemsAreNodes(g);
    hide ProcessOne, GraphOk, InGraph;
    forall x: nat | x < |g.after|
      ensures
        var st' := ProcessOne(g, st, i, release);
        var now := release && i !in st.done;
        && (x < |g.items| ==>
              (x in st'.unblocked <==>
                 x in st.unblocked || (now && i in g.after[x] && st'.after[x] == {} && st'.weakAfter[x] == {}))
              && (x in st'.weakBlocked <==>
                    x in st.weakBlocked || (now && i in g.after[x] && st'.after[x] == {} && st'.weakAfter[x] != {})))
        && (|g.items| <= x ==> (x in st'.weakBlocked <==> x in st.weakBlocked))
    {
      ProcessedFor(g, st, i, release, x);
      Symmetric(g, i, x);
    }
  }

  lemma ItemsAreNodes(g: Graph)
    requires GraphOk(g)
    ensures |g.items| < |g.after| == |g.before| == |g.weakBefore| == |g.weakAfter|
    ensures forall i: nat :: IsNode(g, i) ==> i < |g.after|
  {
  }

  lemma WishesAfter(g: Graph, st: State, i: nat, release: bool)
    requires GraphOk(g) && InGraph(g, st) && IsNode(g, i) && WishesOk(g) && WishesExact(g, st)
    ensures InGraph(g, ProcessOne(g, st, i, release)) && WishesExact(g, ProcessOne(g, st, i, release))
  {
    ProcessStaysInGraph(g, st, i, release);
    ItemsAreNodes(g);
    var st' := ProcessOne(g, st, i, release);
    hide ProcessOne, GraphOk, WishesOk, WishesExact, InGraph;
    forall x: nat, y: nat | x < |g.items| ensures y in st'.weakAfter[x] <==> y in g.weakAfter[x] && y !in st'.released {
      WishesAfterFor(g, st, i, release, x, y);
    }
    AllExact(g, st');
  }

  lemma AllExact(g: Graph, st: State)
    requires GraphOk(g) && InGraph(g, st)
    requires forall x: nat, y: nat :: x < |g.items| ==>
               (y in st.weakAfter[x] <==> y in g.weakAfter[x] && y !in st.released)
    ensures WishesExact(g, st)
  {
  }

  lemma WishesAfterFor(g: Graph, st: State, i: nat, release: bool, x: nat, y: nat)
    requires GraphOk(g) && InGraph(g, st) && IsNode(g, i) && WishesOk(g) && WishesExact(g, st) && x < |g.items|
    ensures
      var st' := ProcessOne(g, st, i, release);
      |st'.weakAfter| == |g.weakAfter| && (y in st'.weakAfter[x] <==> y in g.weakAfter[x] && y !in st'.released)
  {
    ItemsAreNodes(g);
    ProcessFrame(g, st, i, release);
    ProcessedFor(g, st, i, release, x);
    hide ProcessOne, GraphOk;
    assert y in st.weakAfter[x] <==> y in g.weakAfter[x] && y !in st.released;
  }

  // What the next step takes.
  lemma Takes(g: Graph, init: seq<nat>, st: State)
    requires Inv(g, init, st) && !Finished(st)
    ensures
      var (st0, i, release) := Chosen(g, st);
      && InGraph(g, st0) && IsNode(g, i) && Step(g, st) == ProcessOne(g, st0, i, release)
      && st0.after == st.after && st0.weakAfter == st.weakAfter
      && st0.done == st.done && st0.out == st.out && st0.released == st.released
      && (forall x :: x != i ==> (x in st0.unblocked <==> x in st.unblocked))
      && (forall x :: x != i ==> (x in st0.weakBlocked <==> x in st.weakBlocked))
      && (i in st0.unblocked ==> i in st.unblocked) && (i in st0.weakBlocked ==> i in st.weakBlocked)
      && (if st.unblocked != multiset{} then IsLeast(g, st.unblocked, i)
          else if st.weakBlocked != multiset{} then IsLeast(g, st.weakBlocked, i)
          else i < |g.items| && !g.items[i].reorder)
  {
    ChosenInGraph(g, st);
    if st.queue != [] {
      QueueIsFixed(g, init, st);
    }
    hide Inv, GraphOk;
  }

  lemma HeapsApartStep(g: Graph, init: seq<nat>, st: State)
    requires Inv(g, init, st) && Apart(g, st) && !Finished(st)
    ensures Apart(g, Step(g, st))
  {
    hide Inv, ProcessOne, Chosen, Step, GraphOk, InGraph, WishesOk, WishesExact, HeapsApart;
    Takes(g, init, st);
    var (st0, i, release) := Chosen(g, st);
    WishesExactToo(g, st, st0);
    WishesAfter(g, st0, i, release);
    StaysApart(g, st, st0, i, release);
  }

  lemma StaysApart(g: Graph, st: State, st0: State, i: nat, release: bool)
    requires Apart(g, st) && InGraph(g, st0) && IsNode(g, i) && st0.done == st.done && st0.released == st.released
    requires forall x :: x in st0.unblocked ==> x in st.unblocked
    requires forall x :: x in st0.weakBlocked ==> x in st.weakBlocked
    requires InGraph(g, ProcessOne(g, st0, i, release)) && WishesExact(g, ProcessOne(g, st0, i, release))
    ensures HeapsApart(g, ProcessOne(g, st0, i, release))
  {
    HeapsAfter(g, st0, i, release);
    ItemsAreNodes(g);
    ProcessFrame(g, st0, i, release);
    var st' := ProcessOne(g, st0, i, release);
    hide ProcessOne, GraphOk, WishesOk;
    forall x: nat | x in st'.weakBlocked ensures x < |g.items| && g.weakAfter[x] != {} {
      InRange(g, st', x);
      if x !in st.weakBlocked {
        var y :| y in st'.weakAfter[x];
      }
    }
    hide InGraph;
    forall x: nat, y | x < |g.items| && x in st'.unblocked && y in g.weakAfter[x] ensures y in st'.released {
      if x !in st.unblocked {
        assert y !in st'.weakAfter[x];
      }
    }
  }

  lemma InRange(g: Graph, st: State, x: nat)
    requires GraphOk(g) && InGraph(g, st) && x in st.weakBlocked
    ensures x < |g.after|
  {
  }

  lemma WishesExactToo(g: Graph, st: State, st0: State)
    requires GraphOk(g) && InGraph(g, st) && InGraph(g, st0) && WishesExact(g, st)
    requires st0.weakAfter == st.weakAfter && st0.released == st.released
    ensures WishesExact(g, st0)
  {
  }

  lemma ApartInitially(g: Graph, init: seq<nat>)
    requires GraphOk(g) && WishesOk(g) && forall x :: x in init ==> IsTypeNode(g, x)
    ensures Apart(g, InitialState(g, init))
  {
    InGraphInitially(g, init);
    var st := InitialState(g, init);
    assert forall x :: x in st.unblocked <==> x in init;
  }

  // ------------------------------------------------------------------ Original order

  // 'x' stands before 'y', has to wait for nothing that 'y' need not wait for, and has no more wishes.
  ghost predicate Ahead(g: Graph, x: nat, y: nat)
    requires GraphOk(g)
  {
    && x < y < |g.items| && g.items[x].reorder && g.items[y].reorder
    && g.after[x] <= g.after[y] && (g.after[x] == {} ==> g.after[y] == {})
    && g.weakAfter[x] <= g.weakAfter[y] && (g.weakAfter[x] == {} || g.after[x] == g.after[y])
  }

  ghost predicate TakenAhead(st: State, x: nat, y: nat) {
    && (y in st.done ==> x in st.done && Precedes(st.out, x, y))
    && (x !in st.done && y in st.unblocked ==> x in st.unblocked)
  }

  // Everything the invariants say about one provider.
  lemma Facts(g: Graph, init: seq<nat>, st: State, x: nat)
    requires Inv(g, init, st) && Apart(g, st) && |g.items| <= |g.after| && Called(g, st) && x < |g.items|
    ensures |st.after| == |st.weakAfter| == |g.after| == |g.weakAfter| && GraphOk(g)
    ensures forall y: nat :: y in st.after[x] <==> y in g.after[x] && y !in st.released
    ensures forall y: nat :: y in st.weakAfter[x] <==> y in g.weakAfter[x] && y !in st.released
    ensures x in st.weakBlocked ==> g.weakAfter[x] != {}
    ensures x in st.unblocked || x in st.weakBlocked ==> st.after[x] == {} && g.after[x] != {}
    ensures x in st.unblocked ==> forall y :: y in g.weakAfter[x] ==> y in st.released
    ensures x !in st.done && g.after[x] != {} && st.after[x] == {} ==> x in st.unblocked || x in st.weakBlocked
    ensures x in st.done <==> x in st.out
    ensures x in st.released ==> x in st.done
  {
    assert InHeaps(st, x) <==> x in st.unblocked || x in st.weakBlocked;
    hide InOrder, GraphOk;
  }

  lemma AheadInHeaps(g: Graph, init: seq<nat>, st: State, x: nat, y: nat)
    requires Inv(g, init, st) && Apart(g, st) && |g.items| <= |g.after| && Called(g, st)
    requires GraphOk(g) && Ahead(g, x, y) && x !in st.done && (y in st.unblocked || y in st.weakBlocked)
    ensures x in st.unblocked || x in st.weakBlocked
    ensures g.weakAfter[x] == {} ==> x in st.unblocked
  {
    Facts(g, init, st, x);
    Facts(g, init, st, y);
    hide Inv, Apart, Called, GraphOk;
    assert st.after[x] == {} by {
      if z :| z in st.after[x] {
        assert z in st.after[y];
      }
    }
  }

  // Nobody overtakes 'x'.
  lemma NotOvertaken(g: Graph, init: seq<nat>, st: State, x: nat, y: nat)
    requires Inv(g, init, st) && Apart(g, st) && |g.items| <= |g.after| && Called(g, st) && !Finished(st)
    requires GraphOk(g) && InGraph(g, st) && Ahead(g, x, y) && TakenAhead(st, x, y) && x !in st.done
    ensures Chosen(g, st).1 != y
  {
    Takes(g, init, st);
    var i := Chosen(g, st).1;
    if i == y {
      if st.unblocked != multiset{} {
        Lesser(g, st.unblocked, x, y);
      } else if st.weakBlocked != multiset{} {
        AheadInHeaps(g, init, st, x, y);
        Lesser(g, st.weakBlocked, x, y);
      }
      assert false;
    }
  }

  lemma Lesser(g: Graph, m: multiset<nat>, x: nat, y: nat)
    requires IsLeast(g, m, y) && x < y < |g.items| && g.items[x].reorder && g.items[y].reorder
    ensures x !in m && y in m
  {
  }

  lemma AheadStep(g: Graph, init: seq<nat>, st: State, x: nat, y: nat)
    requires Inv(g, init, st) && Apart(g, st) && |g.items| <= |g.after| && Called(g, st) && !Finished(st)
    requires GraphOk(g) && InGraph(g, st) && Ahead(g, x, y) && TakenAhead(st, x, y)
    ensures TakenAhead(Step(g, st), x, y)
  {
    hide *;
    Takes(g, init, st);
    var (st0, i, release) := Chosen(g, st);
    var st' := Step(g, st);
    ItemsAreNodes(g);
    AheadIs(g, x, y);
    TakenAheadIs(st, x, y);
    Facts(g, init, st, x);
    Facts(g, init, st, y);
    ProcessFrame(g, st0, i, release);
    if x !in st.done {
      NotOvertaken(g, init, st, x, y);
    }
    if y in st'.done {
      if y in st.done {
        PrecedesGrows(st.out, st'.out, x, y);
      } else {
        LastIsPreceded(st.out, x, y);
      }
    }
    if x !in st'.done && y in st'.unblocked {
      AheadUnblocked(g, init, st, st0, i, release, x, y);
    }
    TakenAheadIf(st', x, y);
  }

  lemma AheadIs(g: Graph, x: nat, y: nat)
    requires GraphOk(g) && Ahead(g, x, y)
    ensures x < y < |g.items|
  {
  }

  lemma TakenAheadIs(st: State, x: nat, y: nat)
    requires TakenAhead(st, x, y)
    ensures y in st.done ==> x in st.done && Precedes(st.out, x, y)
    ensures x !in st.done && y in st.unblocked ==> x in st.unblocked
  {
  }

  lemma TakenAheadIf(st: State, x: nat, y: nat)
    requires y in st.done ==> x in st.done && Precedes(st.out, x, y)
    requires x !in st.done && y in st.unblocked ==> x in st.unblocked
    ensures TakenAhead(st, x, y)
  {
  }

  lemma AheadUnblocked(g: Graph, init: seq<nat>, st: State, st0: State, i: nat, release: bool, x: nat, y: nat)
    requires Inv(g, init, st) && Apart(g, st) && |g.items| <= |g.after| && Called(g, st)
    requires GraphOk(g) && Ahead(g, x, y) && TakenAhead(st, x, y) && InGraph(g, st0) && IsNode(g, i)
    requires st0.after == st.after && st0.weakAfter == st.weakAfter && st0.done == st.done
    requires st0.released == st.released
    requires forall z :: z != i ==> (z in st0.unblocked <==> z in st.unblocked)
    requires i in st0.unblocked ==> i in st.unblocked
    requires x !in st.done && x != i && y in ProcessOne(g, st0, i, release).unblocked
    ensures x in ProcessOne(g, st0, i, release).unblocked
  {
    HeapsAfter(g, st0, i, release);
    Facts(g, init, st, x);
    Facts(g, init, st, y);
    var st' := ProcessOne(g, st0, i, release);
    if y !in st0.unblocked {
      StillWaits(g, st, st0, i, release, x);
      StillWaits(g, st, st0, i, release, y);
      hide Inv, Apart, Called, GraphOk, ProcessOne, InGraph;
      assert st'.after[x] == {} && st'.weakAfter[x] == {};
      if i !in g.after[x] {
        assert st.after[x] == {};
      }
    }
  }

  // What a provider still waits for, and wishes to wait for, once the next node has been processed.
  lemma StillWaits(g: Graph, st: State, st0: State, i: nat, release: bool, x: nat)
    requires GraphOk(g) && InGraph(g, st) && Exact(g, st) && Apart(g, st) && InGraph(g, st0) && IsNode(g, i)
    requires st0.after == st.after && st0.weakAfter == st.weakAfter && st0.released == st.released && x < |g.items|
    ensures
      var st' := ProcessOne(g, st0, i, release);
      && |st'.after| == |st'.weakAfter| == |g.after|
      && (forall y: nat :: y in st'.after[x] <==> y in g.after[x] && y !in st'.released)
      && (forall y: nat :: y in st'.weakAfter[x] <==> y in g.weakAfter[x] && y !in st'.released)
  {
    SameWaits(g, st, st0);
    ExactStep(g, st0, i, release);
    WishesExactToo(g, st, st0);
    WishesAfter(g, st0, i, release);
    hide ProcessOne, GraphOk;
  }

  lemma {:induction false} AheadRun(g: Graph, init: seq<nat>, st: State, x: nat, y: nat)
    requires Inv(g, init, st) && Apart(g, st) && |g.items| <= |g.after| && Called(g, st)
    requires GraphOk(g) && InGraph(g, st) && Ahead(g, x, y) && TakenAhead(st, x, y)
    ensures TakenAhead(Run(g, st), x, y)
    decreases Undone(g, st), Waiting(st)
  {
    hide Inv, Called, GraphOk, InGraph, Step, Apart, Ahead, TakenAhead;
    if !Finished(st) {
      StepProgresses(g, st);
      InvStep(g, init, st);
      CalledStep(g, init, st);
      HeapsApartStep(g, init, st);
      AheadStep(g, init, st, x, y);
      AheadRun(g, init, Step(g, st), x, y);
    }
  }

  // Providers marked Reorder that wait for the same come out in their original order, and so do those of which
  // the earlier waits for less and has no wishes.
  lemma OriginalOrder(g: Graph, init: seq<nat>, x: nat, y: nat)
    requires GraphOk(g) && Chained(g) && WishesOk(g) && forall z :: z in init ==> IsTypeNode(g, z)
    requires Ahead(g, x, y)
    ensures Precedes(Result(g, Final(g, init)), x, y)
  {
    hide *;
    AheadIs(g, x, y);
    InvHoldsInitially(g, init);
    InvIsGraph(g, init, InitialState(g, init));
    ApartInitially(g, init);
    NobodyCalled(g, init);
    NobodyTaken(g, init, x, y);
    AheadRun(g, init, InitialState(g, init), x, y);
    FinalInv(g, init);
    FinalIs(g, init);
    InTheEnd(g, init, Final(g, init), x, y);
  }

  lemma FinalIs(g: Graph, init: seq<nat>)
    requires GraphOk(g) && Chained(g) && forall x :: x in init ==> IsTypeNode(g, x)
    requires InGraph(g, InitialState(g, init))
    ensures Final(g, init) == Run(g, InitialState(g, init))
  {
  }

  lemma NobodyCalled(g: Graph, init: seq<nat>)
    requires GraphOk(g) && forall x :: x in init ==> IsTypeNode(g, x)
    ensures |g.items| <= |g.after| && Called(g, InitialState(g, init))
  {
    var st := InitialState(g, init);
    assert forall x :: x in st.unblocked <==> x in init;
  }

  lemma NobodyTaken(g: Graph, init: seq<nat>, x: nat, y: nat)
    requires GraphOk(g) && (forall x :: x in init ==> IsTypeNode(g, x)) && y < |g.items|
    ensures TakenAhead(InitialState(g, init), x, y)
  {
    var st := InitialState(g, init);
    assert forall x :: x in st.unblocked <==> x in init;
  }

  lemma InTheEnd(g: Graph, init: seq<nat>, st: State, x: nat, y: nat)
    requires Inv(g, init, st) && TakenAhead(st, x, y) && x < y < |g.items|
    ensures Precedes(Result(g, st), x, y)
  {
    var left := Leftovers(st.done, |g.items|);
    LeftoversFacts(st.done, |g.items|);
    if y in st.done {
      PrecedesGrows(st.out, Result(g, st), x, y);
    } else {
      assert y in left;
      var q :| 0 <= q < |left| && left[q] == y;
      if x in st.done {
        assert x in st.out;
        var p :| 0 <= p < |st.out| && st.out[p] == x;
        assert Result(g, st)[p] == x && Result(g, st)[|st.out| + q] == y;
      } else {
        assert x in left;
        var p :| 0 <= p < |left| && left[p] == x;
        assert p < q;
        assert Result(g, st)[|st.out| + p] == x && Result(g, st)[|st.out| + q] == y;
      }
    }
  }

  // ------------------------------------------------------------------ Wishes

  // The nodes of 'path' can be released one after the other once what 'x' waits for has been, and none of the
  // providers among them has wishes.
  ghost predicate WithinReach(g: Graph, init: seq<nat>, x: nat, path: seq<nat>)
    requires GraphOk(g) && x < |g.after|
  {
    forall k :: 0 <= k < |path| ==> ReachedBy(g, init, g.after[x], path[..k], path[k])
  }

  ghost predicate ReachedBy(g: Graph, init: seq<nat>, given: set<nat>, before: seq<nat>, z: nat)
    requires GraphOk(g)
  {
    && IsNode(g, z) && (forall y :: y in g.after[z] ==> y in given || y in before)
    && if z < |g.items| then g.after[z] != {} && g.weakAfter[z] == {}
       else z in init || exists y :: (y in given || y in before) && y < |g.items| && z in Gives(g, y)
  }

  // Once only weakly blocked nodes are left, all of the path has been released, if it ever is.
  lemma {:induction false} ReachedBefore(g: Graph, init: seq<nat>, st: State, x: nat, path: seq<nat>)
    requires Inv(g, init, st) && Apart(g, st) && |g.items| <= |g.after| && Called(g, st)
    requires GraphOk(g) && x < |g.items| && WithinReach(g, init, x, path)
    requires st.unblocked == multiset{} && x in st.weakBlocked
    requires forall z :: z in path && z in st.done ==> z in st.released
    ensures forall z :: z in path ==> z in st.released
    decreases |path|
  {
    hide *;
    if path != [] {
      var before, z := path[..|path| - 1], path[|path| - 1];
      ShorterReach(g, init, x, path);
      assert path == before + [z];
      assert forall y :: y in path <==> y in before || y == z;
      ReachedBefore(g, init, st, x, before);
      NextIsReleased(g, init, st, x, before, z);
    }
  }

  lemma ShorterReach(g: Graph, init: seq<nat>, x: nat, path: seq<nat>)
    requires GraphOk(g) && x < |g.after| && WithinReach(g, init, x, path) && path != []
    ensures WithinReach(g, init, x, path[..|path| - 1])
    ensures ReachedBy(g, init, g.after[x], path[..|path| - 1], path[|path| - 1])
  {
    hide ReachedBy;
    var before := path[..|path| - 1];
    forall k | 0 <= k < |before| ensures ReachedBy(g, init, g.after[x], before[..k], before[k]) {
      assert before[..k] == path[..k] && before[k] == path[k];
    }
  }

  lemma NextIsReleased(g: Graph, init: seq<nat>, st: State, x: nat, before: seq<nat>, z: nat)
    requires Inv(g, init, st) && Apart(g, st) && |g.items| <= |g.after| && Called(g, st)
    requires GraphOk(g) && x < |g.items| && ReachedBy(g, init, g.after[x], before, z)
    requires st.unblocked == multiset{} && x in st.weakBlocked
    requires (forall y :: y in before ==> y in st.released) && (z in st.done ==> z in st.released)
    ensures z in st.released
  {
    Facts(g, init, st, x);
    forall y | y in g.after[x] ensures y in st.released {
      assert y !in st.after[x];
    }
    if z < |g.items| {
      Facts(g, init, st, z);
      hide Inv, Apart, GraphOk;
      forall y: nat ensures y !in st.after[z] {
      }
      assert st.after[z] == {};
    } else {
      TypesReady(g, init, st, z);
      hide Inv, GraphOk, Gives;
      assert Supplied(g, init, st.released, z);
    }
  }

  lemma TypesReady(g: Graph, init: seq<nat>, st: State, z: nat)
    requires Inv(g, init, st) && Apart(g, st) && IsTypeNode(g, z) && Supplied(g, init, st.released, z)
    ensures z in st.done || z in st.unblocked
  {
    assert z in st.done || InHeaps(st, z);
    hide InOrder, GraphOk, Supplied;
  }

  // What is done without having been released never is released.
  lemma {:induction false} NeverReleased(g: Graph, init: seq<nat>, st: State, z: nat)
    requires Inv(g, init, st) && z in st.done && z !in st.released
    ensures GraphOk(g) && InGraph(g, st) && z !in Run(g, st).released
    decreases |UpTo(|g.after|) - st.done|, Waiting(st)
  {
    InvIsGraph(g, init, st);
    if !Finished(st) {
      StepProgresses(g, st);
      InvStep(g, init, st);
      Takes(g, init, st);
      var (st0, i, release) := Chosen(g, st);
      ItemsAreNodes(g);
      Lengths(g, st0);
      ProcessFrame(g, st0, i, release);
      hide Inv, GraphOk, InGraph, Step, ProcessOne, Chosen;
      NeverReleased(g, init, Step(g, st), z);
    }
  }

  lemma Lengths(g: Graph, st: State)
    requires InGraph(g, st)
    ensures |st.after| == |st.weakAfter| == |g.after|
  {
  }

  ghost predicate TakenAfter(st: State, x: nat, w: nat) {
    x in st.done ==> w in st.done && Precedes(st.out, w, x)
  }

  lemma WishStep(g: Graph, init: seq<nat>, st: State, x: nat, path: seq<nat>)
    requires Inv(g, init, st) && Apart(g, st) && |g.items| <= |g.after| && Called(g, st) && !Finished(st)
    requires GraphOk(g) && InGraph(g, st) && x < |g.items| && g.items[x].reorder
    requires path != [] && path[|path| - 1] in g.weakAfter[x] && path[|path| - 1] < |g.items|
    requires WithinReach(g, init, x, path) && forall z :: z in path && z in st.done ==> z in st.released
    requires TakenAfter(st, x, path[|path| - 1])
    ensures TakenAfter(Step(g, st), x, path[|path| - 1])
  {
    hide *;
    var w := path[|path| - 1];
    Takes(g, init, st);
    var (st0, i, release) := Chosen(g, st);
    var st' := Step(g, st);
    Facts(g, init, st, x);
    Facts(g, init, st, w);
    ItemsAreNodes(g);
    ProcessFrame(g, st0, i, release);
    TakenAfterIs(st, x, w);
    if x in st'.done {
      if x in st.done {
        PrecedesGrows(st.out, st'.out, w, x);
      } else {
        LeastIsIn(g, st, i);
        if st.unblocked == multiset{} {
          ReachedBefore(g, init, st, x, path);
          assert w in path;
        }
        LastIsPreceded(st.out, w, x);
      }
    }
    TakenAfterIf(st', x, w);
  }

  lemma LeastIsIn(g: Graph, st: State, i: nat)
    ensures IsLeast(g, st.unblocked, i) ==> i in st.unblocked
    ensures IsLeast(g, st.weakBlocked, i) ==> i in st.weakBlocked
  {
  }

  lemma TakenAfterIs(st: State, x: nat, w: nat)
    requires TakenAfter(st, x, w)
    ensures x in st.done ==> w in st.done && Precedes(st.out, w, x)
  {
  }

  lemma TakenAfterIf(st: State, x: nat, w: nat)
    requires x in st.done ==> w in st.done && Precedes(st.out, w, x)
    ensures TakenAfter(st, x, w)
  {
  }

  lemma {:induction false} WishRun(g: Graph, init: seq<nat>, st: State, x: nat, path: seq<nat>)
    requires Inv(g, init, st) && Apart(g, st) && |g.items| <= |g.after| && Called(g, st)
    requires GraphOk(g) && InGraph(g, st) && x < |g.items| && g.items[x].reorder
    requires path != [] && path[|path| - 1] in g.weakAfter[x] && path[|path| - 1] < |g.items|
    requires WithinReach(g, init, x, path) && forall z :: z in path ==> z in Run(g, st).released
    requires TakenAfter(st, x, path[|path| - 1])
    ensures TakenAfter(Run(g, st), x, path[|path| - 1])
    decreases Undone(g, st), Waiting(st)
  {
    hide Inv, Called, GraphOk, InGraph, Step, Apart, TakenAfter, WithinReach;
    if !Finished(st) {
      StepProgresses(g, st);
      InvStep(g, init, st);
      CalledStep(g, init, st);
      HeapsApartStep(g, init, st);
      forall z | z in path && z in st.done ensures z in st.released {
        if z !in st.released {
          NeverReleased(g, init, st, z);
          assert false;
        }
      }
      WishStep(g, init, st, x, path);
      WishRun(g, init, Step(g, st), x, path);
    }
  }

  // A provider marked Reorder comes after one it wishes to come after, if that can be had: there are nodes that
  // lead there, all of them released in the end, which wait for nothing but each other and what it waits for.
  lemma WishesAreMet(g: Graph, init: seq<nat>, x: nat, path: seq<nat>)
    requires GraphOk(g) && Chained(g) && WishesOk(g) && forall z :: z in init ==> IsTypeNode(g, z)
    requires x < |g.items| && g.items[x].reorder && x in Final(g, init).done
    requires path != [] && path[|path| - 1] in g.weakAfter[x]
    requires WithinReach(g, init, x, path) && forall z :: z in path ==> z in Final(g, init).released
    ensures Precedes(Result(g, Final(g, init)), path[|path| - 1], x)
  {
    var w := path[|path| - 1];
    assert w < |g.items|;
    hide *;
    InvHoldsInitially(g, init);
    InvIsGraph(g, init, InitialState(g, init));
    ApartInitially(g, init);
    NobodyCalled(g, init);
    NobodyAfter(g, init, x, w);
    FinalIs(g, init);
    WishRun(g, init, InitialState(g, init), x, path);
    TakenAfterIs(Final(g, init), x, w);
    ResultGrows(g, Final(g, init));
    PrecedesGrows(Final(g, init).out, Result(g, Final(g, init)), w, x);
  }

  lemma NobodyAfter(g: Graph, init: seq<nat>, x: nat, w: nat)
    ensures TakenAfter(InitialState(g, init), x, w)
  {
  }

  // ------------------------------------------------------------------ Providers that wait for nothing

  ghost predicate FreeReleased(g: Graph, st: State)
    requires |g.items| <= |g.after|
  {
    forall x: nat :: x < |g.items| && x in st.done && g.after[x] == {} ==> x in st.released
  }

  lemma FreeStep(g: Graph, init: seq<nat>, st: State)
    requires |g.items| <= |g.after| && Inv(g, init, st) && !Finished(st) && FreeReleased(g, st)
    ensures GraphOk(g) && InGraph(g, st) && FreeReleased(g, Step(g, st))
  {
    InvIsGraph(g, init, st);
    ChosenWasTaken(g, init, st);
    Takes(g, init, st);
    var (st0, i, release) := Chosen(g, st);
    Lengths(g, st0);
    ProcessFrame(g, st0, i, release);
    forall y: nat ensures y in st.after[i] ==> y in g.after[i] {
    }
    hide Inv, GraphOk, InGraph, Step, ProcessOne, Chosen;
  }

  lemma {:induction false} FreeRun(g: Graph, init: seq<nat>, st: State)
    requires |g.items| <= |g.after| && Inv(g, init, st) && FreeReleased(g, st)
    ensures GraphOk(g) && InGraph(g, st) && FreeReleased(g, Run(g, st))
    decreases |UpTo(|g.after|) - st.done|, Waiting(st)
  {
    InvIsGraph(g, init, st);
    if !Finished(st) {
      StepProgresses(g, st);
      InvStep(g, init, st);
      FreeStep(g, init, st);
      hide Inv, GraphOk, InGraph, Step, FreeReleased;
      FreeRun(g, init, Step(g, st));
    }
  }

  // A provider that waits for nothing and gets its turn is released.
  lemma FreeIsReleased(g: Graph, init: seq<nat>, x: nat)
    requires GraphOk(g) && Chained(g) && forall z :: z in init ==> IsTypeNode(g, z)
    requires x < |g.items| && g.after[x] == {} && x in Final(g, init).done
    ensures x in Final(g, init).released
  {
    InvHoldsInitially(g, init);
    FreeRun(g, init, InitialState(g, init));
  }
}
