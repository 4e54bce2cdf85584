/**
 What reorder.go's scheduler guarantees for every graph: the invariant of a run, and the theorems
 about the order it produces.
 */
module ReorderLaws {
  import opened Basics
  import opened Topology

  function InitialState(g: Graph, init: seq<nat>): State {
    State(g.after, g.weakAfter, multiset(init), multiset{}, Fixed(g.items, |g.items|), {}, [], [])
  }

  // The providers that were never reached, in their original order (reorder.go:340-345).
  function Leftovers(done: set<nat>, n: nat): seq<nat> {
    if n == 0 then [] else Leftovers(done, n - 1) + if n - 1 in done then [] else [n - 1]
  }

  lemma LeftoversFacts(done: set<nat>, n: nat)
    ensures forall x: nat :: x in Leftovers(done, n) <==> x < n && x !in done
    ensures Increasing(Leftovers(done, n))
  {
    if n > 0 {
      LeftoversFacts(done, n - 1);
      var f := Leftovers(done, n - 1);
      assert forall k :: 0 <= k < |f| ==> f[k] in f;
    }
  }

  function Result(g: Graph, st: State): seq<nat> {
    st.out + Leftovers(st.done, |g.items|)
  }

  function KeepFixed(g: Graph, s: seq<nat>): seq<nat> {
    if s == [] then []
    else KeepFixed(g, s[..|s| - 1])
         + (var x := s[|s| - 1]; if x < |g.items| && !g.items[x].reorder then [x] else [])
  }

  // The type of node 'x' was available from the start or has been provided by somebody released.
  ghost predicate Supplied(g: Graph, init: seq<nat>, released: seq<nat>, x: nat) {
    x in init || exists y :: y in released && y < |g.items| && x in Gives(g, y)
  }

  // Everything node 'x' has to wait for is in 'earlier'.
  ghost predicate Justified(g: Graph, init: seq<nat>, earlier: seq<nat>, x: nat)
    requires GraphOk(g)
  {
    && IsNode(g, x)
    && (forall y :: y in g.after[x] ==> y in earlier)
    && (IsTypeNode(g, x) ==> Supplied(g, init, earlier, x))
  }

  ghost predicate Emitted(g: Graph, st: State) {
    && Distinct(st.out)
    && (forall x: nat :: x in st.out <==> x < |g.items| && x in st.done)
    && (forall x :: x in st.released ==> x in st.done)
    && (forall x :: x in st.done && x !in st.released ==> x < |g.items| && !g.items[x].reorder)
  }

  // What a node still waits for is what it waited for at first less what has been released.
  ghost predicate Exact(g: Graph, st: State)
    requires |st.after| == |g.after|
  {
    forall x: nat, y: nat {:trigger y in st.after[x]} {:trigger y in g.after[x]} ::
      x < |g.after| ==> (y in st.after[x] <==> y in g.after[x] && y !in st.released)
  }

  ghost predicate InHeaps(st: State, x: nat) {
    x in st.unblocked || x in st.weakBlocked
  }

  ghost predicate HeapsReady(g: Graph, init: seq<nat>, st: State)
    requires GraphOk(g) && InGraph(g, st)
  {
    && (forall x: nat :: InHeaps(st, x) ==>
          st.after[x] == {}
          && (IsTypeNode(g, x) ==> Supplied(g, init, st.released, x)))
    && (forall x: nat :: x < |g.items| && x !in st.done && g.after[x] != {} && st.after[x] == {} ==> InHeaps(st, x))
    && (forall x: nat :: IsTypeNode(g, x) && Supplied(g, init, st.released, x) ==> x in st.done || InHeaps(st, x))
  }

  ghost predicate InOrder(g: Graph, init: seq<nat>, st: State)
    requires GraphOk(g)
  {
    && (forall k :: 0 <= k < |st.released| ==> Justified(g, init, st.released[..k], st.released[k]))
    && (forall k, l :: 0 <= k < l < |st.released| && st.released[k] < |g.items| && st.released[l] < |g.items| ==>
          Precedes(st.out, st.released[k], st.released[l]))
  }

  // The fixed providers done so far are the first 'm' of them, and the queue holds all the others.
  ghost predicate FixedInOrder(g: Graph, st: State, m: nat) {
    var f := Fixed(g.items, |g.items|);
    && m <= |f| && |st.queue| <= |f| && |f| - |st.queue| <= m
    && st.queue == f[|f| - |st.queue|..]
    && (forall k :: 0 <= k < |f| ==> (f[k] in st.done <==> k < m))
    && KeepFixed(g, st.out) == f[..m]
  }

  ghost predicate Inv(g: Graph, init: seq<nat>, st: State) {
    && GraphOk(g) && Chained(g) && InGraph(g, st)
    && Emitted(g, st) && Exact(g, st) && HeapsReady(g, init, st) && InOrder(g, init, st)
    && exists m: nat :: FixedInOrder(g, st, m)
  }

  lemma KeepFixedAppend(g: Graph, s: seq<nat>, x: nat)
    ensures KeepFixed(g, s + [x]) ==
              KeepFixed(g, s) + if x < |g.items| && !g.items[x].reorder then [x] else []
  {
  }

  lemma TypeNodesWaitForNothing(g: Graph, x: nat)
    requires GraphOk(g) && IsTypeNode(g, x)
    ensures g.after[x] == {}
  {
    forall y: nat ensures y !in g.after[x] {
      assert y in g.after[x] ==> IsNode(g, y);
      assert y < |g.after| ==> (y in g.after[x] <==> x in g.before[y]);
    }
  }

  lemma InvHoldsInitially(g: Graph, init: seq<nat>)
    requires GraphOk(g) && Chained(g)
    requires forall x :: x in init ==> IsTypeNode(g, x)
    ensures Inv(g, init, InitialState(g, init))
  {
    hide *;
    var st := InitialState(g, init);
    InGraphInitially(g, init);
    NothingDoneInitially(g, init);
    HeapsInitially(g, init);
    FixedInitially(g, init);
    InvIs(g, init, st, 0);
  }

  lemma InvIs(g: Graph, init: seq<nat>, st: State, m: nat)
    requires GraphOk(g) && Chained(g) && InGraph(g, st)
    requires Emitted(g, st) && Exact(g, st) && HeapsReady(g, init, st) && InOrder(g, init, st) && FixedInOrder(g, st, m)
    ensures Inv(g, init, st)
  {
  }

  lemma InGraphInitially(g: Graph, init: seq<nat>)
    requires GraphOk(g) && forall x :: x in init ==> IsTypeNode(g, x)
    ensures InGraph(g, InitialState(g, init))
  {
    FixedFacts(g.items, |g.items|);
  }

  lemma NothingDoneInitially(g: Graph, init: seq<nat>)
    requires GraphOk(g)
    ensures
      var st := InitialState(g, init);
      |st.after| == |g.after| && Emitted(g, st) && Exact(g, st) && InOrder(g, init, st)
  {
  }

  lemma HeapsInitially(g: Graph, init: seq<nat>)
    requires GraphOk(g) && InGraph(g, InitialState(g, init)) && forall x :: x in init ==> IsTypeNode(g, x)
    ensures HeapsReady(g, init, InitialState(g, init))
  {
    var st := InitialState(g, init);
    forall x: nat | InHeaps(st, x) ensures x in init && x < |g.after| && st.after[x] == {} {
      assert x in init;
      TypeNodesWaitForNothing(g, x);
    }
  }

  lemma FixedInitially(g: Graph, init: seq<nat>)
    ensures FixedInOrder(g, InitialState(g, init), 0)
  {
  }

  // A fixed provider that gets its turn is the next one.
  lemma NextFixed(g: Graph, st: State, m: nat, i: nat)
    requires GraphOk(g) && Chained(g) && InGraph(g, st) && Emitted(g, st)
    requires FixedInOrder(g, st, m)
    requires i < |g.items| && !g.items[i].reorder && i !in st.done
    requires (forall y :: y in g.after[i] ==> y in st.released) || (st.queue != [] && st.queue[0] == i)
    ensures m < |Fixed(g.items, |g.items|)| && Fixed(g.items, |g.items|)[m] == i
  {
    var f := Fixed(g.items, |g.items|);
    FixedFacts(g.items, |g.items|);
    assert i in f;
    var k :| 0 <= k < |f| && f[k] == i;
    assert 0 < k ==> f[k - 1] in g.after[f[k]];
    if st.queue != [] && st.queue[0] == i {
      var q := |f| - |st.queue|;
      assert f[q] == st.queue[0];
      assert q == k;
    }
  }

  // One node is processed: the relation between what was taken and the invariant.
  lemma ProcessKeepsFixed(g: Graph, st: State, st0: State, m: nat, i: nat, release: bool)
    requires GraphOk(g) && Chained(g) && InGraph(g, st) && Emitted(g, st) && FixedInOrder(g, st, m)
    requires IsNode(g, i) && InGraph(g, st0)
    requires st0.done == st.done && st0.out == st.out
    requires (st0.queue == st.queue && forall y :: y in g.after[i] ==> y in st.released)
             || (st.queue != [] && st.queue[0] == i && st0.queue == st.queue[1..])
    ensures exists m': nat :: FixedInOrder(g, ProcessOne(g, st0, i, release), m')
  {
    var st' := ProcessOne(g, st0, i, release);
    ProcessFrame(g, st0, i, release);
    var f := Fixed(g.items, |g.items|);
    if st0.queue != st.queue {
      assert st.queue[0] == f[|f| - |st.queue|];
    }
    if i in st.done || !(i < |g.items|) || g.items[i].reorder {
      KeepFixedAppend(g, st.out, i);
      FixedFacts(g.items, |g.items|);
      assert i in f ==> i in st.done;
      hide ProcessOne, GraphOk, Chained, InGraph;
      FixedStays(g, st, st', m, i);
    } else {
      NextFixed(g, st, m, i);
      KeepFixedAppend(g, st.out, i);
      hide ProcessOne, GraphOk, Chained, InGraph;
      FixedAdvances(g, st, st', m, i);
    }
  }

  lemma ProcessFrame(g: Graph, st: State, i: nat, release: bool)
    requires GraphOk(g) && IsNode(g, i) && |st.after| == |st.weakAfter| == |g.after|
    ensures
      var st' := ProcessOne(g, st, i, release);
      && st'.queue == st.queue && st'.done == st.done + {i}
      && st'.out == (if i !in st.done && i < |g.items| then st.out + [i] else st.out)
      && st'.released == (if i !in st.done && release then st.released + [i] else st.released)
  {
  }

  lemma FixedStays(g: Graph, st: State, st': State, m: nat, i: nat)
    requires FixedInOrder(g, st, m)
    requires i in Fixed(g.items, |g.items|) ==> i in st.done
    requires st'.done == st.done + {i}
    requires st'.queue == st.queue || (st.queue != [] && st.queue[0] == i && st'.queue == st.queue[1..])
    requires KeepFixed(g, st'.out) == KeepFixed(g, st.out)
    ensures FixedInOrder(g, st', m)
  {
  }

  lemma FixedAdvances(g: Graph, st: State, st': State, m: nat, i: nat)
    requires FixedInOrder(g, st, m)
    requires m < |Fixed(g.items, |g.items|)| && Fixed(g.items, |g.items|)[m] == i
    requires st'.done == st.done + {i}
    requires st'.queue == st.queue || (st.queue != [] && st.queue[0] == i && st'.queue == st.queue[1..])
    requires KeepFixed(g, st'.out) == KeepFixed(g, st.out) + [i]
    ensures FixedInOrder(g, st', m + 1)
  {
    var f := Fixed(g.items, |g.items|);
    assert f[..m + 1] == f[..m] + [i];
    FixedFacts(g.items, |g.items|);
    DoneAdvances(f, st.done, m);
    QueueShortens(f, st.queue, st'.queue);
  }

  lemma DoneAdvances(f: seq<nat>, done: set<nat>, m: nat)
    requires m < |f| && Increasing(f)
    requires forall k :: 0 <= k < |f| ==> (f[k] in done <==> k < m)
    ensures forall k :: 0 <= k < |f| ==> (f[k] in done + {f[m]} <==> k < m + 1)
  {
  }

  lemma QueueShortens(f: seq<nat>, q: seq<nat>, q': seq<nat>)
    requires |q| <= |f| && q == f[|f| - |q|..]
    requires q' == q || (q != [] && q' == q[1..])
    ensures q' == f[|f| - |q'|..]
    ensures q' != q ==> q[0] == f[|f| - |q|]
  {
  }

  lemma EmittedStep(g: Graph, st: State, i: nat, release: bool)
    requires GraphOk(g) && InGraph(g, st) && Emitted(g, st) && IsNode(g, i)
    requires (i < |g.items| && !g.items[i].reorder) || release
    ensures Emitted(g, ProcessOne(g, st, i, release))
  {
  }

  // The effect of processing on the relations: released nodes hold back nobody any more.
  lemma ExactStep(g: Graph, st: State, i: nat, release: bool)
    requires GraphOk(g) && InGraph(g, st) && IsNode(g, i) && Exact(g, st)
    ensures |ProcessOne(g, st, i, release).after| == |g.after|
    ensures Exact(g, ProcessOne(g, st, i, release))
  {
  }

  lemma SameWaits(g: Graph, st: State, st': State)
    requires |st.after| == |g.after| && Exact(g, st)
    requires st'.after == st.after && st'.released == st.released
    ensures Exact(g, st')
  {
  }

  lemma HeapsAfterRelease(g: Graph, st: State, i: nat)
    requires GraphOk(g) && InGraph(g, st) && IsNode(g, i) && i !in st.done
    ensures
      var st' := ProcessOne(g, st, i, true);
      && |st'.after| == |g.after|
      && forall x: nat :: InHeaps(st', x) <==>
            || InHeaps(st, x)
            || (x < |g.items| && i in g.after[x] && st'.after[x] == {})
            || (i < |g.items| && x in Gives(g, i))
  {
  }

  // 'st0' is 'st' after node 'i' has been taken from a heap or from the queue.
  ghost predicate Took(g: Graph, init: seq<nat>, st: State, st0: State, i: nat, release: bool)
    requires GraphOk(g)
  {
    && IsNode(g, i) && InGraph(g, st) && InGraph(g, st0)
    && st0.done == st.done && st0.out == st.out && st0.released == st.released && st0.after == st.after
    && (forall x: nat :: InHeaps(st0, x) ==> InHeaps(st, x))
    && (forall x: nat :: InHeaps(st, x) ==> InHeaps(st0, x) || x == i)
    && (release <==> st.after[i] == {})
    && (IsTypeNode(g, i) ==> Supplied(g, init, st.released, i))
  }

  lemma SuppliedGrows(g: Graph, init: seq<nat>, released: seq<nat>, i: nat, x: nat)
    ensures Supplied(g, init, released, x) ==> Supplied(g, init, released + [i], x)
    ensures i < |g.items| && x in Gives(g, i) ==> Supplied(g, init, released + [i], x)
    ensures Supplied(g, init, released + [i], x) ==>
              Supplied(g, init, released, x) || (i < |g.items| && x in Gives(g, i))
  {
  }

  lemma HeapsStep(g: Graph, init: seq<nat>, st: State, st0: State, i: nat, release: bool)
    requires GraphOk(g) && InGraph(g, st) && Exact(g, st) && HeapsReady(g, init, st)
    requires Took(g, init, st, st0, i, release) && i !in st.done
    requires InGraph(g, ProcessOne(g, st0, i, release)) && Exact(g, ProcessOne(g, st0, i, release))
    ensures HeapsReady(g, init, ProcessOne(g, st0, i, release))
  {
    var st' := ProcessOne(g, st0, i, release);
    ProcessFrame(g, st0, i, release);
    if release {
      HeapsAfterRelease(g, st0, i);
    }
    assert forall x: nat :: InHeaps(st', x) <==>
        || InHeaps(st0, x)
        || (release && x < |g.items| && i in g.after[x] && st'.after[x] == {})
        || (release && i < |g.items| && x in Gives(g, i));
    hide ProcessOne, InHeaps, Gives;
    forall x: nat | InHeaps(st', x)
      ensures st'.after[x] == {} && (IsTypeNode(g, x) ==> Supplied(g, init, st'.released, x))
    {
      SuppliedGrows(g, init, st.released, i, x);
      NewInHeaps(g, init, st, st', i, x, release);
    }
    forall x: nat | x < |g.items| && x !in st'.done && g.after[x] != {} && st'.after[x] == {}
      ensures InHeaps(st', x)
    {
      if st.after[x] != {} {
        var y :| y in st.after[x];
        assert y !in st'.after[x];
        assert y == i;
      }
    }
    forall x: nat | IsTypeNode(g, x) && Supplied(g, init, st'.released, x)
      ensures x in st'.done || InHeaps(st', x)
    {
      SuppliedGrows(g, init, st.released, i, x);
    }
  }

  lemma NewInHeaps(g: Graph, init: seq<nat>, st: State, st': State, i: nat, x: nat, release: bool)
    requires GraphOk(g) && InGraph(g, st) && InGraph(g, st')
    requires Exact(g, st) && Exact(g, st') && HeapsReady(g, init, st)
    requires st'.released == if release then st.released + [i] else st.released
    requires InHeaps(st, x)
             || (release && x < |g.items| && st'.after[x] == {})
             || (release && i < |g.items| && x in Gives(g, i))
    ensures x < |g.after| && st'.after[x] == {}
    ensures IsTypeNode(g, x) ==> Supplied(g, init, st'.released, x)
  {
    SuppliedGrows(g, init, st.released, i, x);
    if i < |g.items| && x in Gives(g, i) {
      GivesTypeNodes(g, i);
    }
    if IsTypeNode(g, x) {
      TypeNodesWaitForNothing(g, x);
    }
    assert x < |g.after|;
    forall y: nat ensures y !in st'.after[x] {
    }
  }

  lemma InOrderStep(g: Graph, init: seq<nat>, st: State, st0: State, i: nat, release: bool)
    requires GraphOk(g) && InGraph(g, st) && Emitted(g, st) && Exact(g, st) && InOrder(g, init, st)
    requires Took(g, init, st, st0, i, release) && i !in st.done
    ensures InOrder(g, init, ProcessOne(g, st0, i, release))
  {
    hide *;
    TookFacts(g, init, st, st0, i, release);
    ProcessFrame(g, st0, i, release);
    var st' := ProcessOne(g, st0, i, release);
    JustifiedStep(g, init, st, st', i, release);
    PrecedesStep(g, init, st, st', i, release);
    InOrderIs(g, init, st');
  }

  lemma TookFacts(g: Graph, init: seq<nat>, st: State, st0: State, i: nat, release: bool)
    requires GraphOk(g) && Took(g, init, st, st0, i, release)
    ensures st0.done == st.done && st0.out == st.out && st0.released == st.released
    ensures IsNode(g, i) && i < |st.after| == |g.after| && |st0.after| == |st0.weakAfter| == |g.after|
    ensures release <==> st.after[i] == {}
    ensures IsTypeNode(g, i) ==> Supplied(g, init, st.released, i)
  {
  }

  ghost predicate AllJustified(g: Graph, init: seq<nat>, released: seq<nat>)
    requires GraphOk(g)
  {
    forall k :: 0 <= k < |released| ==> Justified(g, init, released[..k], released[k])
  }

  ghost predicate AllInOrder(g: Graph, st: State) {
    forall k, l :: 0 <= k < l < |st.released| && st.released[k] < |g.items| && st.released[l] < |g.items| ==>
      Precedes(st.out, st.released[k], st.released[l])
  }

  lemma InOrderIs(g: Graph, init: seq<nat>, st: State)
    requires GraphOk(g) && AllJustified(g, init, st.released) && AllInOrder(g, st)
    ensures InOrder(g, init, st)
  {
  }

  lemma JustifiedStep(g: Graph, init: seq<nat>, st: State, st': State, i: nat, release: bool)
    requires GraphOk(g) && InGraph(g, st) && Exact(g, st) && InOrder(g, init, st) && IsNode(g, i)
    requires release ==> st.after[i] == {} && (IsTypeNode(g, i) ==> Supplied(g, init, st.released, i))
    requires st'.released == if release then st.released + [i] else st.released
    ensures AllJustified(g, init, st'.released)
  {
    if release {
      forall y | y in g.after[i] ensures y in st.released {
        assert y !in st.after[i];
      }
      assert Justified(g, init, st.released, i);
    }
    hide Justified, Exact, InGraph, GraphOk;
    forall k | 0 <= k < |st'.released| ensures Justified(g, init, st'.released[..k], st'.released[k]) {
      assert st'.released[..k] == if k < |st.released| then st.released[..k] else st.released;
    }
  }

  lemma PrecedesStep(g: Graph, init: seq<nat>, st: State, st': State, i: nat, release: bool)
    requires GraphOk(g) && InOrder(g, init, st) && Emitted(g, st)
    requires st'.released == if release then st.released + [i] else st.released
    requires st'.out == if i < |g.items| then st.out + [i] else st.out
    ensures AllInOrder(g, st')
  {
    hide Justified, GraphOk;
    forall k, l | 0 <= k < l < |st'.released| && st'.released[k] < |g.items| && st'.released[l] < |g.items|
      ensures Precedes(st'.out, st'.released[k], st'.released[l])
    {
      assert st.released[k] in st.released;
      if l < |st.released| {
        PrecedesGrows(st.out, st'.out, st.released[k], st.released[l]);
      } else {
        LastIsPreceded(st.out, st.released[k], i);
      }
    }
  }

  lemma LastIsPreceded(s: seq<nat>, a: nat, i: nat)
    requires a in s
    ensures Precedes(s + [i], a, i)
  {
    var p :| 0 <= p < |s| && s[p] == a;
    assert (s + [i])[p] == a && (s + [i])[|s|] == i;
  }

  lemma PrecedesGrows(s: seq<nat>, s': seq<nat>, a: nat, b: nat)
    requires s <= s' && Precedes(s, a, b)
    ensures Precedes(s', a, b)
  {
  }

  lemma ChosenWasTaken(g: Graph, init: seq<nat>, st: State)
    requires GraphOk(g) && InGraph(g, st) && HeapsReady(g, init, st) && !Finished(st)
    ensures
      var (st0, i, release) := Chosen(g, st);
      && Took(g, init, st, st0, i, release)
      && (st0.queue == st.queue || (st.queue != [] && st.queue[0] == i && st0.queue == st.queue[1..]))
      && (st0.queue == st.queue ==> st.after[i] == {})
  {
    if st.unblocked == multiset{} && st.weakBlocked == multiset{} {
      QueueTaken(g, init, st);
    } else {
      HeapTaken(g, init, st);
    }
  }

  lemma QueueTaken(g: Graph, init: seq<nat>, st: State)
    requires GraphOk(g) && InGraph(g, st) && !Finished(st) && st.unblocked == multiset{} && st.weakBlocked == multiset{}
    ensures
      var (st0, i, release) := Chosen(g, st);
      Took(g, init, st, st0, i, release) && st.queue[0] == i && st0.queue == st.queue[1..] && |st0.queue| < |st.queue|
  {
    hide GraphOk;
    ChosenInGraph(g, st);
    assert st.queue[0] in st.queue;
  }

  lemma HeapTaken(g: Graph, init: seq<nat>, st: State)
    requires GraphOk(g) && InGraph(g, st) && HeapsReady(g, init, st) && !Finished(st)
    requires st.unblocked != multiset{} || st.weakBlocked != multiset{}
    ensures
      var (st0, i, release) := Chosen(g, st);
      Took(g, init, st, st0, i, release) && st0.queue == st.queue && st.after[i] == {}
  {
    hide GraphOk, Supplied;
    ChosenInGraph(g, st);
    assert InHeaps(st, Chosen(g, st).1);
  }

  lemma InvStep(g: Graph, init: seq<nat>, st: State)
    requires Inv(g, init, st) && !Finished(st)
    ensures Inv(g, init, Step(g, st))
  {
    ChosenWasTaken(g, init, st);
    ChosenInGraph(g, st);
    var (st0, i, release) := Chosen(g, st);
    var st' := ProcessOne(g, st0, i, release);
    ProcessStaysInGraph(g, st0, i, release);
    TakenKeepsInv(g, init, st, st0, i, release);
  }

  lemma TakenKeepsInv(g: Graph, init: seq<nat>, st: State, st0: State, i: nat, release: bool)
    requires Inv(g, init, st) && Took(g, init, st, st0, i, release)
    requires st0.queue == st.queue || (st.queue != [] && st.queue[0] == i && st0.queue == st.queue[1..])
    requires st0.queue == st.queue ==> st.after[i] == {}
    requires InGraph(g, ProcessOne(g, st0, i, release))
    ensures Inv(g, init, ProcessOne(g, st0, i, release))
  {
    var m :| FixedInOrder(g, st, m);
    TakenWasFree(g, st, i);
    if st.queue != [] {
      FixedHead(g, st, m);
    }
    assert (i < |g.items| && !g.items[i].reorder) || release;
    SameWaits(g, st, st0);
    assert Emitted(g, st0);
    hide FixedInOrder, InOrder, HeapsReady, Emitted, Exact, Justified, Supplied;
    ProcessKeepsFixed(g, st, st0, m, i, release);
    EmittedStep(g, st0, i, release);
    ExactStep(g, st0, i, release);
    if i in st.done {
      SameButTaken(g, init, st, st0, i);
    } else {
      HeapsStep(g, init, st, st0, i, release);
      InOrderStep(g, init, st, st0, i, release);
    }
  }

  lemma TakenWasFree(g: Graph, st: State, i: nat)
    requires GraphOk(g) && InGraph(g, st) && Exact(g, st) && IsNode(g, i)
    ensures st.after[i] == {} ==> forall y :: y in g.after[i] ==> y in st.released
    ensures !(i < |g.items|) ==> st.after[i] == {}
  {
    if st.after[i] == {} {
      forall y | y in g.after[i] ensures y in st.released {
        assert y !in st.after[i];
      }
    }
    if !(i < |g.items|) {
      TypeNodesWaitForNothing(g, i);
      assert forall y: nat :: y in st.after[i] ==> y in g.after[i];
    }
  }

  lemma FixedHead(g: Graph, st: State, m: nat)
    requires FixedInOrder(g, st, m) && st.queue != []
    ensures st.queue[0] < |g.items| && !g.items[st.queue[0]].reorder
  {
    var f := Fixed(g.items, |g.items|);
    FixedFacts(g.items, |g.items|);
    assert st.queue[0] == f[|f| - |st.queue|];
    assert st.queue[0] in f;
  }

  // Taking a node that was done before changes nothing else.
  lemma SameButTaken(g: Graph, init: seq<nat>, st: State, st0: State, i: nat)
    requires GraphOk(g) && InGraph(g, st) && InGraph(g, st0)
    requires HeapsReady(g, init, st) && InOrder(g, init, st)
    requires i in st.done
    requires st0.done == st.done && st0.out == st.out && st0.released == st.released && st0.after == st.after
    requires forall x: nat :: InHeaps(st0, x) ==> InHeaps(st, x)
    requires forall x: nat :: InHeaps(st, x) ==> InHeaps(st0, x) || x == i
    ensures HeapsReady(g, init, st0) && InOrder(g, init, st0)
  {
  }

  lemma InvRun(g: Graph, init: seq<nat>, st: State)
    requires Inv(g, init, st)
    ensures Inv(g, init, Run(g, st)) && Finished(Run(g, st))
    decreases Undone(g, st), Waiting(st)
  {
    if !Finished(st) {
      InvStep(g, init, st);
      StepProgresses(g, st);
      InvRun(g, init, Step(g, st));
    }
  }

  ghost function Final(g: Graph, init: seq<nat>): State
    requires GraphOk(g) && Chained(g) && forall x :: x in init ==> IsTypeNode(g, x)
  {
    InvHoldsInitially(g, init);
    Run(g, InitialState(g, init))
  }

  lemma FinalInv(g: Graph, init: seq<nat>)
    requires GraphOk(g) && Chained(g) && forall x :: x in init ==> IsTypeNode(g, x)
    ensures Inv(g, init, Final(g, init)) && Finished(Final(g, init))
  {
    InvHoldsInitially(g, init);
    InvRun(g, init, InitialState(g, init));
  }

  lemma LengthOfPermutation(s: seq<nat>, n: nat)
    requires Distinct(s) && forall x: nat :: x in s <==> x < n
    ensures |s| == n
  {
    assert Elements(s) == UpTo(n);
    DistinctCount(s);
    UpToCount(n);
  }

  function Elements(s: seq<nat>): set<nat> {
    set x | x in s
  }

  lemma {:induction false} DistinctCount(s: seq<nat>)
    requires Distinct(s)
    ensures |Elements(s)| == |s|
  {
    if s != [] {
      var t, last := s[..|s| - 1], s[|s| - 1];
      DistinctCount(t);
      assert s == t + [last];
      assert Elements(s) == Elements(t) + {last};
      assert last !in Elements(t);
    }
  }

  lemma UpToCount(n: nat)
    ensures |UpTo(n)| == n
  {
  }

  // reorder returns every provider exactly once, so the check on their number cannot fail.
  lemma ResultIsPermutation(g: Graph, init: seq<nat>)
    requires GraphOk(g) && Chained(g) && forall x :: x in init ==> IsTypeNode(g, x)
    ensures
      var r := Result(g, Final(g, init));
      Distinct(r) && |r| == |g.items| && forall x: nat :: x in r <==> x < |g.items|
  {
    FinalInv(g, init);
    EmittedMakesPermutation(g, Final(g, init));
  }

  lemma EmittedMakesPermutation(g: Graph, st: State)
    requires Emitted(g, st)
    ensures
      var r := Result(g, st);
      Distinct(r) && |r| == |g.items| && forall x: nat :: x in r <==> x < |g.items|
  {
    var r := Result(g, st);
    var left := Leftovers(st.done, |g.items|);
    LeftoversFacts(st.done, |g.items|);
    forall k, l | 0 <= k < l < |r| ensures r[k] != r[l] {
      if k < |st.out| <= l {
        assert r[k] in st.out && r[l] in left;
      }
    }
    LengthOfPermutation(r, |g.items|);
  }

  // Providers not marked Reorder come out in exactly their original order.
  lemma FixedKeepOrder(g: Graph, init: seq<nat>)
    requires GraphOk(g) && Chained(g) && forall x :: x in init ==> IsTypeNode(g, x)
    ensures KeepFixed(g, Result(g, Final(g, init))) == Fixed(g.items, |g.items|)
  {
    FinalInv(g, init);
    var st := Final(g, init);
    var f := Fixed(g.items, |g.items|);
    var m: nat :| FixedInOrder(g, st, m);
    assert m == |f| && f[..m] == f;
    var left := Leftovers(st.done, |g.items|);
    FixedFacts(g.items, |g.items|);
    LeftoversFacts(st.done, |g.items|);
    forall x | x in left ensures x < |g.items| && g.items[x].reorder {
      assert x !in f;
    }
    KeepFixedSkips(g, st.out, left);
  }

  lemma {:induction false} KeepFixedSkips(g: Graph, s: seq<nat>, t: seq<nat>)
    requires forall x :: x in t ==> x < |g.items| && g.items[x].reorder
    ensures KeepFixed(g, s + t) == KeepFixed(g, s)
  {
    if t == [] {
      assert s + t == s;
    } else {
      var t0 := t[..|t| - 1];
      assert t == t0 + [t[|t| - 1]];
      assert forall x :: x in t0 ==> x in t;
      assert s + t == (s + t0) + [t[|t| - 1]];
      KeepFixedSkips(g, s, t0);
      KeepFixedAppend(g, s + t0, t[|t| - 1]);
    }
  }

  // A released provider comes after every provider it is strongly after, and, for every type it
  // waits for, after a released provider of that type unless the type was available from the start.
  lemma StrongOrder(g: Graph, init: seq<nat>, x: nat, y: nat)
    requires GraphOk(g) && Chained(g) && forall x :: x in init ==> IsTypeNode(g, x)
    requires x < |g.items| && x in Final(g, init).released && y in g.after[x]
    ensures
      var st := Final(g, init);
      if y < |g.items| then y in st.released && Precedes(Result(g, st), y, x)
      else y in init
           || exists z ::
                z < |g.items| && z in st.released && y in Gives(g, z) && Precedes(Result(g, st), z, x)
  {
    hide *;
    FinalInv(g, init);
    var st := Final(g, init);
    ResultGrows(g, st);
    var k, j := WaitedFor(g, init, st, x, y);
    if y < |g.items| {
      ReleasedInOrder(g, init, st, j, k);
      PrecedesGrows(st.out, Result(g, st), y, x);
    } else if y !in init {
      var l := SuppliedBefore(g, init, st, j);
      ReleasedInOrder(g, init, st, l, k);
      PrecedesGrows(st.out, Result(g, st), st.released[l], x);
    }
  }

  lemma ResultGrows(g: Graph, st: State)
    ensures st.out <= Result(g, st)
  {
  }

  // A released provider has been released after everything it waited for.
  lemma WaitedFor(g: Graph, init: seq<nat>, st: State, x: nat, y: nat) returns (k: nat, j: nat)
    requires Inv(g, init, st) && x in st.released && x < |g.items| && y in g.after[x]
    ensures j < k < |st.released| && st.released[k] == x && st.released[j] == y
  {
    k :| 0 <= k < |st.released| && st.released[k] == x;
    assert Justified(g, init, st.released[..k], st.released[k]);
    j :| 0 <= j < k && st.released[j] == y;
  }

  lemma ReleasedInOrder(g: Graph, init: seq<nat>, st: State, j: nat, k: nat)
    requires Inv(g, init, st) && j < k < |st.released| && st.released[j] < |g.items| && st.released[k] < |g.items|
    ensures Precedes(st.out, st.released[j], st.released[k]) && st.released[j] in st.released
  {
  }

  // A type node has been released after somebody who gives the type.
  lemma SuppliedBefore(g: Graph, init: seq<nat>, st: State, j: nat) returns (l: nat)
    requires Inv(g, init, st) && j < |st.released| && st.released[j] >= |g.items| && st.released[j] !in init
    ensures l < j && st.released[l] < |g.items| && st.released[j] in Gives(g, st.released[l])
  {
    var y := st.released[j];
    assert Justified(g, init, st.released[..j], y);
    var z :| z in st.released[..j] && z < |g.items| && y in Gives(g, z);
    l :| 0 <= l < j && st.released[l] == z;
  }

  // Providers that wait for nothing never get into a heap.
  ghost predicate Called(g: Graph, st: State)
    requires |g.items| <= |g.after|
  {
    forall x: nat :: x < |g.items| && (InHeaps(st, x) || (x in st.done && g.items[x].reorder)) ==> g.after[x] != {}
  }

  lemma HeapsAfterReleasing(g: Graph, st: State, i: nat, x: nat)
    requires i < |g.before| == |g.weakBefore| && |st.after| == |st.weakAfter|
    requires InHeaps(ReleaseNode(g, st, i), x)
    ensures InHeaps(st, x) || x in g.before[i]
  {
  }

  lemma TypesInHeaps(g: Graph, st: State, i: nat, x: nat)
    requires i < |g.items| && InHeaps(ReleaseProvider(g, st, i), x)
    ensures InHeaps(st, x) || x in Gives(g, i)
  {
  }

  // What processing a node adds to the heaps.
  lemma HeapsAfterProcessing(g: Graph, st: State, i: nat, release: bool, x: nat)
    requires GraphOk(g) && IsNode(g, i) && |st.after| == |st.weakAfter| == |g.after|
    requires x < |g.items| && InHeaps(ProcessOne(g, st, i, release), x)
    ensures InHeaps(st, x) || g.after[x] != {}
  {
    hide ReleaseNode, ReleaseProvider, Gives;
    if i !in st.done && release {
      var s1 := st.(done := st.done + {i},
                    out := if i < |g.items| then st.out + [i] else st.out,
                    released := st.released + [i]);
      if i < |g.items| {
        TypesInHeaps(g, ReleaseNode(g, s1, i), i, x);
        GivesTypeNodes(g, i);
      }
      if InHeaps(ReleaseNode(g, s1, i), x) {
        HeapsAfterReleasing(g, s1, i, x);
        assert x in g.before[i] ==> i in g.after[x];
      }
    }
  }

  lemma ProcessDone(g: Graph, st: State, i: nat, release: bool)
    requires GraphOk(g) && IsNode(g, i) && |st.after| == |st.weakAfter|
    ensures ProcessOne(g, st, i, release).done == st.done + {i}
  {
  }

  lemma QueueIsFixed(g: Graph, init: seq<nat>, st: State)
    requires Inv(g, init, st) && st.queue != []
    ensures st.queue[0] < |g.items| && !g.items[st.queue[0]].reorder
  {
    var m: nat :| FixedInOrder(g, st, m);
    var f := Fixed(g.items, |g.items|);
    FixedFacts(g.items, |g.items|);
    assert st.queue[0] == f[|f| - |st.queue|];
    assert st.queue[0] in f;
  }

  lemma ChosenIs(g: Graph, init: seq<nat>, st: State)
    requires Inv(g, init, st) && !Finished(st)
    ensures
      var (st0, i, release) := Chosen(g, st);
      && InGraph(g, st0) && IsNode(g, i) && st0.done == st.done && |st0.after| == |st0.weakAfter|
      && (InHeaps(st, i) || (i < |g.items| && !g.items[i].reorder))
      && (forall x: nat :: InHeaps(st0, x) ==> InHeaps(st, x))
      && Step(g, st) == ProcessOne(g, st0, i, release)
  {
    ChosenInGraph(g, st);
    if st.queue != [] {
      QueueIsFixed(g, init, st);
    }
  }

  lemma InvIsGraph(g: Graph, init: seq<nat>, st: State)
    requires Inv(g, init, st)
    ensures GraphOk(g) && InGraph(g, st) && |g.items| <= |g.after|
  {
  }

  lemma CalledStep(g: Graph, init: seq<nat>, st: State)
    requires |g.items| <= |g.after| && Inv(g, init, st) && Called(g, st) && !Finished(st)
    ensures Called(g, Step(g, st))
  {
    hide Inv, GraphOk, InGraph, ProcessOne, Chosen, InHeaps, Step;
    InvIsGraph(g, init, st);
    ChosenIs(g, init, st);
    var (st0, i, release) := Chosen(g, st);
    ProcessDone(g, st0, i, release);
    forall x: nat | x < |g.items| && InHeaps(Step(g, st), x) ensures g.after[x] != {} {
      HeapsAfterProcessing(g, st0, i, release, x);
    }
  }

  lemma {:induction false} CalledRun(g: Graph, init: seq<nat>, st: State)
    requires |g.items| <= |g.after| && Inv(g, init, st) && Called(g, st)
    ensures GraphOk(g) && InGraph(g, st) && Called(g, Run(g, st))
    decreases Undone(g, st), Waiting(st)
  {
    InvIsGraph(g, init, st);
    hide Inv, Called, GraphOk, InGraph, Step;
    if !Finished(st) {
      StepProgresses(g, st);
      InvStep(g, init, st);
      CalledStep(g, init, st);
      CalledRun(g, init, Step(g, st));
    }
  }

  lemma FinalCalled(g: Graph, init: seq<nat>)
    requires GraphOk(g) && Chained(g) && forall x :: x in init ==> IsTypeNode(g, x)
    ensures Called(g, Final(g, init))
  {
    InvHoldsInitially(g, init);
    CalledRun(g, init, InitialState(g, init));
  }

  // A provider marked Reorder is released, and otherwise given up, exactly if it waits for something and
  // everything it waits for is released: one that waits for nothing is always given up.
  lemma ReleasedExactlyIfMet(g: Graph, init: seq<nat>, x: nat)
    requires GraphOk(g) && Chained(g) && forall x :: x in init ==> IsTypeNode(g, x)
    requires x < |g.items| && g.items[x].reorder
    ensures
      var st := Final(g, init);
      && (x in st.released <==> g.after[x] != {} && forall y :: y in g.after[x] ==> y in st.released)
      && (x in st.released <==> x in st.done)
  {
    FinalInv(g, init);
    FinalCalled(g, init);
    var st := Final(g, init);
    if x in st.released {
      var k :| 0 <= k < |st.released| && st.released[k] == x;
      assert Justified(g, init, st.released[..k], st.released[k]);
    }
  }

  // A type is released exactly if it was there from the start or a released provider supplies it.
  lemma TypeReleasedExactlyIfSupplied(g: Graph, init: seq<nat>, x: nat)
    requires GraphOk(g) && Chained(g) && forall x :: x in init ==> IsTypeNode(g, x)
    requires IsTypeNode(g, x)
    ensures x in Final(g, init).released <==> Supplied(g, init, Final(g, init).released, x)
  {
    FinalInv(g, init);
    var st := Final(g, init);
    if x in st.released {
      var k :| 0 <= k < |st.released| && st.released[k] == x;
      assert Justified(g, init, st.released[..k], st.released[k]);
    }
  }
}
