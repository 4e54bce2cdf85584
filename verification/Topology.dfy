/**
 The scheduler of reorder.go as a deterministic step function on values: what one step of topo.run
 does, and what every run keeps.
 */
module Topology {
  import opened Basics

  // What reorder looks at in a provider.
  datatype Group = StaticGroup | RunGroup | OtherGroup

  datatype Item = Item(
    reorder: bool,
    group: Group,
    inputs: seq<TypeCode>,
    outputs: seq<TypeCode>,
    returned: seq<TypeCode>,
    received: seq<TypeCode>,
    consumptionOptional: set<TypeCode>)

  // Nodes below |items| are providers; the node of that number is unused; the nodes above it stand
  // for types.  'before' and 'after' are the strong relations, 'downTypes' and 'upTypes' number the
  // types sent down and returned up.
  datatype Graph = Graph(
    items: seq<Item>,
    before: seq<set<nat>>,
    after: seq<set<nat>>,
    weakBefore: seq<set<nat>>,
    weakAfter: seq<set<nat>>,
    downTypes: map<TypeCode, nat>,
    upTypes: map<TypeCode, nat>)

  // 'released' lists the nodes processed with their relations released, in order.
  datatype State = State(
    after: seq<set<nat>>,
    weakAfter: seq<set<nat>>,
    unblocked: multiset<nat>,
    weakBlocked: multiset<nat>,
    queue: seq<nat>,
    done: set<nat>,
    out: seq<nat>,
    released: seq<nat>)

  predicate IsTypeNode(g: Graph, x: nat) {
    |g.items| < x < |g.after|
  }

  predicate IsNode(g: Graph, x: nat) {
    x < |g.items| || IsTypeNode(g, x)
  }

  ghost predicate GraphOk(g: Graph) {
    && |g.items| < |g.after| == |g.before| == |g.weakBefore| == |g.weakAfter|
    && (forall i: nat, j: nat :: i < |g.after| && j < |g.after| ==> (j in g.after[i] <==> i in g.before[j]))
    && (forall i: nat, x :: i < |g.after| && x in g.after[i] ==> IsNode(g, x))
    && (forall i: nat, x :: i < |g.before| && x in g.before[i] ==> x < |g.items|)
    && (forall i: nat, x :: i < |g.before| && x in g.weakBefore[i] ==> x < |g.items|)
    && (forall t :: t in g.downTypes ==> IsTypeNode(g, g.downTypes[t]))
    && (forall t :: t in g.upTypes ==> IsTypeNode(g, g.upTypes[t]))
  }

  // The providers that may not be moved, in their original order.
  function Fixed(items: seq<Item>, n: nat): seq<nat>
    requires n <= |items|
  {
    if n == 0 then [] else Fixed(items, n - 1) + if items[n - 1].reorder then [] else [n - 1]
  }

  ghost predicate Increasing(f: seq<nat>) {
    forall k, l :: 0 <= k < l < |f| ==> f[k] < f[l]
  }

  lemma FixedFacts(items: seq<Item>, n: nat)
    requires n <= |items|
    ensures forall x: nat :: x in Fixed(items, n) <==> x < n && !items[x].reorder
    ensures Increasing(Fixed(items, n))
  {
    if n > 0 {
      FixedFacts(items, n - 1);
      var f := Fixed(items, n - 1);
      assert forall k :: 0 <= k < |f| ==> f[k] in f;
    }
  }

  // Consecutive fixed providers are strongly ordered.
  ghost predicate Chained(g: Graph)
    requires |g.items| <= |g.after|
  {
    var f := Fixed(g.items, |g.items|);
    forall k :: 0 < k < |f| ==> f[k] < |g.after| && f[k - 1] in g.after[f[k]]
  }

  // Type nodes released by a provider: those of what it sends down, then of what it receives.
  function NodesOf(types: seq<TypeCode>, numbers: map<TypeCode, nat>): (r: seq<nat>)
    ensures forall x :: x in r <==> exists t :: t in types && t != NO_TYPE && t in numbers && numbers[t] == x
  {
    if types == [] then [] else
      var rest := NodesOf(types[1..], numbers);
      if types[0] != NO_TYPE && types[0] in numbers then [numbers[types[0]]] + rest else rest
  }

  function Gives(g: Graph, i: nat): seq<nat>
    requires i < |g.items|
  {
    NodesOf(g.items[i].outputs, g.downTypes) + NodesOf(g.items[i].received, g.upTypes)
  }

  // The heaps' ordering: providers to be reordered come first, in original order (intheap.go:29-35).
  function Priority(g: Graph, i: nat): int {
    if i < |g.items| && g.items[i].reorder then i - |g.items| else i
  }

  predicate IsLeast(g: Graph, m: multiset<nat>, x: nat) {
    x in m && forall y :: y in m ==> Priority(g, x) <= Priority(g, y)
  }

  lemma LeastExists(g: Graph, m: multiset<nat>)
    requires m != multiset{}
    ensures exists x :: IsLeast(g, m, x)
    decreases |m|
  {
    var x :| x in m;
    var rest := m - multiset{x};
    if rest == multiset{} {
      assert forall y :: y in m ==> y == x || y in rest;
      assert IsLeast(g, m, x);
    } else {
      LeastExists(g, rest);
      var z :| IsLeast(g, rest, z);
      assert forall y :: y in m ==> y == x || y in rest;
      assert IsLeast(g, m, if Priority(g, x) <= Priority(g, z) then x else z);
    }
  }

  // No two nodes have the same priority, so what is popped does not depend on the heap's layout.
  lemma LeastIsUnique(g: Graph, m: multiset<nat>, x: nat, y: nat)
    requires IsLeast(g, m, x) && IsLeast(g, m, y)
    ensures x == y
  {
  }

  ghost function Least(g: Graph, m: multiset<nat>): (x: nat)
    requires m != multiset{}
    ensures IsLeast(g, m, x)
  {
    LeastExists(g, m);
    var x :| IsLeast(g, m, x);
    x
  }

  // Node 'i' no longer holds back the nodes 'ns': only weakly, or altogether.
  function Cleared(rel: seq<set<nat>>, i: nat, ns: set<nat>): (r: seq<set<nat>>)
    ensures |r| == |rel|
    ensures forall n :: 0 <= n < |rel| ==> r[n] == if n in ns then rel[n] - {i} else rel[n]
  {
    seq(|rel|, n requires 0 <= n < |rel| => if n in ns then rel[n] - {i} else rel[n])
  }

  // Once 'i' no longer holds them back, the nodes of 'ns' that nothing holds back any more, and
  // those that are only held back weakly.
  function Quiet(st: State, i: nat, ns: set<nat>): set<nat>
    requires |st.after| == |st.weakAfter|
  {
    set n | n in ns && n < |st.after| && st.after[n] - {i} == {} && st.weakAfter[n] - {i} == {}
  }

  function Stirred(st: State, i: nat, ns: set<nat>): set<nat>
    requires |st.after| == |st.weakAfter|
  {
    set n | n in ns && n < |st.after| && st.after[n] - {i} == {} && st.weakAfter[n] - {i} != {}
  }

  function ReleaseWeakly(st: State, i: nat, ns: set<nat>): State {
    st.(weakAfter := Cleared(st.weakAfter, i, ns))
  }

  // The effect of release(n, i) for every n in 'ns', in any order.
  function ReleaseAll(st: State, i: nat, ns: set<nat>): State
    requires |st.after| == |st.weakAfter|
  {
    st.(after := Cleared(st.after, i, ns), weakAfter := Cleared(st.weakAfter, i, ns),
        unblocked := st.unblocked + multiset(Quiet(st, i, ns)),
        weakBlocked := st.weakBlocked + multiset(Stirred(st, i, ns)))
  }

  // release(n, i) for a provider 'n', branch by branch.
  function ReleaseOne(st: State, i: nat, n: nat): (r: State)
    requires n < |st.after| == |st.weakAfter|
    ensures |r.after| == |r.weakAfter| == |st.after|
  {
    var after := st.after[n := st.after[n] - {i}];
    var weakAfter := st.weakAfter[n := st.weakAfter[n] - {i}];
    var s := st.(after := after, weakAfter := weakAfter);
    if after[n] != {} then s
    else if weakAfter[n] == {} then s.(unblocked := st.unblocked + multiset{n})
    else s.(weakBlocked := st.weakBlocked + multiset{n})
  }

  lemma ReleaseNone(st: State, i: nat)
    requires |st.after| == |st.weakAfter|
    ensures ReleaseAll(st, i, {}) == st
  {
  }

  // Releasing one after the other, in whatever order, adds up.
  lemma ReleaseOneMore(st: State, i: nat, ns: set<nat>, n: nat)
    requires n < |st.after| == |st.weakAfter| && n !in ns
    ensures ReleaseAll(st, i, ns + {n}) == ReleaseOne(ReleaseAll(st, i, ns), i, n)
  {
    assert Cleared(st.after, i, ns + {n}) == Cleared(st.after, i, ns)[n := st.after[n] - {i}];
    assert Cleared(st.weakAfter, i, ns + {n}) == Cleared(st.weakAfter, i, ns)[n := st.weakAfter[n] - {i}];
    assert Cleared(st.after, i, ns)[n] == st.after[n] && Cleared(st.weakAfter, i, ns)[n] == st.weakAfter[n];
    QuietOneMore(st, i, ns, n);
    hide Cleared, Quiet, Stirred;
    OneMore(st.unblocked, Quiet(st, i, ns), n);
    OneMore(st.weakBlocked, Stirred(st, i, ns), n);
  }

  lemma QuietOneMore(st: State, i: nat, ns: set<nat>, n: nat)
    requires n < |st.after| == |st.weakAfter| && n !in ns
    ensures
      var free, calm := st.after[n] - {i} == {}, st.weakAfter[n] - {i} == {};
      && Quiet(st, i, ns + {n}) == (if free && calm then Quiet(st, i, ns) + {n} else Quiet(st, i, ns))
      && Stirred(st, i, ns + {n}) == (if free && !calm then Stirred(st, i, ns) + {n} else Stirred(st, i, ns))
      && n !in Quiet(st, i, ns) && n !in Stirred(st, i, ns)
  {
  }

  lemma OneMore(u: multiset<nat>, a: set<nat>, n: nat)
    requires n !in a
    ensures u + multiset(a + {n}) == (u + multiset(a)) + multiset{n}
  {
  }

  function ReleaseNode(g: Graph, st: State, i: nat): (r: State)
    requires i < |g.before| == |g.weakBefore| && |st.after| == |st.weakAfter|
    ensures |r.after| == |r.weakAfter| == |st.after|
  {
    ReleaseAll(ReleaseWeakly(st, i, g.weakBefore[i]), i, g.before[i])
  }

  function ReleaseProvider(g: Graph, st: State, i: nat): State
    requires i < |g.items|
  {
    st.(unblocked := st.unblocked + multiset(Gives(g, i)))
  }

  function ProcessOne(g: Graph, st: State, i: nat, release: bool): State
    requires GraphOk(g) && IsNode(g, i) && |st.after| == |st.weakAfter|
  {
    if i in st.done then st
    else
      var s1 := st.(done := st.done + {i},
                    out := if i < |g.items| then st.out + [i] else st.out,
                    released := if release then st.released + [i] else st.released);
      if !release then s1
      else if i < |g.items| then ReleaseProvider(g, ReleaseNode(g, s1, i), i)
      else ReleaseNode(g, s1, i)
  }

  predicate Finished(st: State) {
    st.unblocked == multiset{} && st.weakBlocked == multiset{} && st.queue == []
  }

  // The state is about nodes of the graph.
  ghost predicate InGraph(g: Graph, st: State) {
    && |st.after| == |st.weakAfter| == |g.after|
    && (forall x :: x in st.unblocked ==> IsNode(g, x))
    && (forall x :: x in st.weakBlocked ==> IsNode(g, x))
    && (forall x :: x in st.queue ==> x < |g.items|)
    && (forall x :: x in st.done ==> x < |g.after|)
  }

  ghost function Step(g: Graph, st: State): State
    requires GraphOk(g) && InGraph(g, st) && !Finished(st)
  {
    ChosenInGraph(g, st);
    var (st0, i, release) := Chosen(g, st);
    ProcessOne(g, st0, i, release)
  }

  // Steps end: every step takes a node from a heap or the queue, and only a node not yet done adds any.
  ghost function Undone(g: Graph, st: State): nat
    requires InGraph(g, st)
  {
    |UpTo(|g.after|) - st.done|
  }

  ghost function Waiting(st: State): nat {
    |st.unblocked| + |st.weakBlocked| + |st.queue|
  }

  lemma GivesTypeNodes(g: Graph, i: nat)
    requires GraphOk(g) && i < |g.items|
    ensures forall x :: x in Gives(g, i) ==> IsTypeNode(g, x)
  {
  }

  lemma ReleaseStaysInGraph(g: Graph, st: State, i: nat)
    requires GraphOk(g) && InGraph(g, st) && IsNode(g, i)
    ensures InGraph(g, ReleaseNode(g, st, i))
    ensures ReleaseNode(g, st, i).done == st.done
  {
  }

  lemma ProcessStaysInGraph(g: Graph, st: State, i: nat, release: bool)
    requires GraphOk(g) && InGraph(g, st) && IsNode(g, i)
    ensures InGraph(g, ProcessOne(g, st, i, release))
    ensures i in st.done ==> ProcessOne(g, st, i, release) == st
    ensures i !in st.done ==> Undone(g, ProcessOne(g, st, i, release)) < Undone(g, st)
  {
    var st' := ProcessOne(g, st, i, release);
    if i !in st.done {
      var s1 := st.(done := st.done + {i},
                    out := if i < |g.items| then st.out + [i] else st.out,
                    released := if release then st.released + [i] else st.released);
      assert InGraph(g, s1);
      assert UpTo(|g.after|) - s1.done == UpTo(|g.after|) - st.done - {i};
      ReleaseStaysInGraph(g, s1, i);
      if release && i < |g.items| {
        GivesTypeNodes(g, i);
      }
      hide ReleaseNode, Gives, GraphOk;
    }
  }

  lemma StepProgresses(g: Graph, st: State)
    requires GraphOk(g) && InGraph(g, st) && !Finished(st)
    ensures InGraph(g, Step(g, st))
    ensures Undone(g, Step(g, st)) < Undone(g, st)
            || (Undone(g, Step(g, st)) == Undone(g, st) && Waiting(Step(g, st)) < Waiting(st))
  {
    var (st0, i, release) := Chosen(g, st);
    ChosenInGraph(g, st);
    hide GraphOk, InGraph;
    ProcessStaysInGraph(g, st0, i, release);
    hide ProcessOne;
  }

  // What the next step takes, the state it leaves behind, and whether it releases.
  ghost function Chosen(g: Graph, st: State): (r: (State, nat, bool))
    requires GraphOk(g) && InGraph(g, st) && !Finished(st)
  {
    if st.unblocked != multiset{} then
      var i := Least(g, st.unblocked);
      (st.(unblocked := st.unblocked - multiset{i}), i, true)
    else if st.weakBlocked != multiset{} then
      var i := Least(g, st.weakBlocked);
      (st.(weakBlocked := st.weakBlocked - multiset{i}), i, true)
    else
      assert st.queue[0] in st.queue;
      (st.(queue := st.queue[1..]), st.queue[0], st.after[st.queue[0]] == {})
  }

  lemma ChosenInGraph(g: Graph, st: State)
    requires GraphOk(g) && InGraph(g, st) && !Finished(st)
    ensures
      var (st0, i, release) := Chosen(g, st);
      && InGraph(g, st0) && IsNode(g, i) && st0.done == st.done && Waiting(st0) < Waiting(st)
      && i < |st.after| == |st.weakAfter|
  {
    if st.unblocked == multiset{} && st.weakBlocked == multiset{} {
      assert st.queue[0] in st.queue;
      assert forall x :: x in st.queue[1..] ==> x in st.queue;
    }
  }

  ghost function Run(g: Graph, st: State): State
    requires GraphOk(g) && InGraph(g, st)
    decreases Undone(g, st), Waiting(st)
  {
    if Finished(st) then st
    else
      StepProgresses(g, st);
      Run(g, Step(g, st))
  }
}
