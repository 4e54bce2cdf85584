/**
 reorder.go: the working data of the topological sort, changed step by step, and the construction of
 the graph it works on.  container/heap is taken as a multiset from which a least element is removed.
 */
module TopoSort {
  import opened Basics
  import opened Topology
  import opened ReorderLaws

  class Topo {
    const g: Graph
    var after: seq<set<nat>>
    var weakAfter: seq<set<nat>>
    var unblocked: multiset<nat>
    var weakBlocked: multiset<nat>
    var cannotReorder: seq<nat>
    var done: set<nat>
    var reorderedFuncs: seq<nat>
    ghost var released: seq<nat>

    ghost function Now(): State
      reads this
    {
      State(after, weakAfter, unblocked, weakBlocked, cannotReorder, done, reorderedFuncs, released)
    }

    constructor (g: Graph, init: seq<nat>)
      ensures this.g == g && Now() == InitialState(g, init)
    {
      this.g := g;
      after, weakAfter := g.after, g.weakAfter;
      unblocked, weakBlocked := multiset(init), multiset{};
      cannotReorder := Fixed(g.items, |g.items|);
      done, reorderedFuncs, released := {}, [], [];
    }

    method PopLeast(heap: multiset<nat>) returns (i: nat, rest: multiset<nat>)
      requires heap != multiset{}
      ensures i == Least(g, heap) && rest == heap - multiset{i}
    {
      LeastExists(g, heap);
      i :| i in heap && IsLeast(g, heap, i);
      LeastIsUnique(g, heap, i, Least(g, heap));
      rest := heap - multiset{i};
    }

    method Release(n: nat, i: nat)
      requires |after| == |weakAfter|
      requires n < |g.items| ==> n < |after|
      modifies this`after, this`weakAfter, this`unblocked, this`weakBlocked
      ensures Now() == if n >= |g.items| then old(Now()).(unblocked := old(unblocked) + multiset{n})
                       else ReleaseOne(old(Now()), i, n)
    {
      if n >= |g.items| {
        unblocked := unblocked + multiset{n};
      } else {
        after := after[n := after[n] - {i}];
        weakAfter := weakAfter[n := weakAfter[n] - {i}];
        if after[n] == {} {
          if weakAfter[n] == {} {
            unblocked := unblocked + multiset{n};
          } else {
            weakBlocked := weakBlocked + multiset{n};
          }
        }
      }
    }

    method ReleaseNode(i: nat)
      requires GraphOk(g) && i < |g.before| && |after| == |weakAfter| == |g.after|
      modifies this`after, this`weakAfter, this`unblocked, this`weakBlocked
      ensures Now() == Topology.ReleaseNode(g, old(Now()), i)
    {
      ghost var start := Now();
      ReleaseWeak(i);
      ghost var before := Now();
      assert Topology.ReleaseNode(g, start, i) == ReleaseAll(before, i, g.before[i]);
      var todo := g.before[i];
      ReleaseNone(before, i);
      assert g.before[i] - todo == {};
      assert forall n :: n in g.before[i] ==> n < |g.items| < |g.after|;
      hide *;
      while todo != {}
        invariant todo <= g.before[i]
        invariant |after| == |weakAfter| == |g.after|
        invariant Now() == ReleaseAll(before, i, g.before[i] - todo)
      {
        var n := ReleaseSome(before, i, todo);
        todo := todo - {n};
      }
      assert g.before[i] - todo == g.before[i];
    }

    // One round of the loop of releaseNode, for whichever node comes next.
    method ReleaseSome(ghost before: State, i: nat, todo: set<nat>) returns (n: nat)
      requires i < |g.before| && todo <= g.before[i] && todo != {}
      requires |after| == |weakAfter| == |g.after| && |before.after| == |before.weakAfter| == |g.after|
      requires forall n :: n in g.before[i] ==> n < |g.items| < |g.after|
      requires Now() == ReleaseAll(before, i, g.before[i] - todo)
      modifies this`after, this`weakAfter, this`unblocked, this`weakBlocked
      ensures n in todo && |after| == |weakAfter| == |g.after|
      ensures Now() == ReleaseAll(before, i, g.before[i] - (todo - {n}))
    {
      n :| n in todo;
      assert n in g.before[i];
      ReleaseOneMore(before, i, g.before[i] - todo, n);
      assert g.before[i] - todo + {n} == g.before[i] - (todo - {n});
      hide ReleaseAll;
      Release(n, i);
    }

    method ReleaseWeak(i: nat)
      requires GraphOk(g) && i < |g.before| && |after| == |weakAfter| == |g.after|
      modifies this`weakAfter
      ensures Now() == ReleaseWeakly(old(Now()), i, g.weakBefore[i])
    {
      var todo, ns := g.weakBefore[i], {};
      while todo != {}
        invariant todo + ns == g.weakBefore[i] && todo !! ns
        invariant weakAfter == Cleared(old(weakAfter), i, ns)
      {
        var n :| n in todo;
        weakAfter := weakAfter[n := weakAfter[n] - {i}];
        todo, ns := todo - {n}, ns + {n};
      }
      assert ns == g.weakBefore[i];
    }

    // Releases the nodes of the types in one flow of provider 'i'.
    method ReleaseTypes(i: nat, types: seq<TypeCode>, numbers: map<TypeCode, nat>)
      requires GraphOk(g) && |after| == |weakAfter| == |g.after|
      requires forall t :: t in numbers ==> IsTypeNode(g, numbers[t])
      modifies this`after, this`weakAfter, this`unblocked, this`weakBlocked
      ensures Now() == old(Now()).(unblocked := old(unblocked) + multiset(NodesOf(types, numbers)))
    {
      for k := 0 to |types|
        invariant |after| == |weakAfter| == |g.after|
        invariant Now() == old(Now()).(unblocked := old(unblocked) + multiset(NodesOf(types[..k], numbers)))
      {
        NodesOfAppend(types[..k], types[k], numbers);
        assert types[..k + 1] == types[..k] + [types[k]];
        if types[k] != NO_TYPE && types[k] in numbers {
          Release(numbers[types[k]], i);
        }
      }
      assert types[..|types|] == types;
    }

    lemma {:induction false} NodesOfAppend(types: seq<TypeCode>, t: TypeCode, numbers: map<TypeCode, nat>)
      ensures NodesOf(types + [t], numbers) ==
                NodesOf(types, numbers) + if t != NO_TYPE && t in numbers then [numbers[t]] else []
    {
      if types == [] {
        assert types + [t] == [t];
      } else {
        NodesOfAppend(types[1..], t, numbers);
        assert (types + [t])[1..] == types[1..] + [t];
      }
    }

    method ReleaseProvider(i: nat)
      requires GraphOk(g) && i < |g.items| && |after| == |weakAfter| == |g.after|
      modifies this`after, this`weakAfter, this`unblocked, this`weakBlocked
      ensures Now() == Topology.ReleaseProvider(g, old(Now()), i)
    {
      ReleaseTypes(i, g.items[i].outputs, g.downTypes);
      ReleaseTypes(i, g.items[i].received, g.upTypes);
    }

    // The source tests i > len(funcs) rather than >=; the node of that number is never queued.
    method ProcessOne(i: nat, release: bool)
      requires GraphOk(g) && IsNode(g, i) && |after| == |weakAfter| == |g.after|
      modifies this
      ensures Now() == Topology.ProcessOne(g, old(Now()), i, release)
    {
      if i in done {
        return;
      }
      done := done + {i};
      if release {
        released := released + [i];
      }
      if i > |g.items| {
        if release {
          ReleaseNode(i);
        }
      } else {
        reorderedFuncs := reorderedFuncs + [i];
        assert i < |g.items| < |g.before|;
        hide Topology.ReleaseNode, Topology.ReleaseProvider, GraphOk;
        if release {
          ReleaseNode(i);
          ReleaseProvider(i);
        }
      }
    }

    // topo.run: everybody is emitted, and those never reached are marked as impossible to include.
    method Run() returns (cannotInclude: set<nat>)
      requires GraphOk(g) && InGraph(g, Now())
      modifies this
      ensures Now() == Topology.Run(g, old(Now())).(out := Result(g, Topology.Run(g, old(Now()))))
      ensures forall x: nat :: x in cannotInclude <==> x < |g.items| && x !in done
    {
      RunAll();
      cannotInclude := EmitLeftovers();
    }

    method RunAll()
      requires GraphOk(g) && InGraph(g, Now())
      modifies this
      ensures Now() == Topology.Run(g, old(Now()))
    {
      hide GraphOk, InGraph, Step;
      while |unblocked| > 0 || |weakBlocked| > 0 || |cannotReorder| > 0
        invariant InGraph(g, Now()) && Topology.Run(g, Now()) == Topology.Run(g, old(Now()))
        decreases Undone(g, Now()), Waiting(Now())
      {
        StepProgresses(g, Now());
        RunOne();
      }
    }

    method EmitLeftovers() returns (cannotInclude: set<nat>)
      modifies this`reorderedFuncs
      ensures Now() == old(Now()).(out := old(reorderedFuncs) + Leftovers(done, |g.items|))
      ensures forall x: nat :: x in cannotInclude <==> x < |g.items| && x !in done
    {
      cannotInclude := {};
      for i := 0 to |g.items|
        invariant reorderedFuncs == old(reorderedFuncs) + Leftovers(done, i)
        invariant forall x: nat :: x in cannotInclude <==> x < i && x !in done
      {
        if i !in done {
          cannotInclude := cannotInclude + {i};
          reorderedFuncs := reorderedFuncs + [i];
        }
      }
    }

    // One turn of the loop of topo.run.
    method RunOne()
      requires GraphOk(g) && InGraph(g, Now()) && !Finished(Now())
      modifies this
      ensures Now() == Step(g, old(Now()))
    {
      hide GraphOk, Topology.ProcessOne, InGraph, IsLeast;
      ChosenInGraph(g, Now());
      var i;
      if |unblocked| > 0 {
        i, unblocked := PopLeast(unblocked);
        ProcessOne(i, true);
      } else if |weakBlocked| > 0 {
        i, weakBlocked := PopLeast(weakBlocked);
        ProcessOne(i, true);
      } else {
        i := cannotReorder[0];
        cannotReorder := cannotReorder[1..];
        var free := after[i] == {};
        ProcessOne(i, free);
      }
    }
  }
}
