/**
 replace.go: the doubly linked list and the surgery on it.
 */
module ReplaceByName {
  import opened Basics
  import opened Splice
  import opened SpliceLaws
  import opened SpliceResult
  import opened CutTwice
  import opened Linking

  class Node {
    const i: nat
    var prev: Node?
    var next: Node?
    var processed: bool

    constructor (i: nat, prev: Node?)
      ensures this.i == i && this.prev == prev && next == null && !processed
    {
      this.i, this.prev, next, processed := i, prev, null, false;
    }
  }

  datatype FirstLast = FirstLast(first: Node, last: Node, duplicated: bool)

  function Id(n: Node?): int {
    if n == null then -1 else n.i
  }

  lemma BlockGrows(order: seq<nat>, from: nat, e: nat)
    requires from <= e < |order|
    ensures Block(order, from, e + 1) == Block(order, from, e) + {order[e]} && Block(order, from, from) == {}
  {
  }

  lemma BlockEndStep(items: seq<Item>, order: seq<nat>, from: nat, mark: Mark)
    requires from < |order| && forall k :: 0 <= k < |order| ==> order[k] < |items|
    ensures BlockEnd(items, order, from, mark) ==
              if from + 1 < |order| && Has(items[order[from + 1]], mark) then BlockEnd(items, order, from + 1, mark)
              else from + 1
  {
  }

  datatype Problem = Failure | NilPointer | LostBlock

  datatype Status = Going | Stopped(why: Problem)

  // The nodes for the providers, linked to each other.
  ghost predicate Row(list: seq<Node>, head: Node)
    reads head, list
  {
    && (forall k :: 0 <= k < |list| ==> list[k].i == k && !list[k].processed)
    && (forall k :: 0 < k < |list| ==> list[k].prev == list[k - 1])
    && (forall k :: 0 <= k < |list| - 1 ==> list[k].next == list[k + 1])
    && (list != [] ==> head.next == list[0] && list[0].prev == head)
  }

  // The list with its fake head and tail (step 1).
  method MakeNodes(n: nat) returns (nodes: seq<Node>)
    ensures |nodes| == n + 2 && fresh(nodes)
    ensures forall k :: 0 <= k < |nodes| ==> nodes[k].i == k && !nodes[k].processed
    ensures forall k: nat :: k <= n ==> nodes[k].next == nodes[NextAtStart(n, k)]
    ensures forall k: nat :: k < n ==> nodes[k].prev == nodes[PrevAtStart(n, k)]
    ensures nodes[n].prev == null
    ensures nodes[n + 1].next == null && nodes[n + 1].prev == null
  {
    var head := new Node(n, null);
    var prior := head;
    var list: seq<Node> := [];
    for i := 0 to n
      invariant |list| == i && fresh(head) && fresh(list) && Row(list, head)
      invariant head.i == n && head.prev == null && !head.processed
      invariant prior == if i == 0 then head else list[i - 1]
    {
      var x := new Node(i, prior);
      prior.next := x;
      prior := x;
      list := list + [x];
    }
    var tail := new Node(n + 1, null);
    prior.next := tail;
    nodes := list + [head, tail];
  }

  class Editor {
    const items: seq<Item>
    const nodes: seq<Node>
    var names: map<string, FirstLast>

    constructor (items: seq<Item>)
      ensures this.items == items && names == map[] && fresh(nodes)
      ensures Ok() && Listed(Nexts(), Prevs(), |items|, Identity(|items|), false) && Done() == {}
    {
      var made := MakeNodes(|items|);
      this.items, nodes, names := items, made, map[];
      new;
      Fresh();
    }

    lemma Fresh()
      requires |nodes| == |items| + 2 && forall k :: 0 <= k < |nodes| ==> nodes[k].i == k && !nodes[k].processed
      requires forall k: nat :: k <= |items| ==> nodes[k].next == nodes[NextAtStart(|items|, k)]
      requires forall k: nat :: k < |items| ==> nodes[k].prev == nodes[PrevAtStart(|items|, k)]
      requires nodes[|items|].prev == null && nodes[|items| + 1].next == null && nodes[|items| + 1].prev == null
      ensures Ok() && Listed(Nexts(), Prevs(), |items|, Identity(|items|), false) && Done() == {}
    {
      hide Listed, NextAtStart, PrevAtStart, Identity;
      StartIsListed(Nexts(), Prevs(), |items|);
    }

    predicate Mine(n: Node?) {
      n == null || (n.i < |nodes| && nodes[n.i] == n)
    }

    ghost predicate Ok()
      reads this, nodes
    {
      && |nodes| == |items| + 2
      && (forall k :: 0 <= k < |nodes| ==> nodes[k].i == k)
      && (forall k :: 0 <= k < |nodes| ==> Mine(nodes[k].next) && Mine(nodes[k].prev))
    }

    ghost function Nexts(): (s: seq<int>)
      reads nodes
      ensures |s| == |nodes|
    {
      seq(|nodes|, k requires 0 <= k < |nodes| reads nodes => Id(nodes[k].next))
    }

    ghost function Prevs(): (s: seq<int>)
      reads nodes
      ensures |s| == |nodes|
    {
      seq(|nodes|, k requires 0 <= k < |nodes| reads nodes => Id(nodes[k].prev))
    }

    ghost function Done(): set<nat>
      reads nodes
    {
      set k: nat | k < |nodes| && nodes[k].processed
    }

    method SetNext(x: Node, y: Node)
      requires Ok() && Mine(x) && Mine(y)
      modifies x`next
      ensures Ok() && x.next == y && Nexts() == old(Nexts())[x.i := y.i] && Prevs() == old(Prevs())
              && Done() == old(Done())
    {
      x.next := y;
    }

    method SetPrev(x: Node, y: Node)
      requires Ok() && Mine(x) && Mine(y)
      modifies x`prev
      ensures Ok() && x.prev == y && Prevs() == old(Prevs())[x.i := y.i] && Nexts() == old(Nexts())
              && Done() == old(Done())
    {
      x.prev := y;
    }

    method SetProcessed(x: Node)
      requires Ok() && Mine(x)
      modifies x`processed
      ensures Ok() && Prevs() == old(Prevs()) && Nexts() == old(Nexts()) && Done() == old(Done()) + {x.i}
    {
      x.processed := true;
    }

    lemma At(k: nat)
      requires Ok() && k < |nodes|
      ensures Nexts()[k] == Id(nodes[k].next) && Prevs()[k] == Id(nodes[k].prev)
      ensures (nodes[k].next != null <==> Nexts()[k] >= 0) && (nodes[k].prev != null <==> Prevs()[k] >= 0)
      ensures Nexts()[k] >= 0 ==> nodes[k].next == nodes[Nexts()[k]]
      ensures Prevs()[k] >= 0 ==> nodes[k].prev == nodes[Prevs()[k]]
    {
    }

    lemma Owned()
      requires Ok()
      ensures |nodes| == |items| + 2 && forall k :: 0 <= k < |nodes| ==> nodes[k].i == k && Mine(nodes[k])
    {
    }

    // The list is 'order', between the head and the tail.
    ghost predicate Lists(order: seq<nat>, tailSet: bool)
      reads this, nodes
    {
      Ok() && Listed(Nexts(), Prevs(), |items|, order, tailSet)
    }

    // The neighbours of a node in the list.
    lemma Neighbours(order: seq<nat>, tailSet: bool, k: nat)
      requires Ok() && Listed(Nexts(), Prevs(), |items|, order, tailSet) && k < |order|
      ensures order[k] < |items| && |nodes| == |items| + 2
      ensures All(|items|, order)[k + 2] < |nodes| && All(|items|, order)[k] < |nodes|
      ensures nodes[order[k]].next == nodes[All(|items|, order)[k + 2]]
      ensures nodes[order[k]].prev == nodes[All(|items|, order)[k]]
    {
    }

    // What follows the node at position e - 1: the one at position 'e', or the tail.
    lemma Following(order: seq<nat>, tailSet: bool, e: nat)
      requires Ok() && Listed(Nexts(), Prevs(), |items|, order, tailSet) && 0 < e <= |order|
      ensures |nodes| == |items| + 2 && forall k :: 0 <= k < |order| ==> order[k] < |items|
      ensures
        var x := nodes[order[e - 1]].next;
        && x != null && (x == nodes[|items| + 1] <==> e == |order|)
        && (e < |order| ==> x == nodes[order[e]] && x.i == order[e])
    {
      Neighbours(order, tailSet, e - 1);
      AllAt(|items|, order);
    }

    // Finds the end of the block that starts at 'target', marking its members.
    method Scan(target: Node, mark: Mark, ghost order: seq<nat>, ghost tailSet: bool, ghost from: nat)
      returns (end: Node, ghost e: nat)
      requires Ok() && Listed(Nexts(), Prevs(), |items|, order, tailSet)
      requires from < |order| && order[from] < |nodes| && target == nodes[order[from]]
      modifies nodes
      ensures Ok() && Nexts() == old(Nexts()) && Prevs() == old(Prevs())
      ensures forall k :: 0 <= k < |order| ==> order[k] < |items|
      ensures e == BlockEnd(items, order, from, mark) && end == nodes[order[e - 1]]
      ensures Done() == old(Done()) + Block(order, from, e)
    {
      hide *;
      Owned();
      end := target;
      e := from + 1;
      Following(order, tailSet, e);
      BlockGrows(order, from, from);
      while end.next != nodes[|items| + 1] && Has(items[end.next.i], mark)
        invariant from < e <= |order| && Ok() && order[e - 1] < |nodes| && end == nodes[order[e - 1]]
        invariant end.next != null && (end.next == nodes[|items| + 1] <==> e == |order|)
        invariant e < |order| ==> end.next == nodes[order[e]] && end.next.i == order[e]
        invariant Nexts() == old(Nexts()) && Prevs() == old(Prevs())
        invariant Done() == old(Done()) + Block(order, from, e - 1)
        invariant BlockEnd(items, order, from, mark) == BlockEnd(items, order, e - 1, mark)
        decreases |order| - e
      {
        BlockEndStep(items, order, e - 1, mark);
        BlockGrows(order, from, e - 1);
        SetProcessed(end);
        end := end.next;
        e := e + 1;
        Following(order, tailSet, e);
      }
      BlockEndStep(items, order, e - 1, mark);
      BlockGrows(order, from, e - 1);
      SetProcessed(end);
    }

    // Cuts the block that starts at 'target'.
    method Snip(target: Node, mark: Mark, ghost order: seq<nat>, ghost tailSet: bool, ghost from: nat)
      returns (end: Node, ghost e: nat)
      requires Ok() && Listed(Nexts(), Prevs(), |items|, order, tailSet)
      requires from < |order| && order[from] < |nodes| && target == nodes[order[from]]
      modifies nodes
      ensures Ok() && (forall k :: 0 <= k < |order| ==> order[k] < |items|)
      ensures e == BlockEnd(items, order, from, mark) && end == nodes[order[e - 1]]
      ensures Listed(Nexts(), Prevs(), |items|, order[..from] + order[e..], tailSet || e == |order|)
      ensures Forward(Nexts(), order[from..e]) && Backward(Prevs(), order[from..e])
      ensures All(|items|, order)[from] < |nodes| && target.prev == nodes[All(|items|, order)[from]]
      ensures All(|items|, order)[e + 1] < |nodes| && end.next == nodes[All(|items|, order)[e + 1]]
      ensures Done() == old(Done()) + Block(order, from, e)
      ensures forall x: nat :: x < |nodes| && x !in All(|items|, order) ==>
                Nexts()[x] == old(Nexts()[x]) && Prevs()[x] == old(Prevs()[x])
    {
      hide *;
      end, e := Scan(target, mark, order, tailSet, from);
      Owned();
      Neighbours(order, tailSet, from);
      Neighbours(order, tailSet, e - 1);
      SnipListed(Nexts(), Prevs(), |items|, order, tailSet, from, e);
      var before, behind := target.prev, end.next;
      SetNext(before, behind);
      SetPrev(behind, before);
      At(target.i);
      At(end.i);
    }

    // Links the nodes from 'start' to 'end' in front of 'target'.
    method InsertBefore(target: Node, start: Node, end: Node)
      requires Ok() && Mine(target) && Mine(start) && Mine(end) && target.prev != null
      modifies nodes
      ensures Ok() && Done() == old(Done())
      ensures 0 <= old(Prevs())[target.i] < |nodes|
      ensures Nexts() == old(Nexts())[old(Prevs())[target.i] := start.i][end.i := target.i]
      ensures Prevs() == old(Prevs())[start.i := old(Prevs())[target.i]][target.i := end.i]
    {
      hide Nexts, Prevs, Done;
      At(target.i);
      var before := target.prev;
      assert Mine(before);
      SetPrev(start, before);
      SetNext(before, start);
      SetPrev(target, end);
      SetNext(end, target);
    }

    // The node the traversal goes back to, from the one it goes on with.
    lemma PrevOf(order: seq<nat>, tailSet: bool, k: nat)
      requires Ok() && Listed(Nexts(), Prevs(), |items|, order, tailSet) && k <= |order| && (k < |order| || tailSet)
      ensures All(|items|, order)[k + 1] < |nodes| && All(|items|, order)[k] < |nodes|
      ensures nodes[All(|items|, order)[k + 1]].prev == nodes[All(|items|, order)[k]]
    {
    }

    lemma Here(order: seq<nat>, tailSet: bool)
      requires Ok() && Listed(Nexts(), Prevs(), |items|, order, tailSet)
      ensures |nodes| == |items| + 2 && Distinct(order)
      ensures forall k :: 0 <= k < |order| ==> order[k] < |items|
      ensures |All(|items|, order)| == |order| + 2
      ensures forall k :: 0 <= k < |order| ==> All(|items|, order)[k + 1] == order[k]
      ensures All(|items|, order)[|order| + 1] == |items| + 1 && All(|items|, order)[0] == |items|
      ensures nodes[|items| + 1].prev == null <==> !tailSet
    {
      ListedFacts(Nexts(), Prevs(), |items|, order, tailSet);
      TailPointer(Nexts(), Prevs(), |items|, order, tailSet);
      At(|items| + 1);
      AllAt(|items|, order);
    }

    lemma PlaceAfterCut(order: seq<nat>, tailSet: bool, k: nat, e: nat, t: nat, op: Op) returns (at: nat, at1: nat)
      requires k < e <= |order| && t < |order| && (t < k || e <= t) && op != Replace && Distinct(order)
      ensures at == if op == Before then t else t + 1
      ensures
        var order1, t1 := order[..k] + order[e..], if op == Before then at1 else at1 - 1;
        && 0 <= t1 < |order1| && at1 <= |order1| && order1[t1] == order[t]
        && order1[..at1] + order[k..e] + order1[at1..] == Moved(order, k, e, at)
        && (at1 == |order1| && !(tailSet || e == |order|) <==> op == After && t + 1 == |order| && !tailSet)
        && order[k..e] != [] && order[k..e][0] == order[k] && order[k..e][e - k - 1] == order[e - 1]
        && Distinct(order1 + order[k..e])
    {
      at := if op == Before then t else t + 1;
      at1 := if at <= k then at else at - (e - k);
      hide *;
      CutAndInsert(order, k, e, at);
      DistinctAgain(order, k, e);
    }

    // Puts a block that has been cut in front of 'target', unless that is the tail and does not know
    // its predecessor.
    method PutBack(target: Node, start: Node, end: Node, ghost order: seq<nat>, ghost tailSet: bool,
                   ghost b: seq<nat>, ghost at: nat)
      returns (crashed: bool)
      requires Ok() && Listed(Nexts(), Prevs(), |items|, order, tailSet)
      requires Forward(Nexts(), b) && Backward(Prevs(), b) && b != [] && Distinct(order + b)
      requires (forall k :: 0 <= k < |b| ==> b[k] < |items|) && at <= |order|
      requires All(|items|, order)[at + 1] < |nodes| && target == nodes[All(|items|, order)[at + 1]]
      requires b[0] < |nodes| && b[|b| - 1] < |nodes| && start == nodes[b[0]] && end == nodes[b[|b| - 1]]
      modifies nodes
      ensures Ok() && Done() == old(Done())
      ensures crashed <==> at == |order| && !tailSet
      ensures !crashed ==> Listed(Nexts(), Prevs(), |items|, order[..at] + b + order[at..], tailSet)
    {
      hide *;
      Owned();
      Here(order, tailSet);
      if at < |order| {
        Neighbours(order, tailSet, at);
      }
      crashed := target.prev == null;
      if !crashed {
        InsertListed(Nexts(), Prevs(), |items|, order, tailSet, b, at);
        InsertBefore(target, start, end);
      }
    }

    // The insert directives.
    method InsertBlock(n: Node, firstLast: FirstLast, op: Op, name: string,
                       ghost order: seq<nat>, ghost tailSet: bool, ghost k: nat, ghost t: nat)
      returns (crashed: bool, after: Node, ghost e: nat)
      requires Ok() && Listed(Nexts(), Prevs(), |items|, order, tailSet) && op != Replace
      requires k < |order| && t < |order| && order[k] < |nodes| && order[t] < |nodes| && n == nodes[order[k]]
      requires nodes[order[t]] == if op == Before then firstLast.first else firstLast.last
      requires forall i :: 0 <= i < |order| ==> order[i] < |items|
      requires t < k || BlockEnd(items, order, k, Tagged(op, name)) <= t
      modifies nodes
      ensures Ok() && e == BlockEnd(items, order, k, Tagged(op, name))
      ensures Done() == old(Done()) + Block(order, k, e)
      ensures All(|items|, order)[e + 1] < |nodes| && after == nodes[All(|items|, order)[e + 1]]
      ensures crashed <==> op == After && t + 1 == |order| && !tailSet
      ensures !crashed ==>
                Listed(Nexts(), Prevs(), |items|, Moved(order, k, e, if op == Before then t else t + 1), tailSet
                       || e == |order|)
    {
      hide *;
      var lastMove;
      Here(order, tailSet);
      lastMove, e := Snip(n, Tagged(op, name), order, tailSet, k);
      after := lastMove.next;
      ghost var order1, tailSet1 := order[..k] + order[e..], tailSet || e == |order|;
      ghost var at, at1 := PlaceAfterCut(order, tailSet, k, e, t, op);
      ghost var t1 := if op == Before then at1 else at1 - 1;
      Here(order1, tailSet1);
      Neighbours(order1, tailSet1, t1);
      var target := if op == Before then firstLast.first else firstLast.last.next;
      crashed := PutBack(target, n, lastMove, order1, tailSet1, order[k..e], at1);
    }

    // The node at 'i', which leads to the one at 'j'.
    ghost predicate Leads(x: Node, i: nat, j: nat)
      reads x
    {
      i < |nodes| && j < |nodes| && x == nodes[i] && x.next == nodes[j]
    }

    // Cuts the providers that are to be replaced, and then those that replace them.
    method CutTwo(n: Node, first: Node, name: string, ghost order: seq<nat>, ghost tailSet: bool, ghost m: nat,
                  ghost t: nat)
      returns (lastSnip: Node, lastMove: Node, ghost u: nat, ghost order1: seq<nat>, ghost m1: nat, ghost e1: nat)
      requires Ok() && Listed(Nexts(), Prevs(), |items|, order, tailSet) && Positions(items, order)
      requires m < |order| && t < |order| && order[m] < |nodes| && order[t] < |nodes|
      requires n == nodes[order[m]] && first == nodes[order[t]]
      requires
        BlockEnd(items, order, m, Tagged(Replace, name)) <= t || BlockEnd(items, order, t, Named(name)) <= m
      modifies nodes
      ensures Ok() && |nodes| == |items| + 2 && t < u <= |order| && (m < t || u <= m) && m1 < e1 <= |order1|
      ensures u == BlockEnd(items, order, t, Named(name)) && order1 == order[..t] + order[u..] && m1 == Shifted(m, t, u)
      ensures forall k :: 0 <= k < |order1| ==> order1[k] < |items|
      ensures order1[m1] == order[m] && e1 == BlockEnd(items, order1, m1, Tagged(Replace, name))
      ensures CutOut(Nexts(), Prevs(), |items|, order1, m1, e1, tailSet || u == |order| || e1 == |order1|)
      ensures Leads(lastMove, order1[e1 - 1], All(|items|, order1)[e1 + 1])
      ensures Leads(lastSnip, order[u - 1], All(|items|, order)[u + 1]) && order[u - 1] !in order1
      ensures Done() == old(Done()) + Block(order, t, u) + Block(order1, m1, e1)
    {
      hide *;
      Here(order, tailSet);
      lastSnip, u := Snip(first, Named(name), order, tailSet, t);
      ghost var e := BlockEnd(items, order, m, Tagged(Replace, name));
      order1 := order[..t] + order[u..];
      ghost var tailSet1 := tailSet || u == |order|;
      ShiftedIs(m, t, u);
      m1 := Shifted(m, t, u);
      AfterFirstCut(items, order, m, e, t, u, name);
      Owned();
      Here(order1, tailSet1);
      At(lastSnip.i);
      NotInAll(|items|, order1, order[u - 1]);
      lastMove, e1 := Snip(n, Tagged(Replace, name), order1, tailSet1, m1);
      At(lastSnip.i);
      CutOutIs(Nexts(), Prevs(), |items|, order1, m1, e1, tailSet1 || e1 == |order1|);
      LeadsIs(lastMove, order1[e1 - 1], All(|items|, order1)[e1 + 1]);
      LeadsIs(lastSnip, order[u - 1], All(|items|, order)[u + 1]);
    }

    lemma LeadsIs(x: Node, i: nat, j: nat)
      ensures Leads(x, i, j) <==> i < |nodes| && j < |nodes| && x == nodes[i] && x.next == nodes[j]
    {
    }

    lemma CutsApart(order1: seq<nat>, m1: nat, e1: nat, x: nat)
      requires m1 <= e1 <= |order1| && x !in order1
      ensures x !in order1[..m1] + order1[e1..] && x !in order1[m1..e1]
    {
    }

    // Adjacent blocks: what has been cut first must not lead to what has been cut next.
    method Reconnect(lastSnip: Node, n: Node, lastMove: Node) returns (after: Node, target: Node)
      requires Ok() && Mine(lastSnip) && Mine(n) && Mine(lastMove) && lastSnip.next != null && lastMove.next != null
      modifies nodes
      ensures Ok() && Mine(after) && Mine(target) && Done() == old(Done()) && Prevs() == old(Prevs())
      ensures after == old(lastMove.next) && target == if old(lastSnip.next) == n then after else old(lastSnip.next)
      ensures Nexts() == if old(lastSnip.next) == n then old(Nexts())[lastSnip.i := after.i] else old(Nexts())
    {
      hide Nexts, Prevs, Done;
      after := lastMove.next;
      if lastSnip.next == n {
        SetNext(lastSnip, after);
      }
      target := lastSnip.next;
    }

    // The replace directive.  If it is torn, the block is linked to itself and lost.
    method ReplaceBlock(n: Node, first: Node, name: string, ghost order: seq<nat>, ghost tailSet: bool,
                        ghost m: nat, ghost t: nat)
      returns (after: Node, ghost e: nat, ghost u: nat, ghost torn: bool, ghost order': seq<nat>)
      requires Ok() && Listed(Nexts(), Prevs(), |items|, order, tailSet) && Positions(items, order)
      requires m < |order| && t < |order| && order[m] < |nodes| && order[t] < |nodes|
      requires n == nodes[order[m]] && first == nodes[order[t]]
      requires
        BlockEnd(items, order, m, Tagged(Replace, name)) <= t || BlockEnd(items, order, t, Named(name)) <= m
      modifies nodes
      ensures Ok() && m < e <= |order| && t < u <= |order| && (e <= t || u <= m)
      ensures e == BlockEnd(items, order, m, Tagged(Replace, name)) && u == BlockEnd(items, order, t, Named(name))
      ensures torn == Sandwiched(items, order, e, t, u, name)
      ensures torn ==> order' == order[..m] + order[BlockEnd(items, order, u, Tagged(Replace, name))..]
      ensures torn ==> exists tailSet' :: Listed(Nexts(), Prevs(), |items|, order', tailSet')
      ensures !torn ==> order' == Replaced(order, m, e, t, u)
      ensures !torn ==> Listed(Nexts(), Prevs(), |items|, order', tailSet || u == |order| || e == |order|)
      ensures !torn ==> Done() == old(Done()) + Block(order, t, u) + Block(order, m, e)
      ensures !torn ==> IsNode(after, All(|items|, order)[(if e == t then u else e) + 1])
    {
      hide *;
      var lastSnip, lastMove, target;
      ghost var order1, m1, e1;
      lastSnip, lastMove, u, order1, m1, e1 := CutTwo(n, first, name, order, tailSet, m, t);
      PositionsBounds(items, order);
      e := BlockEnd(items, order, m, Tagged(Replace, name));
      torn := Sandwiched(items, order, e, t, u, name);
      Owned();
      IsNodeIs(n, order[m]);
      BlockIs(order, m, e);
      BlockIs(order1, m1, e1);
      ghost var tailSet2 := tailSet || u == |order| || e1 == |order1|;
      after, target, order' := Rejoin(n, lastSnip, lastMove, order1, m1, e1, tailSet2, order[u - 1],
                                      All(|items|, order)[u + 1]);
      CutOutIs(Nexts(), Prevs(), |items|, order1, m1, e1, tailSet2);
      AfterFirstCut(items, order, m, e, t, u, name);
      if torn {
        SandwichedIs(items, order, e, t, u, name);
        TornRest(order, m, t, u, BlockEnd(items, order, u, Tagged(Replace, name)));
        TornTarget(n, lastMove, target, order, order1, order', tailSet2, m, e, t, u, e1);
      } else {
        PutBackAt(n, lastMove, target, order, order1, order', tailSet, m, e, t, u, m1, e1);
        order' := Replaced(order, m, e, t, u);
      }
      InsertMakesIt(Nexts(), Prevs(), n.i, lastMove.i, target.i, |items|, order',
                    if torn then tailSet2 else tailSet || u == |order| || e == |order|);
      InsertBefore(target, n, lastMove);
    }

    lemma IsNodeIs(x: Node, i: nat)
      ensures IsNode(x, i) <==> i < |nodes| && x == nodes[i]
    {
    }

    ghost predicate IsNode(x: Node, i: nat) {
      i < |nodes| && x == nodes[i]
    }

    // Adjacent blocks are reconnected, so that the list and the block that has been cut stay as they
    // are.
    method Rejoin(n: Node, lastSnip: Node, lastMove: Node, ghost order1: seq<nat>, ghost m1: nat, ghost e1: nat,
                  ghost tailSet: bool, ghost x: nat, ghost y: nat)
      returns (after: Node, target: Node, ghost order2: seq<nat>)
      requires Ok() && CutOut(Nexts(), Prevs(), |items|, order1, m1, e1, tailSet) && m1 < e1 <= |order1|
      requires Leads(lastMove, order1[e1 - 1], All(|items|, order1)[e1 + 1])
      requires Leads(lastSnip, x, y) && x < |items| && x !in order1 && IsNode(n, order1[m1])
      modifies nodes
      ensures Ok() && CutOut(Nexts(), Prevs(), |items|, order1, m1, e1, tailSet)
      ensures |nodes| == |items| + 2 && order1[e1 - 1] < |items| && lastMove == nodes[order1[e1 - 1]]
      ensures order2 == order1[..m1] + order1[e1..] && Done() == old(Done())
      ensures IsNode(after, All(|items|, order1)[e1 + 1])
      ensures IsNode(target, if y == order1[m1] then All(|items|, order1)[e1 + 1] else y)
    {
      hide *;
      Owned();
      order2 := order1[..m1] + order1[e1..];
      CutOutIs(Nexts(), Prevs(), |items|, order1, m1, e1, tailSet);
      CutsApart(order1, m1, e1, x);
      LeadsIs(lastMove, order1[e1 - 1], All(|items|, order1)[e1 + 1]);
      LeadsIs(lastSnip, x, y);
      IsNodeIs(n, order1[m1]);
      LooseNode(Nexts(), Prevs(), |items|, order2, tailSet, order1[m1..e1], x, lastMove.next.i);
      after, target := Reconnect(lastSnip, n, lastMove);
      IsNodeIs(after, All(|items|, order1)[e1 + 1]);
      IsNodeIs(target, if y == order1[m1] then All(|items|, order1)[e1 + 1] else y);
      CutOutIs(Nexts(), Prevs(), |items|, order1, m1, e1, tailSet);
    }

    // What is done to the block and around it puts it in the place of the providers to be replaced.
    lemma PutBackAt(n: Node, lastMove: Node, target: Node, order: seq<nat>, order1: seq<nat>, order2: seq<nat>,
                    tailSet: bool, m: nat, e: nat, t: nat, u: nat, m1: nat, e1: nat)
      requires Positions(items, order) && m < e <= |order| && t < u <= |order| && (e <= t || u <= m)
      requires order1 == order[..t] + order[u..] && m1 == Shifted(m, t, u) && e1 == m1 + (e - m) <= |order1|
      requires order2 == order1[..m1] + order1[e1..] && order1[m1] == order[m] && m1 < e1
      requires Ok() && CutOut(Nexts(), Prevs(), |items|, order1, m1, e1, tailSet || u == |order| || e1 == |order1|)
      requires
        IsNode(target, if All(|items|, order)[u + 1] == order1[m1] then All(|items|, order1)[e1 + 1]
               else All(|items|, order)[u + 1])
      requires IsNode(n, order1[m1]) && order1[e1 - 1] < |nodes| && lastMove == nodes[order1[e1 - 1]]
      ensures Mine(n) && Mine(target) && target.prev != null && target.i < |nodes| && 0 <= Prevs()[target.i] < |nodes|
      ensures InsertMakes(Nexts(), Prevs(), n.i, lastMove.i, target.i, |items|, Replaced(order, m, e, t, u),
                          tailSet || u == |order| || e == |order|)
      ensures All(|items|, order1)[e1 + 1] == All(|items|, order)[(if e == t then u else e) + 1]
      ensures order1[m1..e1] == order[m..e]
    {
      hide *;
      Owned();
      PositionsBounds(items, order);
      PositionsDistinct(items, order);
      SameIfAdjacent(|items|, order, m, u);
      var targetAt := if u == m then All(|items|, order1)[e1 + 1] else All(|items|, order)[u + 1];
      IsNodeIs(target, targetAt);
      IsNodeIs(n, order1[m1]);
      InsertAfterCuts(Nexts(), Prevs(), items, order, order1, m, e, t, u, m1, e1, targetAt, tailSet);
      InsertMakesInRange(Nexts(), Prevs(), n.i, lastMove.i, target.i, |items|, Replaced(order, m, e, t, u),
                         tailSet || u == |order| || e == |order|);
      At(target.i);
    }

    lemma PositionsDistinct(items: seq<Item>, order: seq<nat>)
      requires Positions(items, order)
      ensures Distinct(order)
    {
    }

    // What is done to the members of the block does not reach the list.
    lemma TornTarget(n: Node, lastMove: Node, target: Node, order: seq<nat>, order1: seq<nat>, order2: seq<nat>,
                     tailSet: bool,
                     m: nat, e: nat, t: nat, u: nat, e1: nat)
      requires Positions(items, order) && m < e <= t < u < |order| && order1 == order[..t] + order[u..]
      requires e < e1 <= |order1| && order1[e] == order[u] && order2 == order1[..m] + order1[e1..]
      requires Ok() && CutOut(Nexts(), Prevs(), |items|, order1, m, e1, tailSet)
      requires
        IsNode(target, if All(|items|, order)[u + 1] == order1[m] then All(|items|, order1)[e1 + 1]
               else All(|items|, order)[u + 1])
      requires IsNode(n, order1[m]) && order1[m] == order[m] && order1[e1 - 1] < |nodes|
               && lastMove == nodes[order1[e1 - 1]]
      ensures Mine(n) && Mine(target) && target.prev != null && target.i < |nodes| && 0 <= Prevs()[target.i] < |nodes|
      ensures InsertMakes(Nexts(), Prevs(), n.i, lastMove.i, target.i, |items|, order2, tailSet)
    {
      hide *;
      Owned();
      PositionsBounds(items, order);
      OthersStay(items, order, t, u, order1);
      PositionsDistinct(items, order);
      SameIfAdjacent(|items|, order, m, u);
      AllAt(|items|, order);
      IsNodeIs(target, order[u]);
      IsNodeIs(n, order[m]);
      CutOutIs(Nexts(), Prevs(), |items|, order1, m, e1, tailSet);
      BlockIsElsewhere(order1, m, e1);
      assert order1[m..e1][e - m] == order1[e] && order1[m..e1][e - m - 1] == order1[e - 1];
      StretchAt(Nexts(), Prevs(), order1[m..e1], e - m);
      At(target.i);
      TornStays(Nexts(), Prevs(), |items|, order2, tailSet, order1[e - 1], n.i, lastMove.i, target.i);
      InsertMakesIt(Nexts(), Prevs(), n.i, lastMove.i, target.i, |items|, order2, tailSet);
      var next := Nexts()[order1[e - 1] := n.i][lastMove.i := target.i];
      TornStays(next, Prevs(), |items|, order2, tailSet, n.i, order1[e - 1], target.i, lastMove.i);
    }

    // The index of names: those that have been replaced are taken out of it.
    ghost predicate Indexed(gone: set<string>)
      reads this
    {
      && |nodes| == |items| + 2
      && (forall name :: name in names <==> name != "" && name !in gone && FirstNamed(items, name, 0) < |items|)
      && (forall name :: name in names ==> FirstLastFor(names[name], name))
    }

    ghost predicate FirstLastFor(x: FirstLast, name: string)
      requires |nodes| == |items| + 2
    {
      && FirstNamed(items, name, 0) < |items|
      && x.first == nodes[FirstNamed(items, name, 0)]
      && x.last == nodes[LastNamed(items, FirstNamed(items, name, 0))]
      && (x.duplicated <==> Duplicated(items, name))
    }

    // None stands for its errors: the name is not in the chain, or in several places.
    method GetTarget(name: string, ghost gone: set<string>) returns (r: Option<FirstLast>)
      requires Indexed(gone) && name != ""
      ensures r.Some? <==> Findable(items, gone, name)
      ensures r.Some? ==> FirstLastFor(r.value, name)
    {
      if name !in names {
        return None;
      }
      if names[name].duplicated {
        return None;
      }
      return Some(names[name]);
    }

    ghost predicate Traversing(s: State)
      reads this, nodes
    {
      && Ok() && Listed(Nexts(), Prevs(), |items|, s.order, s.tailSet) && Done() == s.done && Indexed(s.gone)
      && StateOk(items, s) && WellDirected(items)
    }

    // The outcome of a turn, and the node from which the traversal steps on.
    ghost predicate Turned(o: Outcome, status: Status, n: Node)
      reads this, nodes
    {
      match o
      case Next(s) => status == Going && Traversing(s) && IsNode(n, All(|items|, s.order)[s.k])
      case Failed => status == Stopped(Failure)
      case Crashed => status == Stopped(NilPointer)
      case Torn(order) =>
            status == Stopped(LostBlock)
            && exists tailSet :: Listed(Nexts(), Prevs(), |items|, order, tailSet)
    }

    lemma TraversingIs(s: State)
      ensures Traversing(s) <==>
                && Ok() && Listed(Nexts(), Prevs(), |items|, s.order, s.tailSet) && Done() == s.done && Indexed(s.gone)
                && StateOk(items, s) && WellDirected(items)
      ensures Indexed(s.gone) ==> |nodes| == |items| + 2
    {
    }

    lemma TurnedNext(s: State, n: Node)
      requires Traversing(s) && IsNode(n, All(|items|, s.order)[s.k])
      ensures Turned(Next(s), Going, n)
    {
    }

    lemma TurnedStop(n: Node)
      ensures Turned(Failed, Stopped(Failure), n) && Turned(Crashed, Stopped(NilPointer), n)
    {
    }

    // The state after a directive is fine if the list is.
    lemma StateStaysOk(s: State, op: Op, name: string)
      requires AtDirective(items, s, op, name) && s.order[s.k] !in s.done && Apply(items, s, op, name).Next?
      ensures StateOk(items, Apply(items, s, op, name).s)
              && Apply(items, s, op, name).s.k <= |Apply(items, s, op, name).s.order|
    {
      var moved, dropped, p, q := ApplyGoes(items, s, op, name);
      GoesIsOk(items, s, Apply(items, s, op, name).s, moved, dropped, p, q);
    }

    lemma Unfindable(s: State, op: Op, name: string)
      requires AtDirective(items, s, op, name)
      ensures name != "" && (!Findable(items, s.gone, name) ==> Apply(items, s, op, name) == Failed)
    {
    }

    method Insert(n: Node, op: Op, name: string, ghost s: State) returns (status: Status, n': Node)
      requires Traversing(s) && AtDirective(items, s, op, name) && op != Replace && IsNode(n, s.order[s.k])
      requires s.order[s.k] !in s.done
      modifies nodes
      ensures Turned(Apply(items, s, op, name), status, n')
    {
      hide *;
      TraversingIs(s);
      Unfindable(s, op, name);
      AtParts(items, s, op, name);
      IsNodeIs(n, s.order[s.k]);
      var target := GetTarget(name, s.gone);
      if target == None {
        TurnedStop(n);
        return Stopped(Failure), n;
      }
      PositionsBounds(items, s.order);
      ghost var t := TargetAt(items, s, name, op == After);
      TargetIs(items, s, name, op == After);
      FirstLastIs(target.value, name);
      InsertApplied(items, s, op, name);
      var crashed, after;
      ghost var e;
      crashed, after, e := InsertBlock(n, target.value, op, name, s.order, s.tailSet, s.k, t);
      if crashed {
        TurnedStop(n);
        return Stopped(NilPointer), n;
      }
      ghost var s' := Apply(items, s, op, name).s;
      ResumeNode(|items|, s.order, e, s'.order);
      StateStaysOk(s, op, name);
      PrevOf(s'.order, s'.tailSet, s'.k);
      n' := after.prev;
      IsNodeIs(n', All(|items|, s'.order)[s'.k]);
      TraversingIs(s');
      TurnedNext(s', n');
      status := Going;
    }

    lemma FirstLastIs(x: FirstLast, name: string)
      requires |nodes| == |items| + 2 && FirstLastFor(x, name)
      ensures FirstNamed(items, name, 0) < |items|
      ensures x.first == nodes[FirstNamed(items, name, 0)]
              && x.last == nodes[LastNamed(items, FirstNamed(items, name, 0))]
    {
    }

    lemma OneNameLess(name: string, gone: set<string>)
      requires Indexed(gone)
      ensures forall x :: x in names - {name} <==> x != "" && x !in gone + {name} && FirstNamed(items, x, 0) < |items|
      ensures |nodes| == |items| + 2 && forall x :: x in names - {name} ==> FirstLastFor((names - {name})[x], x)
    {
    }

    // delete(names, name)
    method Forget(name: string, ghost gone: set<string>)
      requires Indexed(gone)
      requires Ok()
      modifies this`names
      ensures Indexed(gone + {name}) && Ok()
    {
      OneNameLess(name, gone);
      names := names - {name};
    }

    lemma TornStop(n: Node, order: seq<nat>, tailSet: bool)
      requires Listed(Nexts(), Prevs(), |items|, order, tailSet)
      ensures Turned(Torn(order), Stopped(LostBlock), n)
    {
    }

    // The last node of the block that starts at 'target'.
    method LastOf(target: Node, mark: Mark, ghost order: seq<nat>, ghost tailSet: bool, ghost from: nat)
      returns (end: Node, ghost e: nat)
      requires Ok() && Listed(Nexts(), Prevs(), |items|, order, tailSet)
      requires from < |order| && order[from] < |nodes| && target == nodes[order[from]]
      requires forall k :: 0 <= k < |order| ==> order[k] < |items|
      ensures e == BlockEnd(items, order, from, mark) && order[e - 1] < |nodes| && end == nodes[order[e - 1]]
      ensures All(|items|, order)[e + 1] < |nodes| && end.next == nodes[All(|items|, order)[e + 1]]
    {
      hide *;
      Here(order, tailSet);
      Owned();
      AllAt(|items|, order);
      end := target;
      e := from + 1;
      Neighbours(order, tailSet, from);
      while end.next != nodes[|items| + 1] && Has(items[end.next.i], mark)
        invariant from < e <= |order| && order[e - 1] < |nodes| && end == nodes[order[e - 1]]
        invariant All(|items|, order)[e + 1] < |nodes| && end.next == nodes[All(|items|, order)[e + 1]]
        invariant BlockEnd(items, order, from, mark) == BlockEnd(items, order, e - 1, mark)
        decreases |order| - e
      {
        BlockEndStep(items, order, e - 1, mark);
        end := end.next;
        e := e + 1;
        Neighbours(order, tailSet, e - 1);
      }
      BlockEndStep(items, order, e - 1, mark);
    }

    // Whether the block is about to be lost.  There is no such test in replace.go: it is here for the
    // model to end with a chain that has lost a block, where replace.go goes on with it.
    method WillTear(n: Node, first: Node, name: string, ghost order: seq<nat>, ghost tailSet: bool, ghost m: nat,
                    ghost t: nat)
      returns (yes: bool)
      requires Ok() && Listed(Nexts(), Prevs(), |items|, order, tailSet) && Positions(items, order)
      requires m < |order| && t < |order| && order[m] < |nodes| && order[t] < |nodes|
      requires n == nodes[order[m]] && first == nodes[order[t]]
      ensures yes == Sandwiched(items, order, BlockEnd(items, order, m, Tagged(Replace, name)), t,
                                BlockEnd(items, order, t, Named(name)), name)
    {
      hide *;
      Here(order, tailSet);
      Owned();
      PositionsBounds(items, order);
      var lastMove, lastSnip;
      ghost var e, u;
      lastMove, e := LastOf(n, Tagged(Replace, name), order, tailSet, m);
      lastSnip, u := LastOf(first, Named(name), order, tailSet, t);
      SandwichedMeans(items, order, e, t, u, name);
      SameIfAdjacent(|items|, order, t, e);
      yes := lastMove.next == first && lastSnip.next != nodes[|items| + 1] && items[lastSnip.next.i].replacing == name;
    }

    method ReplaceThem(n: Node, name: string, ghost s: State) returns (status: Status, n': Node)
      requires Traversing(s) && AtDirective(items, s, Replace, name) && IsNode(n, s.order[s.k])
      requires s.order[s.k] !in s.done
      modifies this`names, nodes
      ensures Turned(Apply(items, s, Replace, name), status, n')
    {
      hide *;
      TraversingIs(s);
      Unfindable(s, Replace, name);
      AtParts(items, s, Replace, name);
      IsNodeIs(n, s.order[s.k]);
      var target := GetTarget(name, s.gone);
      if target == None {
        TurnedStop(n);
        return Stopped(Failure), n;
      }
      Forget(name, s.gone);
      PositionsBounds(items, s.order);
      ghost var t := TargetAt(items, s, name, false);
      TargetIs(items, s, name, false);
      FirstLastIs(target.value, name);
      ReplaceApplied(items, s, name);
      var tears := WillTear(n, target.value.first, name, s.order, s.tailSet, s.k, t);
      var after;
      ghost var e, u, torn, order';
      after, e, u, torn, order' := ReplaceBlock(n, target.value.first, name, s.order, s.tailSet, s.k, t);
      if tears {
        ghost var tailSet' :| Listed(Nexts(), Prevs(), |items|, order', tailSet');
        TornStop(n, order', tailSet');
        return Stopped(LostBlock), n;
      }
      ghost var s' := Apply(items, s, Replace, name).s;
      ResumeNode(|items|, s.order, if e == t then u else e, s'.order);
      StateStaysOk(s, Replace, name);
      PrevOf(s'.order, s'.tailSet, s'.k);
      IsNodeIs(after, All(|items|, s.order)[(if e == t then u else e) + 1]);
      n' := after.prev;
      IsNodeIs(n', All(|items|, s'.order)[s'.k]);
      TraversingIs(s');
      TurnedNext(s', n');
      status := Going;
    }

    // One turn of the loop.
    method Turn(n: Node, ghost s: State) returns (status: Status, n': Node)
      requires Traversing(s) && s.k < |s.order| && IsNode(n, s.order[s.k])
      modifies this`names, nodes
      ensures StateOk(items, s) && WellDirected(items) && Turned(Step(items, s), status, n')
    {
      hide *;
      TraversingIs(s);
      StateParts(items, s);
      IsNodeIs(n, s.order[s.k]);
      Owned();
      ProcessedIs(s.order[s.k]);
      StepIs(items, s);
      if n.processed {
        SteppedOver(n, s);
        return Going, n;
      }
      if items[n.i].replacing != "" {
        status, n' := ReplaceThem(n, items[n.i].replacing, s);
      } else if items[n.i].before != "" {
        status, n' := Insert(n, Before, items[n.i].before, s);
      } else if items[n.i].after != "" {
        status, n' := Insert(n, After, items[n.i].after, s);
      } else {
        SteppedOver(n, s);
        return Going, n;
      }
    }

    lemma ProcessedIs(i: nat)
      requires Ok() && i < |nodes|
      ensures nodes[i].processed <==> i in Done()
    {
    }

    lemma SteppedOver(n: Node, s: State)
      requires Traversing(s) && s.k < |s.order| && IsNode(n, s.order[s.k]) && !Pending(items, s)
      ensures Turned(Step(items, s), Going, n)
    {
      StepIsOk(items, s);
      AllAt(|items|, s.order);
    }

    ghost predicate Ended(o: Outcome, status: Status)
      reads this, nodes
    {
      match o
      case Next(s) => status == Going && Ok() && Listed(Nexts(), Prevs(), |items|, s.order, s.tailSet)
      case Failed => status == Stopped(Failure)
      case Crashed => status == Stopped(NilPointer)
      case Torn(order) =>
            status == Stopped(LostBlock)
            && exists tailSet :: Listed(Nexts(), Prevs(), |items|, order, tailSet)
    }

    lemma EndedIs(o: Outcome, status: Status)
      requires Ended(o, status)
      ensures Matches(o, match status case Stopped(why) => Problem(why)
                                      case Going => if o.Next? then Contents(o.s.order) else Problem(Failure))
      ensures status.Going? ==> o.Next? && Ok() && Listed(Nexts(), Prevs(), |items|, o.s.order, o.s.tailSet)
    {
    }

    lemma StoppedIs(o: Outcome, status: Status, n: Node)
      requires Turned(o, status, n) && status.Stopped?
      ensures !o.Next? && Ended(o, status)
    {
    }

    lemma GoingIs(o: Outcome, n: Node)
      requires Turned(o, Going, n)
      ensures o.Next? && Traversing(o.s) && IsNode(n, All(|items|, o.s.order)[o.s.k])
    {
    }

    lemma DoneIs(s: State)
      requires Traversing(s)
      ensures Ended(Next(s), Going)
    {
    }

    // From one node of the list to the next.
    lemma StepOn(order: seq<nat>, tailSet: bool, k: nat)
      requires Ok() && Listed(Nexts(), Prevs(), |items|, order, tailSet) && k <= |order|
      ensures |nodes| == |items| + 2 && All(|items|, order)[k] < |nodes| && All(|items|, order)[k + 1] < |nodes|
      ensures nodes[All(|items|, order)[k]].next == nodes[All(|items|, order)[k + 1]]
    {
    }

    lemma WhereItIs(n: Node, s: State)
      requires Traversing(s) && s.k <= |s.order| && IsNode(n, All(|items|, s.order)[s.k + 1])
      ensures |nodes| == |items| + 2 && (n == nodes[|items| + 1] <==> s.k == |s.order|)
      ensures s.k < |s.order| ==> IsNode(n, s.order[s.k])
    {
    }

    // The loop.
    method Traverse(ghost s0: State) returns (status: Status)
      requires Traversing(s0) && s0.k == 0
      modifies this`names, nodes
      ensures StateOk(items, s0) && WellDirected(items)
      ensures Ended(SpliceLaws.Traverse(items, s0), status)
    {
      hide *;
      TraversingIs(s0);
      ghost var s := s0;
      StateParts(items, s);
      StepOn(s.order, s.tailSet, 0);
      AllAt(|items|, s.order);
      var n := nodes[|items|].next;
      IsNodeIs(n, All(|items|, s.order)[1]);
      WhereItIs(n, s);
      while n != nodes[|items| + 1]
        invariant Traversing(s) && StateOk(items, s) && WellDirected(items) && s.k <= |s.order|
                  && |nodes| == |items| + 2
        invariant n != null && (n == nodes[|items| + 1] <==> s.k == |s.order|)
        invariant s.k < |s.order| ==> IsNode(n, s.order[s.k])
        invariant SpliceLaws.Traverse(items, s) == SpliceLaws.Traverse(items, s0)
        decreases Undone(s), |s.order| - s.k
      {
        TraverseStep(items, s);
        var n';
        status, n' := Turn(n, s);
        if status.Stopped? {
          StoppedIs(Step(items, s), status, n');
          return;
        }
        GoingIs(Step(items, s), n');
        s := Step(items, s).s;
        TraversingIs(s);
        StateParts(items, s);
        StepOn(s.order, s.tailSet, s.k);
        IsNodeIs(n', All(|items|, s.order)[s.k]);
        n := n'.next;
        IsNodeIs(n, All(|items|, s.order)[s.k + 1]);
        WhereItIs(n, s);
      }
      TraverseStep(items, s);
      DoneIs(s);
      status := Going;
    }

    // What the index says of a name after the first 'i' providers.
    ghost predicate FirstLastUpTo(x: FirstLast, name: string, i: nat)
      requires |nodes| == |items| + 2 && i <= |items|
    {
      var a, b := x.first.i, x.last.i;
      && a <= b < i && x.first == nodes[a] && x.last == nodes[b]
      && (forall j :: a <= j <= b ==> items[j].origin == name)
      && (forall j :: 0 <= j < a ==> items[j].origin != name)
      && (b + 1 < i ==> items[b + 1].origin != name)
      && (x.duplicated <==> exists j :: b < j < i && items[j].origin == name)
    }

    ghost predicate IndexedUpTo(index: map<string, FirstLast>, i: nat)
      requires |nodes| == |items| + 2 && i <= |items|
    {
      && (forall name :: name in index <==> name != "" && NamedBefore(name, i))
      && (forall name :: name in index ==> FirstLastUpTo(index[name], name, i))
    }

    ghost predicate NamedBefore(name: string, i: nat)
      requires i <= |items|
    {
      exists j :: 0 <= j < i && items[j].origin == name
    }

    lemma FirstLastAtLast(x: FirstLast, name: string)
      requires |nodes| == |items| + 2 && FirstLastUpTo(x, name, |items|)
      ensures FirstLastFor(x, name)
    {
      FirstNamedUnique(items, name, 0, x.first.i);
      LastNamedUnique(items, x.first.i, x.last.i);
    }

    lemma IndexedAtLast()
      requires |nodes| == |items| + 2 && IndexedUpTo(names, |items|)
      ensures Indexed({})
    {
      forall name | name in names ensures FirstLastFor(names[name], name) {
        FirstLastAtLast(names[name], name);
      }
      forall name | name != "" && name !in names ensures FirstNamed(items, name, 0) == |items| {
        FirstNamedIs(items, name, 0);
      }
    }

    // The index of names (step 2).
    method BuildIndex()
      requires Ok() && Listed(Nexts(), Prevs(), |items|, Identity(|items|), false) && names == map[]
      modifies this`names
      ensures Ok() && Indexed({})
    {
      hide *;
      Owned();
      IdentityIs(|items|);
      StepOn(Identity(|items|), false, 0);
      EmptyIndex();
      var n := nodes[|items|].next;
      var lastName, registered := "", false;
      ghost var i := 0;
      while n != nodes[|items| + 1]
        invariant i <= |items| && |nodes| == |items| + 2 && All(|items|, Identity(|items|))[i + 1] < |nodes|
        invariant n == nodes[All(|items|, Identity(|items|))[i + 1]]
        invariant Ok() && Listed(Nexts(), Prevs(), |items|, Identity(|items|), false)
        invariant IndexedUpTo(names, i)
        invariant lastName == if i == 0 then "" else items[i - 1].origin
        invariant lastName != "" ==> lastName in names && (registered <==> names[lastName].last.i == i - 1)
        decreases |items| - i
      {
        var index;
        index, registered := IndexOne(names, n, lastName, registered, i);
        SetNames(index);
        lastName := items[n.i].origin;
        i := i + 1;
        StepOn(Identity(|items|), false, i);
        n := n.next;
      }
      IndexedAtLast();
    }

    lemma EmptyIndex()
      requires |nodes| == |items| + 2
      ensures IndexedUpTo(map[], 0)
    {
    }

    method SetNames(index: map<string, FirstLast>)
      requires Ok()
      modifies this`names
      ensures Ok() && names == index
    {
      names := index;
    }

    method IndexOne(index: map<string, FirstLast>, n: Node, lastName: string, registered: bool, ghost i: nat)
      returns (index': map<string, FirstLast>, registered': bool)
      requires |nodes| == |items| + 2 && i < |items| && n == nodes[i] && n.i == i && IndexedUpTo(index, i)
      requires lastName == if i == 0 then "" else items[i - 1].origin
      requires lastName != "" ==> lastName in index && (registered <==> index[lastName].last.i == i - 1)
      ensures IndexedUpTo(index', i + 1)
      ensures items[i].origin != "" ==>
                items[i].origin in index'
                && (registered' <==> index'[items[i].origin].last.i == i)
    {
      hide IndexedUpTo, FirstLastUpTo;
      var origin := items[n.i].origin;
      index', registered' := index, registered;
      OthersUnaffected(index, i);
      if origin == "" {
      } else if origin == lastName {
        if registered {
          index' := index[origin := index[origin].(last := n)];
        }
      } else if origin in index {
        index' := index[origin := index[origin].(duplicated := true)];
        registered' := false;
      } else {
        index' := index[origin := FirstLast(n, n, false)];
        registered' := true;
      }
      OneIndexed(index, index', n, lastName, registered, i);
    }

    lemma OthersUnaffected(index: map<string, FirstLast>, i: nat)
      requires |nodes| == |items| + 2 && i < |items| && IndexedUpTo(index, i)
      ensures forall name :: name in index && name != items[i].origin ==> FirstLastUpTo(index[name], name, i + 1)
      ensures forall name :: NamedBefore(name, i + 1) <==> NamedBefore(name, i) || name == items[i].origin
      ensures items[i].origin in index ==> index[items[i].origin].last.i < i
      ensures forall name :: name in index ==> name != ""
    {
      forall name ensures NamedBefore(name, i + 1) <==> NamedBefore(name, i) || name == items[i].origin {
        assert name == items[i].origin ==> NamedBefore(name, i + 1);
        assert NamedBefore(name, i) ==> NamedBefore(name, i + 1);
      }
    }

    lemma OneIndexed(index: map<string, FirstLast>, index': map<string, FirstLast>, n: Node, lastName: string,
                     registered: bool, i: nat)
      requires |nodes| == |items| + 2 && i < |items| && n == nodes[i] && n.i == i && IndexedUpTo(index, i)
      requires lastName == if i == 0 then "" else items[i - 1].origin
      requires lastName != "" ==> lastName in index && (registered <==> index[lastName].last.i == i - 1)
      requires
        var origin := items[i].origin;
        index' ==
          if origin == "" || (origin == lastName && !registered) then index
          else if origin == lastName then index[origin := index[origin].(last := n)]
          else if origin in index then index[origin := index[origin].(duplicated := true)]
          else index[origin := FirstLast(n, n, false)]
      ensures IndexedUpTo(index', i + 1)
    {
      hide *;
      var origin := items[i].origin;
      OthersUnaffected(index, i);
      IndexParts(index, i);
      if origin != "" {
        NewFirstLast(index, index', n, lastName, registered, i);
      }
      IndexWhole(index', i + 1);
    }

    lemma IndexParts(index: map<string, FirstLast>, i: nat)
      requires |nodes| == |items| + 2 && i <= |items| && IndexedUpTo(index, i)
      ensures forall name :: name in index <==> name != "" && NamedBefore(name, i)
      ensures forall name :: name in index ==> FirstLastUpTo(index[name], name, i)
    {
    }

    lemma IndexWhole(index: map<string, FirstLast>, i: nat)
      requires |nodes| == |items| + 2 && i <= |items|
      requires forall name :: name in index <==> name != "" && NamedBefore(name, i)
      requires forall name :: name in index ==> FirstLastUpTo(index[name], name, i)
      ensures IndexedUpTo(index, i)
    {
    }

    lemma NewFirstLast(index: map<string, FirstLast>, index': map<string, FirstLast>, n: Node, lastName: string,
                       registered: bool, i: nat)
      requires |nodes| == |items| + 2 && i < |items| && n == nodes[i] && n.i == i && items[i].origin != ""
      requires lastName == if i == 0 then "" else items[i - 1].origin
      requires lastName != "" ==> lastName in index && (registered <==> index[lastName].last.i == i - 1)
      requires items[i].origin in index ==> FirstLastUpTo(index[items[i].origin], items[i].origin, i)
      requires items[i].origin !in index ==> !NamedBefore(items[i].origin, i)
      requires
        var origin := items[i].origin;
        index' ==
          if origin == "" || (origin == lastName && !registered) then index
          else if origin == lastName then index[origin := index[origin].(last := n)]
          else if origin in index then index[origin := index[origin].(duplicated := true)]
          else index[origin := FirstLast(n, n, false)]
      ensures items[i].origin in index' && FirstLastUpTo(index'[items[i].origin], items[i].origin, i + 1)
    {
    }

    // Back to a list (step 4).
    method Collect(ghost order: seq<nat>, ghost tailSet: bool) returns (contents: seq<nat>)
      requires Ok() && Listed(Nexts(), Prevs(), |items|, order, tailSet)
      ensures contents == order
    {
      hide *;
      Owned();
      Here(order, tailSet);
      AllAt(|items|, order);
      StepOn(order, tailSet, 0);
      var n := nodes[|items|].next;
      contents := [];
      while n != nodes[|items| + 1]
        invariant |contents| <= |order| && contents == order[..|contents|]
        invariant All(|items|, order)[|contents| + 1] < |nodes| && n == nodes[All(|items|, order)[|contents| + 1]]
        decreases |order| - |contents|
      {
        contents := contents + [n.i];
        StepOn(order, tailSet, |contents|);
        n := n.next;
      }
    }
  }

  lemma FirstNamedUnique(items: seq<Item>, name: string, from: nat, i: nat)
    requires from <= i < |items| && items[i].origin == name && forall j :: from <= j < i ==> items[j].origin != name
    ensures FirstNamed(items, name, from) == i
    decreases |items| - from
  {
  }

  lemma LastNamedUnique(items: seq<Item>, i: nat, j: nat)
    requires i <= j < |items| && (forall k :: i <= k <= j ==> items[k].origin == items[i].origin)
    requires j + 1 < |items| ==> items[j + 1].origin != items[i].origin
    ensures LastNamed(items, i) == j
    decreases |items| - i
  {
    if i < j {
      LastNamedUnique(items, i + 1, j);
    }
  }

  lemma IdentityIs(n: nat)
    ensures |Identity(n)| == n && (forall k :: 0 <= k < n ==> Identity(n)[k] == k)
    ensures forall k :: 0 < k <= n ==> All(n, Identity(n))[k] == k - 1
  {
  }

  // handleReplaceByName: what it does with the contents of a collection.
  datatype Result = Contents(order: seq<nat>) | Problem(why: Problem)

  ghost predicate Matches(o: Outcome, r: Result) {
    match o
    case Next(s) => r == Contents(s.order)
    case Failed => r == Problem(Failure)
    case Crashed => r == Problem(NilPointer)
    case Torn(order) => r == Problem(LostBlock)
  }

  method HandleReplaceByName(items: seq<Item>) returns (r: Result)
    requires NoSelfTarget(items)
    ensures (forall i: nat :: i < |items| ==> !Directed(items[i])) ==> r == Contents(Identity(|items|))
    ensures !(forall i: nat :: i < |items| ==> DirectiveCount(items[i]) <= 1) ==> r == Problem(Failure)
    ensures
      (exists i: nat :: i < |items|
                        && var x := items[i];
                           || (x.replacing != "" && x.before != "") || (x.replacing != "" && x.after != "")
                           || (x.before != "" && x.after != "")) ==>
        r == Problem(Failure)
    ensures
      (exists i: nat :: i < |items| && Directed(items[i]))
          && (forall i: nat :: i < |items| ==> DirectiveCount(items[i]) <= 1) ==>
        WellDirected(items) && Matches(SpliceLaws.Traverse(items, Start(items)), r)
  {
    var hasReplacements := false;
    for i := 0 to |items|
      invariant hasReplacements <==> exists j: nat :: j < i && Directed(items[j])
    {
      if Directed(items[i]) {
        hasReplacements := true;
      }
    }
    if !hasReplacements {
      r := Contents(seq(|items|, k requires 0 <= k < |items| => k));
      return;
    }
    for i := 0 to |items|
      invariant forall j: nat :: j < i ==> DirectiveCount(items[j]) <= 1
    {
      if DirectiveCount(items[i]) > 1 {
        return Problem(Failure);
      }
    }
    r := Edit(items);
  }

  lemma StartIs(items: seq<Item>)
    ensures StateOk(items, Start(items)) && Start(items) == State(Identity(|items|), {}, {}, false, 0)
  {
  }

  method Edit(items: seq<Item>) returns (r: Result)
    requires WellDirected(items)
    ensures Matches(SpliceLaws.Traverse(items, Start(items)), r)
  {
    hide *;
    StartIs(items);
    var e := new Editor(items);
    e.BuildIndex();
    e.TraversingIs(Start(items));
    var status := e.Traverse(Start(items));
    ghost var o := SpliceLaws.Traverse(items, Start(items));
    e.EndedIs(o, status);
    if status.Stopped? {
      return Problem(status.why);
    }
    var contents := e.Collect(o.s.order, o.s.tailSet);
    return Contents(contents);
  }
}
