/**
 The doubly linked list of replace.go as two sequences of pointers, and what cutting and inserting a
 stretch does to it.
 */
module Linking {
  import opened Basics
  import opened Splice
  import opened SpliceLaws
  import opened CutTwice

  // The pointers lead from each member of the stretch to the one behind it.
  ghost predicate Forward(next: seq<int>, s: seq<nat>) {
    && (forall k :: 0 <= k < |s| ==> s[k] < |next|)
    && (forall k :: 0 <= k < |s| - 1 ==> next[s[k]] == s[k + 1])
  }

  // The pointers lead from each member of the stretch to the one before it.
  ghost predicate Backward(prev: seq<int>, s: seq<nat>) {
    && (forall k :: 0 <= k < |s| ==> s[k] < |prev|)
    && (forall k :: 0 < k < |s| ==> prev[s[k]] == s[k - 1])
  }

  // Those whose predecessor is known.
  ghost function Known(all: seq<nat>, tailSet: bool): seq<nat> {
    if tailSet || all == [] then all else all[..|all| - 1]
  }

  lemma KnownParts(a: seq<nat>, c: seq<nat>, tailSet: bool)
    requires c != []
    ensures Known(a + c, tailSet) == a + Known(c, tailSet) && (a + c)[|a + c| - 1] == c[|c| - 1]
    ensures tailSet || |c| > 1 ==> Known(c, tailSet) != [] && Known(c, tailSet)[0] == c[0]
    ensures Distinct(a + c) ==> Distinct(a + Known(c, tailSet)) && (a != [] ==> c[|c| - 1] !in a)
    ensures Distinct(a + c) && |c| > 1 ==> c[|c| - 1] != c[0]
  {
    var s, s' := a + c, a + Known(c, tailSet);
    assert forall k :: 0 <= k < |s'| ==> s'[k] == s[k];
    assert s[|a|] == c[0] && s[|s| - 1] == c[|c| - 1];
    if Distinct(s) {
      DistinctParts(a, c);
      assert c[|c| - 1] in c;
    }
  }

  // 'all' is the list from the head to the tail; the tail may not know its predecessor.
  ghost predicate LinkedBy(next: seq<int>, prev: seq<int>, all: seq<nat>, tailSet: bool) {
    && |next| == |prev| && |all| >= 2 && Distinct(all)
    && Forward(next, all)
    && Backward(prev, Known(all, tailSet))
    && (!tailSet ==> prev[all[|all| - 1]] == -1)
  }

  lemma ForwardJoin(next: seq<int>, a: seq<nat>, b: seq<nat>)
    requires a != [] && b != []
    ensures Forward(next, a + b) <==>
              Forward(next, a) && Forward(next, b) && next[a[|a| - 1]] == b[0]
  {
    var s := a + b;
    assert forall k :: 0 <= k < |a| ==> s[k] == a[k];
    assert forall k :: 0 <= k < |b| ==> b[k] == s[|a| + k];
  }

  lemma BackwardJoin(prev: seq<int>, a: seq<nat>, b: seq<nat>)
    requires a != [] && b != []
    ensures Backward(prev, a + b) <==>
              Backward(prev, a) && Backward(prev, b) && prev[b[0]] == a[|a| - 1]
  {
    var s := a + b;
    assert forall k :: 0 <= k < |a| ==> s[k] == a[k];
    assert forall k :: 0 <= k < |b| ==> b[k] == s[|a| + k];
  }

  lemma ForwardUpdate(next: seq<int>, s: seq<nat>, i: nat, v: int)
    requires Forward(next, s) && i < |next| && (s != [] ==> i !in s[..|s| - 1])
    ensures Forward(next[i := v], s)
  {
  }

  lemma BackwardUpdate(prev: seq<int>, s: seq<nat>, i: nat, v: int)
    requires Backward(prev, s) && i < |prev| && (s != [] ==> i !in s[1..])
    ensures Backward(prev[i := v], s)
  {
  }

  lemma DistinctParts(a: seq<nat>, b: seq<nat>)
    requires Distinct(a + b)
    ensures Distinct(a) && Distinct(b) && (forall x: nat :: x in a ==> x !in b)
    ensures a != [] ==> a[|a| - 1] !in a[..|a| - 1]
    ensures b != [] ==> b[0] !in b[1..]
  {
    var s := a + b;
    assert forall k :: 0 <= k < |a| ==> s[k] == a[k];
    assert forall k :: 0 <= k < |b| ==> b[k] == s[|a| + k];
  }

  lemma ForwardSnip(next: seq<int>, a: seq<nat>, b: seq<nat>, c: seq<nat>)
    requires a != [] && b != [] && c != [] && Distinct(a + b + c) && Forward(next, a + b + c)
    ensures
      && a[|a| - 1] < |next| && c[0] < |next| && c[|c| - 1] < |next| && b[0] < |next| && b[|b| - 1] < |next|
      && var next' := next[a[|a| - 1] := c[0]];
         Forward(next', a + c) && Forward(next', b) && next'[b[|b| - 1]] == c[0]
  {
    ForwardJoin(next, a + b, c);
    ForwardJoin(next, a, b);
    DistinctParts(a + b, c);
    DistinctParts(a, b);
    assert a[|a| - 1] in a && a[|a| - 1] in a + b && b[|b| - 1] in b;
    hide Forward, Distinct;
    var i := a[|a| - 1];
    ForwardUpdate(next, a, i, c[0]);
    ForwardUpdate(next, b, i, c[0]);
    ForwardUpdate(next, c, i, c[0]);
    ForwardJoin(next[i := c[0]], a, c);
  }

  lemma BackwardSnip(prev: seq<int>, a: seq<nat>, b: seq<nat>, c: seq<nat>)
    requires a != [] && b != [] && c != [] && Distinct(a + b + c) && Backward(prev, a + b + c)
    ensures
      && c[0] < |prev|
      && var prev' := prev[c[0] := a[|a| - 1]];
         Backward(prev', a + c) && Backward(prev', b) && prev'[b[0]] == a[|a| - 1]
  {
    BackwardJoin(prev, a + b, c);
    BackwardJoin(prev, a, b);
    DistinctParts(a + b, c);
    DistinctParts(a, b);
    assert c[0] in c && b[0] in b && b[0] in a + b;
    assert forall x: nat :: x in a[1..] ==> x in a + b;
    assert forall x: nat :: x in b[1..] ==> x in a + b;
    hide Backward, Distinct;
    var i := c[0];
    BackwardUpdate(prev, a, i, a[|a| - 1]);
    BackwardUpdate(prev, b, i, a[|a| - 1]);
    BackwardUpdate(prev, c, i, a[|a| - 1]);
    BackwardJoin(prev[i := a[|a| - 1]], a, c);
  }

  // The tail learns about its predecessor.
  lemma BackwardSnipTail(prev: seq<int>, a: seq<nat>, b: seq<nat>, tail: nat)
    requires a != [] && b != [] && tail < |prev| && Distinct(a + b + [tail]) && Backward(prev, a + b)
    ensures
      var prev' := prev[tail := a[|a| - 1]];
      Backward(prev', a + [tail]) && Backward(prev', b) && prev'[b[0]] == a[|a| - 1]
  {
    BackwardJoin(prev, a, b);
    DistinctParts(a + b, [tail]);
    assert tail in [tail] && b[0] in a + b;
    assert forall x: nat :: x in a[1..] ==> x in a + b;
    assert forall x: nat :: x in b[1..] ==> x in a + b;
    BackwardUpdate(prev, a, tail, a[|a| - 1]);
    BackwardUpdate(prev, b, tail, a[|a| - 1]);
    BackwardJoin(prev[tail := a[|a| - 1]], a, [tail]);
  }

  // Cutting 'b' out of the list.
  lemma SnipUnlinks(next: seq<int>, prev: seq<int>, a: seq<nat>, b: seq<nat>, c: seq<nat>, tailSet: bool)
    requires a != [] && b != [] && c != [] && LinkedBy(next, prev, a + b + c, tailSet)
    ensures a[|a| - 1] < |next| && c[0] < |prev| && b[|b| - 1] < |next| && b[0] < |prev|
    ensures
      var next', prev' := next[a[|a| - 1] := c[0]], prev[c[0] := a[|a| - 1]];
      && LinkedBy(next', prev', a + c, tailSet || |c| == 1)
      && Forward(next', b) && Backward(prev', b)
      && next'[b[|b| - 1]] == c[0] && prev'[b[0]] == a[|a| - 1]
  {
    hide Forward, Backward, Distinct, Known;
    ForwardSnip(next, a, b, c);
    CutKeepsDistinct(a, b, c);
    KnownParts(a + b, c, tailSet);
    KnownParts(a, c, tailSet || |c| == 1);
    if tailSet || |c| > 1 {
      BackwardSnip(prev, a, b, Known(c, tailSet));
    } else {
      OnlyTail(a + b, c);
      BackwardSnipTail(prev, a, b, c[0]);
    }
  }

  lemma OnlyTail(a: seq<nat>, c: seq<nat>)
    requires |c| == 1
    ensures Known(a + c, false) == a && c == [c[0]] && forall b: seq<nat> :: Known(b + c, true) == b + [c[0]]
  {
  }

  lemma ForwardInsert(next: seq<int>, a: seq<nat>, b: seq<nat>, c: seq<nat>)
    requires a != [] && b != [] && c != [] && Distinct(a + b + c) && Forward(next, a + c) && Forward(next, b)
    ensures a[|a| - 1] < |next| && b[|b| - 1] < |next| && c[|c| - 1] < |next|
    ensures Forward(next[a[|a| - 1] := b[0]][b[|b| - 1] := c[0]], a + b + c)
  {
    ForwardJoin(next, a, c);
    DistinctParts(a + b, c);
    DistinctParts(a, b);
    assert a[|a| - 1] in a && a[|a| - 1] in a + b && b[|b| - 1] in b && b[|b| - 1] in a + b;
    assert a[|a| - 1] !in b && b[|b| - 1] !in c;
    hide Distinct;
    var i, j := a[|a| - 1], b[|b| - 1];
    var next1 := next[i := b[0]];
    ForwardUpdate(next, a, i, b[0]);
    ForwardUpdate(next, b, i, b[0]);
    ForwardUpdate(next, c, i, b[0]);
    ForwardUpdate(next1, a, j, c[0]);
    ForwardUpdate(next1, b, j, c[0]);
    ForwardUpdate(next1, c, j, c[0]);
    hide Forward;
    ForwardJoin(next1[j := c[0]], a, b);
    ForwardJoin(next1[j := c[0]], a + b, c);
  }

  lemma BackwardInsert(prev: seq<int>, a: seq<nat>, b: seq<nat>, c: seq<nat>)
    requires a != [] && b != [] && c != [] && Distinct(a + b + c) && Backward(prev, a + c) && Backward(prev, b)
    ensures c[0] < |prev| && b[0] < |prev| && prev[c[0]] == a[|a| - 1]
    ensures Backward(prev[b[0] := a[|a| - 1]][c[0] := b[|b| - 1]], a + b + c)
  {
    BackwardJoin(prev, a, c);
    DistinctParts(a + b, c);
    DistinctParts(a, b);
    assert c[0] in c && b[0] in b && b[0] in a + b;
    assert c[0] !in a + b && b[0] !in a && b[0] !in c;
    assert forall x: nat :: x in a[1..] ==> x in a + b && x in a;
    assert forall x: nat :: x in b[1..] ==> x in a + b;
    assert forall x: nat :: x in c[1..] ==> x in c;
    hide Distinct;
    var i, j := b[0], c[0];
    var prev1 := prev[i := a[|a| - 1]];
    BackwardUpdate(prev, a, i, a[|a| - 1]);
    BackwardUpdate(prev, b, i, a[|a| - 1]);
    BackwardUpdate(prev, c, i, a[|a| - 1]);
    BackwardUpdate(prev1, a, j, b[|b| - 1]);
    BackwardUpdate(prev1, b, j, b[|b| - 1]);
    BackwardUpdate(prev1, c, j, b[|b| - 1]);
    hide Backward;
    BackwardJoin(prev1[j := b[|b| - 1]], a, b);
    BackwardJoin(prev1[j := b[|b| - 1]], a + b, c);
  }

  // Linking 'b' in between 'a' and 'c'; the place behind the last node is only there if the tail knows
  // about it.
  lemma InsertLinks(next: seq<int>, prev: seq<int>, a: seq<nat>, b: seq<nat>, c: seq<nat>, tailSet: bool)
    requires a != [] && b != [] && c != [] && LinkedBy(next, prev, a + c, tailSet) && Forward(next, b)
             && Backward(prev, b)
    requires Distinct(a + b + c) && (tailSet || |c| > 1)
    ensures a[|a| - 1] < |next| && b[|b| - 1] < |next| && b[0] < |prev| && c[0] < |prev| && prev[c[0]] == a[|a| - 1]
    ensures
      var next', prev' := next[a[|a| - 1] := b[0]][b[|b| - 1] := c[0]], prev[b[0] := a[|a| - 1]][c[0] := b[|b| - 1]];
      LinkedBy(next', prev', a + b + c, tailSet)
  {
    hide Forward, Backward, Distinct, Known;
    ForwardInsert(next, a, b, c);
    KnownParts(a, c, tailSet);
    KnownParts(a + b, c, tailSet);
    BackwardInsert(prev, a, b, Known(c, tailSet));
    assert b[0] in a + b && c[|c| - 1] !in a + b;
  }

  // What happens outside the list does not matter to it.
  lemma OutsideDoesNotMatter(next: seq<int>, prev: seq<int>, next': seq<int>, prev': seq<int>, all: seq<nat>,
                             tailSet: bool)
    requires LinkedBy(next, prev, all, tailSet) && |next'| == |prev'| == |next|
    requires forall x: nat :: x in all ==> next'[x] == next[x] && prev'[x] == prev[x]
    ensures LinkedBy(next', prev', all, tailSet)
  {
  }

  // The list from the fake head to the fake tail.
  function All(n: nat, order: seq<nat>): (all: seq<nat>)
    ensures |all| == |order| + 2 && all[0] == n && all[|all| - 1] == n + 1
    ensures forall k :: 0 <= k < |order| ==> all[k + 1] == order[k]
  {
    [n] + order + [n + 1]
  }

  lemma AllAt(n: nat, order: seq<nat>)
    ensures |All(n, order)| == |order| + 2 && All(n, order)[0] == n && All(n, order)[|order| + 1] == n + 1
    ensures forall k :: 0 <= k < |order| ==> All(n, order)[k + 1] == order[k]
    ensures forall k :: 0 < k <= |order| ==> All(n, order)[k] == order[k - 1]
  {
  }

  // The list holds 'order', between the head and the tail.
  ghost predicate Listed(next: seq<int>, prev: seq<int>, n: nat, order: seq<nat>, tailSet: bool) {
    (forall k :: 0 <= k < |order| ==> order[k] < n) && LinkedBy(next, prev, All(n, order), tailSet)
  }

  lemma TailPointer(next: seq<int>, prev: seq<int>, n: nat, order: seq<nat>, tailSet: bool)
    requires Listed(next, prev, n, order, tailSet)
    ensures n + 1 < |prev| && prev[n + 1] == if tailSet then All(n, order)[|order|] else -1
    ensures n < |next| && next[n] == All(n, order)[1]
  {
  }

  // Cutting a block of the list.
  lemma SnipListed(next: seq<int>, prev: seq<int>, n: nat, order: seq<nat>, tailSet: bool, from: nat, e: nat)
    requires Listed(next, prev, n, order, tailSet) && from < e <= |order|
    ensures All(n, order)[from] < |next| && All(n, order)[e + 1] < |prev|
    ensures
      var before, behind := All(n, order)[from], All(n, order)[e + 1];
      var next', prev' := next[before := behind], prev[behind := before];
      && Listed(next', prev', n, order[..from] + order[e..], tailSet || e == |order|)
      && Forward(next', order[from..e]) && Backward(prev', order[from..e])
      && order[e - 1] < |next| && order[from] < |prev|
      && next'[order[e - 1]] == behind && prev'[order[from]] == before
  {
    hide *;
    ListedIs(next, prev, n, order, tailSet);
    ListedFacts(next, prev, n, order, tailSet);
    var a, b, c, rest := SnipParts(n, order, from, e);
    SnipUnlinks(next, prev, a, b, c, tailSet);
    ListedIs(next[a[|a| - 1] := c[0]], prev[c[0] := a[|a| - 1]], n, rest, tailSet || |c| == 1);
  }

  lemma ListedIs(next: seq<int>, prev: seq<int>, n: nat, order: seq<nat>, tailSet: bool)
    ensures Listed(next, prev, n, order, tailSet) <==>
              (forall k :: 0 <= k < |order| ==> order[k] < n) && LinkedBy(next, prev, All(n, order), tailSet)
    ensures LinkedBy(next, prev, All(n, order), tailSet) ==> |next| == |prev|
  {
  }

  lemma SnipParts(n: nat, order: seq<nat>, from: nat, e: nat)
    returns (a: seq<nat>, b: seq<nat>, c: seq<nat>, rest: seq<nat>)
    requires from < e <= |order|
    ensures a != [] && c != [] && b == order[from..e] && rest == order[..from] + order[e..]
    ensures All(n, order) == a + b + c && All(n, rest) == a + c
    ensures a[|a| - 1] == All(n, order)[from] && c[0] == All(n, order)[e + 1] && (|c| == 1 <==> e == |order|)
    ensures b[0] == order[from] && b[|b| - 1] == order[e - 1]
    ensures (forall k :: 0 <= k < |order| ==> order[k] < n) ==> forall k :: 0 <= k < |rest| ==> rest[k] < n
  {
    hide *;
    var x, y := order[..from], order[e..];
    a, b, c, rest := [n] + x, order[from..e], y + [n + 1], x + y;
    assert order == x + b + y;
    AllOf(n, x, b, y);
    AllOf(n, x, [], y);
    assert x + [] + y == rest && a + [] == a;
  }

  lemma AllOf(n: nat, x: seq<nat>, b: seq<nat>, y: seq<nat>)
    ensures All(n, x + b + y) == ([n] + x) + b + (y + [n + 1])
    ensures ([n] + x)[|x|] == All(n, x + b + y)[|x|] && (y + [n + 1])[0] == All(n, x + b + y)[|x| + |b| + 1]
  {
  }

  // Inserting a block into the list at position 'at'.
  lemma InsertListed(next: seq<int>, prev: seq<int>, n: nat, order: seq<nat>, tailSet: bool, b: seq<nat>, at: nat)
    requires Listed(next, prev, n, order, tailSet) && Forward(next, b) && Backward(prev, b) && b != []
    requires at <= |order| && (tailSet || at < |order|)
    requires Distinct(order + b) && forall k :: 0 <= k < |b| ==> b[k] < n
    ensures
      var before, target := All(n, order)[at], All(n, order)[at + 1];
      && before < |next| && b[|b| - 1] < |next| && b[0] < |prev| && target < |prev| && prev[target] == before
      && var next', prev' := next[before := b[0]][b[|b| - 1] := target], prev[b[0] := before][target := b[|b| - 1]];
         Listed(next', prev', n, order[..at] + b + order[at..], tailSet)
  {
    hide Forward, Backward, Distinct, LinkedBy, All;
    var a, c := [n] + order[..at], order[at..] + [n + 1];
    InsertParts(n, order, b, at, a, c);
    InsertDistinct(n, order, b, at, a, c);
    InsertLinks(next, prev, a, b, c, tailSet);
  }

  lemma InsertParts(n: nat, order: seq<nat>, b: seq<nat>, at: nat, a: seq<nat>, c: seq<nat>)
    requires at <= |order| && a == [n] + order[..at] && c == order[at..] + [n + 1]
    ensures All(n, order) == a + c && All(n, order[..at] + b + order[at..]) == a + b + c
    ensures a[|a| - 1] == All(n, order)[at] && c[0] == All(n, order)[at + 1]
  {
  }

  lemma InsertDistinct(n: nat, order: seq<nat>, b: seq<nat>, at: nat, a: seq<nat>, c: seq<nat>)
    requires at <= |order| && a == [n] + order[..at] && c == order[at..] + [n + 1]
    requires Distinct(order + b) && (forall k :: 0 <= k < |order| ==> order[k] < n) && forall k :: 0 <= k < |b| ==>
               b[k] < n
    ensures Distinct(a + b + c)
  {
    hide *;
    DistinctParts(order, b);
    assert order == order[..at] + order[at..];
    DistinctSwap(order[..at], order[at..], b);
    var inner := order[..at] + b + order[at..];
    assert forall k :: 0 <= k < |inner| ==> inner[k] < n;
    DistinctEnds(n, inner);
    assert a + b + c == [n] + inner + [n + 1];
  }

  lemma DistinctSwap(x: seq<nat>, y: seq<nat>, b: seq<nat>)
    requires Distinct(x + y + b)
    ensures Distinct(x + b + y)
  {
    SwapKeepsDistinct(x + y + b, x, y, b, [], x + b + y);
  }

  lemma DistinctEnds(n: nat, s: seq<nat>)
    requires Distinct(s) && forall k :: 0 <= k < |s| ==> s[k] < n
    ensures Distinct([n] + s + [n + 1])
  {
  }

  lemma ListedFacts(next: seq<int>, prev: seq<int>, n: nat, order: seq<nat>, tailSet: bool)
    requires Listed(next, prev, n, order, tailSet)
    ensures (forall k :: 0 <= k < |order| ==> order[k] < n) && Distinct(order)
  {
  }

  // A pointer outside the list may be changed.
  lemma OutsideTheList(next: seq<int>, prev: seq<int>, n: nat, order: seq<nat>, tailSet: bool, i: nat, v: int)
    requires Listed(next, prev, n, order, tailSet) && i < n && i !in order && i < |next|
    ensures Listed(next[i := v], prev, n, order, tailSet) && Listed(next, prev[i := v], n, order, tailSet)
  {
    var all := All(n, order);
    assert all == [n] + order + [n + 1] && i !in all;
    OutsideDoesNotMatter(next, prev, next[i := v], prev, all, tailSet);
    OutsideDoesNotMatter(next, prev, next, prev[i := v], all, tailSet);
  }

  lemma StretchAt(next: seq<int>, prev: seq<int>, b: seq<nat>, k: nat)
    requires Backward(prev, b) && 0 < k < |b|
    ensures b[k] < |prev| && prev[b[k]] == b[k - 1]
  {
  }

  // A node that is in neither may be linked to whatever one likes.
  lemma LooseNode(next: seq<int>, prev: seq<int>, n: nat, order: seq<nat>, tailSet: bool, b: seq<nat>, i: nat, v: int)
    requires Listed(next, prev, n, order, tailSet) && Forward(next, b) && i < n && i !in order && i !in b
    ensures i < |next| ==> Listed(next[i := v], prev, n, order, tailSet) && Forward(next[i := v], b)
  {
  }

  lemma NotInAll(n: nat, order: seq<nat>, x: nat)
    requires x < n && x !in order
    ensures x !in All(n, order)
  {
  }

  // The block from 'm' up to 'e' has been cut out of the list that held 'order'.
  ghost predicate CutOut(next: seq<int>, prev: seq<int>, n: nat, order: seq<nat>, m: nat, e: nat, tailSet: bool) {
    && m < e <= |order| && (forall k :: 0 <= k < |order| ==> order[k] < n)
    && Listed(next, prev, n, order[..m] + order[e..], tailSet)
    && Forward(next, order[m..e]) && Backward(prev, order[m..e])
  }

  lemma CutOutIs(next: seq<int>, prev: seq<int>, n: nat, order: seq<nat>, m: nat, e: nat, tailSet: bool)
    requires m < e <= |order|
    ensures CutOut(next, prev, n, order, m, e, tailSet) <==>
              && (forall k :: 0 <= k < |order| ==> order[k] < n)
              && Listed(next, prev, n, order[..m] + order[e..], tailSet)
              && Forward(next, order[m..e]) && Backward(prev, order[m..e])
  {
  }

  // The node behind what has been cut first, unless that is the block that has been cut next, is where
  // that block goes; and the traversal goes on behind the block.
  lemma TargetAfterCuts(n: nat, items: seq<Item>, order: seq<nat>, m: nat, e: nat, t: nat, u: nat) returns (at: nat)
    requires Positions(items, order) && m < e <= |order| && t < u <= |order| && (e <= t || u <= m)
    ensures
      var order1, m1 := order[..t] + order[u..], Shifted(m, t, u);
      var e1 := m1 + (e - m);
      && e1 <= |order1| && order1[m1..e1] == order[m..e]
      && var order2 := order1[..m1] + order1[e1..];
         && at <= |order2| && order2[..at] + order[m..e] + order2[at..] == Replaced(order, m, e, t, u)
         && All(n, order2)[at + 1] == (if u == m then All(n, order1)[e1 + 1] else All(n, order)[u + 1])
         && All(n, order1)[e1 + 1] == All(n, order)[(if e == t then u else e) + 1]
         && (at == |order2| ==> u == |order| || e1 == |order1|)
         && (u == |order| || e1 == |order1| <==> u == |order| || e == |order|)
  {
    hide *;
    at := PlaceAfterCuts(items, order, m, e, t, u);
    ShiftedIs(m, t, u);
    var order1, m1 := order[..t] + order[u..], Shifted(m, t, u);
    var e1 := m1 + (e - m);
    CutBothIs(order, m, e, t, u, order1, m1, at);
    AllAt(n, order);
    AllAt(n, order1);
    AllAt(n, order1[..m1] + order1[e1..]);
  }

  // Linking the members of a block to each other leaves the list as it is.
  lemma TornStays(next: seq<int>, prev: seq<int>, n: nat, order: seq<nat>, tailSet: bool, i: nat, v: int, j: nat,
                  w: int)
    requires Listed(next, prev, n, order, tailSet) && i < n && j < n && i !in order && j !in order
    requires i < |next| && j < |next| && |next| == |prev|
    ensures Listed(next[i := v][j := w], prev, n, order, tailSet)
            && Listed(next, prev[i := v][j := w], n, order, tailSet)
  {
    hide *;
    OutsideTheList(next, prev, n, order, tailSet, i, v);
    OutsideTheList(next[i := v], prev, n, order, tailSet, j, w);
    OutsideTheList(next, prev[i := v], n, order, tailSet, j, w);
  }

  lemma SameIfAdjacent(n: nat, order: seq<nat>, m: nat, u: nat)
    requires Distinct(order) && (forall k :: 0 <= k < |order| ==> order[k] < n) && m < |order| && u <= |order|
    ensures All(n, order)[u + 1] == order[m] <==> u == m
  {
  }

  lemma BlockIs(order: seq<nat>, m: nat, e: nat)
    requires m <= e <= |order|
    ensures Block(order, m, e) == set x | x in order[m..e]
  {
  }

  // The members of a block are not in the list from which it has been cut.
  lemma BlockIsElsewhere(order: seq<nat>, m: nat, e: nat)
    requires Distinct(order) && m <= e <= |order|
    ensures forall k :: m <= k < e ==> order[k] !in order[..m] + order[e..]
  {
  }

  // Inserting the stretch from 'i' to 'l' in front of 't' makes the list hold 'order'.
  ghost predicate InsertMakes(next: seq<int>, prev: seq<int>, i: nat, l: nat, t: nat, n: nat, order: seq<nat>,
                              tailSet: bool) {
    && |next| == |prev| && i < |next| && l < |next| && t < |next| && 0 <= prev[t] < |next|
    && Listed(next[prev[t] := i][l := t], prev[i := prev[t]][t := l], n, order, tailSet)
  }

  lemma InsertMakesInRange(next: seq<int>, prev: seq<int>, i: nat, l: nat, t: nat, n: nat, order: seq<nat>,
                           tailSet: bool)
    requires InsertMakes(next, prev, i, l, t, n, order, tailSet)
    ensures t < |prev| && 0 <= prev[t] < |next|
  {
  }

  lemma InsertMakesIt(next: seq<int>, prev: seq<int>, i: nat, l: nat, t: nat, n: nat, order: seq<nat>, tailSet: bool)
    requires |next| == |prev| && i < |next| && l < |next| && t < |next| && 0 <= prev[t] < |next|
    ensures InsertMakes(next, prev, i, l, t, n, order, tailSet) <==>
              Listed(next[prev[t] := i][l := t], prev[i := prev[t]][t := l], n, order, tailSet)
  {
  }

  // Putting the block that has been cut next in front of that node makes it replace what has been cut
  // first.
  lemma InsertAfterCuts(next: seq<int>, prev: seq<int>, items: seq<Item>, order: seq<nat>, order1: seq<nat>,
                        m: nat, e: nat, t: nat, u: nat, m1: nat, e1: nat, target: nat, tailSet: bool)
    requires Positions(items, order) && m < e <= |order| && t < u <= |order| && (e <= t || u <= m)
    requires order1 == order[..t] + order[u..] && m1 == Shifted(m, t, u) && m1 < e1 == m1 + (e - m) <= |order1|
    requires CutOut(next, prev, |items|, order1, m1, e1, tailSet || u == |order| || e1 == |order1|)
    requires target == if u == m then All(|items|, order1)[e1 + 1] else All(|items|, order)[u + 1]
    ensures order1[m1..e1] == order[m..e]
    ensures InsertMakes(next, prev, order1[m1], order1[e1 - 1], target, |items|, Replaced(order, m, e, t, u),
                        tailSet || u == |order| || e == |order|)
    ensures All(|items|, order1)[e1 + 1] == All(|items|, order)[(if e == t then u else e) + 1]
  {
    hide *;
    var at := TargetAfterCuts(|items|, items, order, m, e, t, u);
    OthersStay(items, order, t, u, order1);
    var order2, b, tailSet2 := order1[..m1] + order1[e1..], order1[m1..e1], tailSet || u == |order| || e1 == |order1|;
    CutOutIs(next, prev, |items|, order1, m1, e1, tailSet2);
    DistinctAgain(order1, m1, e1);
    assert b[0] == order1[m1] && b[|b| - 1] == order1[e1 - 1];
    InsertListed(next, prev, |items|, order2, tailSet2, b, at);
    ListedLengths(next, prev, |items|, order2, tailSet2);
    InsertMakesIt(next, prev, b[0], b[|b| - 1], target, |items|, Replaced(order, m, e, t, u),
                  tailSet || u == |order| || e == |order|);
  }

  lemma ListedLengths(next: seq<int>, prev: seq<int>, n: nat, order: seq<nat>, tailSet: bool)
    requires Listed(next, prev, n, order, tailSet)
    ensures |next| == |prev| && n + 1 < |next| && forall k :: 0 <= k < |All(n, order)| ==> All(n, order)[k] <= n + 1
  {
  }

  // The node at which the traversal goes on.
  lemma ResumeNode(n: nat, order: seq<nat>, next: nat, order': seq<nat>)
    requires next <= |order| && (next < |order| ==> order[next] in order')
    ensures Resume(order, next, order') <= |order'| && (Resume(order, next, order') == |order'| <==> next == |order|)
    ensures All(n, order)[next + 1] == All(n, order')[Resume(order, next, order') + 1]
  {
  }

  // Where the pointers of the nodes lead when the list has been built.
  function NextAtStart(n: nat, k: nat): (i: nat)
    requires k <= n
    ensures i <= n + 1
  {
    if k == n then (if n == 0 then 1 else 0) else if k + 1 < n then k + 1 else n + 1
  }

  function PrevAtStart(n: nat, k: nat): (i: nat)
    requires k < n
    ensures i <= n + 1
  {
    if k == 0 then n else k - 1
  }

  // The list as it is built.
  lemma StartIsListed(next: seq<int>, prev: seq<int>, n: nat)
    requires |next| == n + 2 && |prev| == n + 2 && prev[n] == -1 && prev[n + 1] == -1
    requires (forall k: nat :: k <= n ==> next[k] == NextAtStart(n, k)) && forall k: nat :: k < n ==>
               prev[k] == PrevAtStart(n, k)
    ensures Listed(next, prev, n, Identity(n), false)
  {
    var all := All(n, Identity(n));
    assert all == [n] + Identity(n) + [n + 1];
    assert forall k :: 0 < k <= n ==> all[k] == k - 1;
  }
}
