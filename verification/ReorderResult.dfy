/**
 What reordering does to the providers of a chain, in terms of their flows: who is placed and who is
 given up, and whether the static phase stays in front.
 */
module ReorderResult {
  import opened Basics
  import opened Topology
  import opened ReorderLaws
  import opened ReorderGraph
  import opened ReorderOrder

  // Provider 'x' has to come after a supplier of the type.
  ghost predicate Requires(items: seq<Item>, init: seq<TypeCode>, x: nat, down: bool, t: TypeCode)
    requires x < |items|
  {
    t in Taken(items[x], down) && t != NO_TYPE && !Optional(items[x], down, t)
        && (down ==> Available(items, init, true, t))
  }

  // There is something it has to come after at all.
  ghost predicate WaitsForSomething(items: seq<Item>, init: seq<TypeCode>, x: nat)
    requires x < |items|
  {
    (exists j: nat :: OrderEdge(items, x, j)) || exists down, t :: Requires(items, init, x, down, t)
  }

  ghost predicate SuppliedIn(items: seq<Item>, init: seq<TypeCode>, released: seq<nat>, down: bool, t: TypeCode) {
    (down && t in init) || exists z: nat :: z < |items| && z in released && t in Sent(items[z], down)
  }

  // The node of a type is free from the start, or released by a provider, exactly if the init function
  // takes the type, or the provider sends it.
  lemma NodeSupplied(items: seq<Item>, init: seq<TypeCode>, g: Graph, released: seq<nat>, down: bool, t: TypeCode)
    requires g.items == items && GraphOk(g) && TypesNumbered(items, init, g)
    requires t in NumbersOf(g, down)
    ensures
      var b := NumbersOf(g, down)[t];
      IsTypeNode(g, b) && (Supplied(g, InitNodes(g, init), released, b) <==> SuppliedIn(items, init, released, down, t))
  {
    var b := NumbersOf(g, down)[t];
    if b in InitNodes(g, init) {
      var t' :| t' in init && t' != NO_TYPE && t' in g.downTypes && g.downTypes[t'] == b;
      assert down && t' == t;
    }
    if z: nat :| z in released && z < |items| && b in Gives(g, z) {
      GivesTheType(items, init, g, down, t, z);
    }
    if z: nat :| z < |items| && z in released && t in Sent(items[z], down) {
      assert b in Gives(g, z);
    }
  }

  lemma NeededNode(items: seq<Item>, init: seq<TypeCode>, g: Graph, x: nat, down: bool, t: TypeCode)
    requires BuiltFrom(items, init, g) && forall y :: y in InitNodes(g, init) ==> IsTypeNode(g, y)
    requires x < |items| && Requires(items, init, x, down, t)
    ensures t in NumbersOf(g, down) && NumbersOf(g, down)[t] in g.after[x]
    ensures
      var released := Final(g, InitNodes(g, init)).released;
      NumbersOf(g, down)[t] in released <==> SuppliedIn(items, init, released, down, t)
  {
    var b := NumbersOf(g, down)[t];
    assert NeedsType(items, g, down, t, x, b);
    NodeSupplied(items, init, g, Final(g, InitNodes(g, init)).released, down, t);
    TypeReleasedExactlyIfSupplied(g, InitNodes(g, init), b);
  }

  // A provider marked Reorder is released exactly if there is something it has to come after, and all of
  // that is there: the last fixed static provider, and for every type it requires a released supplier
  // or the init function.
  lemma ReleasedExactlyIfSupplied(items: seq<Item>, init: seq<TypeCode>, g: Graph, x: nat)
    requires BuiltFrom(items, init, g) && forall y :: y in InitNodes(g, init) ==> IsTypeNode(g, y)
    requires x < |items| && items[x].reorder
    ensures
      var released := Final(g, InitNodes(g, init)).released;
      x in released <==>
        && WaitsForSomething(items, init, x)
        && (forall j: nat :: OrderEdge(items, x, j) ==> j in released)
        && (forall down, t :: Requires(items, init, x, down, t) ==> SuppliedIn(items, init, released, down, t))
    ensures x in Final(g, InitNodes(g, init)).released <==> x in Final(g, InitNodes(g, init)).done
  {
    var released := Final(g, InitNodes(g, init)).released;
    ReleasedExactlyIfMet(g, InitNodes(g, init), x);
    forall down, t | Requires(items, init, x, down, t)
      ensures
        var nums := NumbersOf(g, down);
        t in nums && nums[t] in g.after[x] && (nums[t] in released <==> SuppliedIn(items, init, released, down, t))
    {
      NeededNode(items, init, g, x, down, t);
    }
    forall b: nat | b in g.after[x]
      ensures OrderEdge(items, x, b)
              || exists down, t ::
                   Requires(items, init, x, down, t) && t in NumbersOf(g, down) && NumbersOf(g, down)[t] == b
    {
      if !OrderEdge(items, x, b) {
        var down, t :| NeedsType(items, g, down, t, x, b);
        assert Requires(items, init, x, down, t) && NumbersOf(g, down)[t] == b;
      }
    }
  }

  function NumbersOf(g: Graph, down: bool): map<TypeCode, nat> {
    if down then g.downTypes else g.upTypes
  }

  // A literal marked Reorder takes nothing: whoever may need it, it is given up and put last.
  const WANTED: TypeCode := 4
  const GIVEN_UP: seq<Item> := [
    Item(true, OtherGroup, [], [WANTED], [], [], {}), Item(false, RunGroup, [WANTED], [], [], [], {})]

  lemma LiteralGivenUp(g: Graph)
    requires BuiltFrom(GIVEN_UP, [], g)
    ensures 0 !in Final(g, InitNodes(g, [])).done && Result(g, Final(g, InitNodes(g, []))) == [1, 0]
  {
    var st := Final(g, InitNodes(g, []));
    assert GIVEN_UP[0] == Item(true, OtherGroup, [], [WANTED], [], [], {}) && GIVEN_UP[1].inputs == [WANTED];
    assert !WaitsForSomething(GIVEN_UP, [], 0) by {
      forall j: nat ensures !OrderEdge(GIVEN_UP, 0, j) {
      }
      forall down, t ensures !Requires(GIVEN_UP, [], 0, down, t) {
      }
    }
    ReleasedExactlyIfSupplied(GIVEN_UP, [], g, 0);
    var r := Result(g, st);
    ResultIsPermutation(g, InitNodes(g, []));
    FinalInv(g, InitNodes(g, []));
    LeftoversFacts(st.done, 2);
    assert 0 in Leftovers(st.done, 2) && 0 !in st.out;
    assert r[|r| - 1] == Leftovers(st.done, 2)[|Leftovers(st.done, 2)| - 1];
  }

  // ------------------------------------------------------------------ Order among those marked Reorder

  predicate SameMembers(a: seq<TypeCode>, b: seq<TypeCode>) {
    (forall t :: t in a ==> t in b) && (forall t :: t in b ==> t in a)
  }

  // The same rules apply to both.
  predicate AlikeTo(p: Item, q: Item) {
    && p.reorder && q.reorder && p.group == q.group
    && SameMembers(p.inputs, q.inputs) && SameMembers(p.outputs, q.outputs)
    && SameMembers(p.returned, q.returned) && SameMembers(p.received, q.received)
    && p.consumptionOptional == q.consumptionOptional
  }

  lemma WishesRecorded(items: seq<Item>, init: seq<TypeCode>, g: Graph)
    requires BuiltFrom(items, init, g)
    ensures GraphOk(g) && Chained(g) && WishesOk(g)
  {
    hide StronglyBuilt, TypesNumbered, Chained;
    forall a: nat, b: nat | a < |g.items| && b in g.weakAfter[a] ensures b < |g.items| {
      assert Wishes(items, a, b);
    }
  }

  lemma AlikeWish(items: seq<Item>, x: nat, y: nat)
    requires x < |items| && y < |items| && AlikeTo(items[x], items[y])
    ensures forall b :: Wishes(items, x, b) <==> Wishes(items, y, b)
    ensures forall b :: Wishes(items, b, x) <==> Wishes(items, b, y)
  {
    assert forall down, t :: t in Taken(items[x], down) <==> t in Taken(items[y], down);
    assert forall down, t :: t in Sent(items[x], down) <==> t in Sent(items[y], down);
    hide Taken, Sent;
    assert forall down, t :: PureSupplier(items, down, t, x) <==> PureSupplier(items, down, t, y);
  }

  lemma AlikeWait(items: seq<Item>, init: seq<TypeCode>, g: Graph, x: nat, y: nat)
    requires BuiltFrom(items, init, g) && x < |items| && y < |items| && AlikeTo(items[x], items[y])
    ensures x < |g.after| && y < |g.after| && g.after[x] == g.after[y]
  {
    assert forall down, t :: t in Taken(items[x], down) <==> t in Taken(items[y], down);
    assert forall down, t :: Optional(items[x], down, t) <==> Optional(items[y], down, t);
    forall b: nat ensures b in g.after[x] <==> b in g.after[y] {
      assert OrderEdge(items, x, b) <==> OrderEdge(items, y, b);
      hide Taken, Optional, OrderEdge, WeaklyBuilt, TypesNumbered;
      assert forall down, t :: NeedsType(items, g, down, t, x, b) <==> NeedsType(items, g, down, t, y, b);
    }
  }

  // Two providers marked Reorder to which the same rules apply come out in their original order.
  lemma AlikeKeepOrder(items: seq<Item>, init: seq<TypeCode>, g: Graph, x: nat, y: nat)
    requires BuiltFrom(items, init, g) && forall z :: z in InitNodes(g, init) ==> IsTypeNode(g, z)
    requires x < y < |items| && AlikeTo(items[x], items[y])
    ensures Precedes(Result(g, Final(g, InitNodes(g, init))), x, y)
  {
    WishesRecorded(items, init, g);
    AlikeWait(items, init, g, x, y);
    AlikeWish(items, x, y);
    forall b: nat | b in g.weakAfter[x] ensures b in g.weakAfter[y] {
      assert Wishes(items, x, b) && !(Wishes(items, b, x) && x < b);
    }
    hide BuiltFrom, GraphOk, Wishes;
    assert forall b: nat :: b in g.weakAfter[x] ==> b in g.weakAfter[y];
    OriginalOrder(g, InitNodes(g, init), x, y);
  }

  // A provider that takes a type, or returns it, comes after one that sends it, or receives it, without taking it
  // itself, if that can be had: unless that one wishes to come after it in turn and stands behind it.
  lemma SuppliersAwaited(items: seq<Item>, init: seq<TypeCode>, g: Graph, down: bool, t: TypeCode, x: nat,
                         path: seq<nat>)
    requires BuiltFrom(items, init, g) && forall z :: z in InitNodes(g, init) ==> IsTypeNode(g, z)
    requires x < |items| && items[x].reorder && x in Final(g, InitNodes(g, init)).released
    requires path != [] && path[|path| - 1] < |items| && WithinReach(g, InitNodes(g, init), x, path)
    requires forall z :: z in path ==> z in Final(g, InitNodes(g, init)).released
    requires t != NO_TYPE && t in (if down then items[x].inputs else items[x].returned)
    requires
      var w := items[path[|path| - 1]];
      t in (if down then w.outputs else w.received) && t !in if down then w.inputs else w.returned
    requires path[|path| - 1] < x || !Wishes(items, path[|path| - 1], x)
    ensures Precedes(Result(g, Final(g, InitNodes(g, init))), path[|path| - 1], x)
  {
    var w, nodes := path[|path| - 1], InitNodes(g, init);
    WishesRecorded(items, init, g);
    assert PureSupplier(items, down, t, w) && t in Taken(items[x], down);
    assert Wishes(items, x, w);
    assert w in g.weakAfter[x];
    hide BuiltFrom, GraphOk, Chained, WithinReach;
    FinalInv(g, nodes);
    ReleasedIsDone(g, nodes, Final(g, nodes), x);
    WishesAreMet(g, nodes, x, path);
  }

  lemma ReleasedIsDone(g: Graph, init: seq<nat>, st: State, x: nat)
    requires Inv(g, init, st) && x in st.released
    ensures x in st.done
  {
  }

  // Two providers that pass the same type through, where the documentation promises their original order: the
  // first also takes a type that only the second sends, and comes after it.
  const LATE: TypeCode := 5
  const PASSING: seq<Item> := [
    Item(false, RunGroup, [], [WANTED], [], [], {}), Item(true, RunGroup, [WANTED, LATE], [WANTED], [], [], {}),
    Item(true, RunGroup, [WANTED], [WANTED, LATE], [], [], {}), Item(false, RunGroup, [WANTED], [], [], [], {})]

  lemma PassThroughsSwapped(g: Graph)
    requires BuiltFrom(PASSING, [], g)
    ensures Precedes(Result(g, Final(g, InitNodes(g, []))), 2, 1)
  {
    hide *;
    InitNodesAre(g);
    PassingWaits(g);
    FixedAreDone(g, [], 0);
    FreeIsReleased(g, [], 0);
    PassingNeeds();
    ReleasedExactlyIfSupplied(PASSING, [], g, 2);
    ReleasedExactlyIfSupplied(PASSING, [], g, 1);
    PassingSupplied(Final(g, []).released);
    SuppliersComeFirst(PASSING, [], g, true, LATE, 1);
    OnlySecond();
  }

  lemma InitNodesAre(g: Graph)
    requires BuiltFrom(PASSING, [], g)
    ensures InitNodes(g, []) == [] && GraphOk(g) && Chained(g) && g.items == PASSING
  {
  }

  lemma PassingWaits(g: Graph)
    requires BuiltFrom(PASSING, [], g)
    ensures |PASSING| == 4 && 0 < |g.after| && g.after[0] == {} && !PASSING[0].reorder
    ensures PASSING[1].reorder && PASSING[2].reorder
  {
    forall b: nat ensures b !in g.after[0] {
      assert !OrderEdge(PASSING, 0, b);
      assert forall down, t :: !NeedsType(PASSING, g, down, t, 0, b);
    }
  }

  lemma PassingNeeds()
    ensures forall x: nat, j: nat :: 1 <= x < 3 ==> x < |PASSING| && !OrderEdge(PASSING, x, j)
    ensures forall down, t :: Requires(PASSING, [], 2, down, t) <==> down && t == WANTED
    ensures forall down, t :: Requires(PASSING, [], 1, down, t) <==> down && (t == WANTED || t == LATE)
    ensures WaitsForSomething(PASSING, [], 1) && WaitsForSomething(PASSING, [], 2)
  {
    assert PASSING[0].outputs == [WANTED] && PASSING[2].outputs == [WANTED, LATE];
    assert Available(PASSING, [], true, WANTED) && Available(PASSING, [], true, LATE);
    assert Requires(PASSING, [], 1, true, WANTED) && Requires(PASSING, [], 2, true, WANTED);
  }

  lemma OnlySecond()
    ensures forall z: nat :: z < |PASSING| && LATE in Sent(PASSING[z], true) ==> z == 2
  {
  }

  lemma PassingSupplied(released: seq<nat>)
    ensures 0 in released ==> SuppliedIn(PASSING, [], released, true, WANTED)
    ensures 2 in released ==> SuppliedIn(PASSING, [], released, true, LATE)
    ensures LATE in Taken(PASSING[1], true) && LATE != NO_TYPE && !Optional(PASSING[1], true, LATE)
    ensures Available(PASSING, [], true, LATE)
  {
    assert PASSING[0].outputs == [WANTED] && PASSING[2].outputs == [WANTED, LATE];
    assert WANTED in Sent(PASSING[0], true) && LATE in Sent(PASSING[2], true);
  }
  // Before reordering the first 'n' providers are the static phase, which ends with a provider of the
  // static group; none of them is marked Reorder.
  ghost predicate StaticFirst(items: seq<Item>, n: nat) {
    && n <= |items| && (forall i: nat :: i < n ==> !items[i].reorder)
    && (n > 0 ==> items[n - 1].group == StaticGroup)
    && (forall i: nat :: n <= i < |items| ==> if items[i].reorder then items[i].group == RunGroup
        else items[i].group != StaticGroup)
  }

  // Then they still are afterwards, in the same order: the place of the invoke function before
  // reordering separates the two phases.
  lemma StaticPhaseStaysInFront(items: seq<Item>, init: seq<TypeCode>, g: Graph, n: nat)
    requires BuiltFrom(items, init, g) && (forall y :: y in InitNodes(g, init) ==> IsTypeNode(g, y))
             && StaticFirst(items, n)
    ensures
      var r := Result(g, Final(g, InitNodes(g, init)));
      n <= |r| && forall k :: 0 <= k < n ==> r[k] == k
  {
    hide *;
    BuiltIs(items, init, g);
    StaticFirstIs(items, n);
    var nodes := InitNodes(g, init);
    var r := Result(g, Final(g, nodes));
    ResultIsPermutation(g, nodes);
    if n > 0 {
      var last: nat := n - 1;
      assert last in r;
      var p :| 0 <= p < |r| && r[p] == last;
      forall k | 0 <= k <= p ensures r[k] < |items| && !items[r[k]].reorder {
        assert r[k] in r;
        if items[r[k]].reorder {
          MovedComeLater(items, init, g, n, r[k]);
          NotBefore(r, last, r[k], p, k);
        }
      }
      FixedKeepOrder(g, nodes);
      InFront(g, r, p, n);
    }
  }

  lemma BuiltIs(items: seq<Item>, init: seq<TypeCode>, g: Graph)
    requires BuiltFrom(items, init, g)
    ensures g.items == items && GraphOk(g) && Chained(g)
  {
  }

  lemma StaticFirstIs(items: seq<Item>, n: nat)
    requires StaticFirst(items, n)
    ensures n <= |items| && forall i: nat :: i < n ==> !items[i].reorder
  {
  }

  lemma NotBefore(r: seq<nat>, a: nat, b: nat, p: nat, k: nat)
    requires Distinct(r) && Precedes(r, a, b) && p < |r| && k < |r| && r[p] == a && r[k] == b
    ensures p < k
  {
    var i, j :| 0 <= i < j < |r| && r[i] == a && r[j] == b;
  }

  // If everybody up to position 'p', where the last of the first 'n' providers is, is fixed, these are
  // the first 'n'.
  lemma InFront(g: Graph, r: seq<nat>, p: nat, n: nat)
    requires 0 < n <= |g.items| && p < |r| && r[p] == n - 1 && KeepFixed(g, r) == Fixed(g.items, |g.items|)
    requires forall k :: 0 <= k <= p ==> r[k] < |g.items| && !g.items[r[k]].reorder
    requires forall i: nat :: i < n ==> !g.items[i].reorder
    ensures n <= |r| && forall k :: 0 <= k < n ==> r[k] == k
  {
    hide *;
    var front, f := r[..p + 1], Fixed(g.items, |g.items|);
    assert r == front + r[p + 1..];
    KeepFixedSplits(g, front, r[p + 1..]);
    KeepFixedAll(g, front);
    FixedStarts(g.items, n, |g.items|);
    FixedFacts(g.items, |g.items|);
    assert forall k :: 0 <= k <= p ==> f[k] == front[k] == r[k];
    SamePlace(f, p, n - 1);
  }

  lemma SamePlace(f: seq<nat>, p: nat, q: nat)
    requires Increasing(f) && p < |f| && q < |f| && f[p] == f[q]
    ensures p == q
  {
  }

  // Whoever is marked Reorder comes after the last provider of the static phase.
  lemma MovedComeLater(items: seq<Item>, init: seq<TypeCode>, g: Graph, n: nat, x: nat)
    requires BuiltFrom(items, init, g) && (forall y :: y in InitNodes(g, init) ==> IsTypeNode(g, y))
             && StaticFirst(items, n)
    requires 0 < n && x < |items| && items[x].reorder
    ensures Precedes(Result(g, Final(g, InitNodes(g, init))), n - 1, x)
  {
    hide *;
    var nodes := InitNodes(g, init);
    BuiltIs(items, init, g);
    StaticFirstIs(items, n);
    ReleasedExactlyIfMet(g, nodes, x);
    if x in Final(g, nodes).released {
      BehindLastStatic(items, init, g, n, x);
      StrongOrder(g, nodes, x, n - 1);
    } else {
      FixedAreDone(g, nodes, n - 1);
      GivenUpComesLast(g, Final(g, nodes), n - 1, x);
    }
  }

  lemma BehindLastStatic(items: seq<Item>, init: seq<TypeCode>, g: Graph, n: nat, x: nat)
    requires BuiltFrom(items, init, g) && StaticFirst(items, n) && 0 < n && x < |items| && items[x].reorder
    ensures n - 1 in g.after[x]
  {
    assert LastStatic(items, |items|, n - 1);
    assert OrderEdge(items, x, n - 1);
  }

  lemma GivenUpComesLast(g: Graph, st: State, a: nat, x: nat)
    requires a in st.out && x < |g.items| && x !in st.done
    ensures Precedes(Result(g, st), a, x)
  {
    var r, left := Result(g, st), Leftovers(st.done, |g.items|);
    LeftoversFacts(st.done, |g.items|);
    assert x in left;
    var i :| 0 <= i < |st.out| && st.out[i] == a;
    var j :| 0 <= j < |left| && left[j] == x;
    assert r[i] == a && r[|st.out| + j] == x;
  }

  lemma FixedAreDone(g: Graph, init: seq<nat>, x: nat)
    requires GraphOk(g) && Chained(g) && forall x :: x in init ==> IsTypeNode(g, x)
    requires x < |g.items| && !g.items[x].reorder
    ensures x in Final(g, init).done && x in Final(g, init).out
  {
    FinalInv(g, init);
    var st := Final(g, init);
    var m: nat :| FixedInOrder(g, st, m);
    var f := Fixed(g.items, |g.items|);
    FixedFacts(g.items, |g.items|);
    assert x in f;
    var k :| 0 <= k < |f| && f[k] == x;
    assert f[k] in st.done;
  }

  lemma {:induction false} KeepFixedSplits(g: Graph, s: seq<nat>, t: seq<nat>)
    ensures KeepFixed(g, s + t) == KeepFixed(g, s) + KeepFixed(g, t)
  {
    if t == [] {
      assert s + t == s;
    } else {
      var t0, x := t[..|t| - 1], t[|t| - 1];
      assert s + t == (s + t0) + [x] && t == t0 + [x];
      KeepFixedAppend(g, s + t0, x);
      KeepFixedAppend(g, t0, x);
      KeepFixedSplits(g, s, t0);
    }
  }

  lemma {:induction false} KeepFixedAll(g: Graph, s: seq<nat>)
    requires forall k :: 0 <= k < |s| ==> s[k] < |g.items| && !g.items[s[k]].reorder
    ensures KeepFixed(g, s) == s
  {
    if s != [] {
      KeepFixedAll(g, s[..|s| - 1]);
      assert s == s[..|s| - 1] + [s[|s| - 1]];
    }
  }

  lemma {:induction false} FixedStarts(items: seq<Item>, n: nat, m: nat)
    requires n <= m <= |items| && forall i: nat :: i < n ==> !items[i].reorder
    ensures n <= |Fixed(items, m)| && forall k :: 0 <= k < n ==> Fixed(items, m)[k] == k
    ensures m == n ==> |Fixed(items, m)| == n
  {
    if m > n {
      FixedStarts(items, n, m - 1);
    } else if m > 0 {
      FixedStarts(items, n - 1, m - 1);
    }
  }

  // If the static phase does not end with a provider of the static group, but with a literal, say, a
  // provider of the run phase can get in between: this list comes out as 0, 2, 1, 3.
  const NOTHING: Item := Item(false, OtherGroup, [], [], [], [], {})
  const OVERTAKING: seq<Item> := [
    NOTHING.(group := StaticGroup), NOTHING, NOTHING.(reorder := true, group := RunGroup), NOTHING.(group := RunGroup)]

  lemma LiteralOvertaken(g: Graph)
    requires BuiltFrom(OVERTAKING, [], g)
    ensures GraphOk(g) && Chained(g) && InitNodes(g, []) == [] && Precedes(Result(g, Final(g, [])), 2, 1)
  {
    hide *;
    BuiltIs(OVERTAKING, [], g);
    OvertakingEdges(g);
    ResultIsPermutation(g, []);
    FirstSteps(g);
    ResultIs(g, Final(g, []));
    var second: nat := 1;
    assert second in Result(g, Final(g, []));
    SecondPlace(Final(g, []).out, Leftovers(Final(g, []).done, |g.items|));
  }

  lemma ResultIs(g: Graph, st: State)
    ensures Result(g, st) == st.out + Leftovers(st.done, |g.items|)
  {
  }

  lemma SecondPlace(s: seq<nat>, t: seq<nat>)
    requires |s| >= 2 && s[0] == 0 && s[1] == 2 && 1 in s + t
    ensures Precedes(s + t, 2, 1)
  {
    var r := s + t;
    var j :| 0 <= j < |r| && r[j] == 1;
    assert r[1] == 2 && r[0] == 0 && 1 < j;
  }

  // The first provider calls the other two, and the one marked Reorder has the lower priority.
  lemma FirstSteps(g: Graph)
    requires GraphOk(g) && Chained(g) && Overtaking(g)
    ensures |Final(g, []).out| >= 2 && Final(g, []).out[0] == 0 && Final(g, []).out[1] == 2
  {
    hide Overtaking, Chained, Run, Step, Inv;
    var st := InitialState(g, []);
    InvHoldsInitially(g, []);
    InvIsGraph(g, [], st);
    var st1 := FirstStep(g);
    StepProgresses(g, st);
    StepProgresses(g, st1);
    RunStep(g, st);
    RunStep(g, st1);
    SecondStep(g, st1);
    OutGrows(g, Step(g, st1));
  }

  lemma RunStep(g: Graph, st: State)
    requires GraphOk(g) && InGraph(g, st) && !Finished(st)
    ensures InGraph(g, Step(g, st)) && Run(g, st) == Run(g, Step(g, st))
  {
    StepProgresses(g, st);
  }

  // What has come out stays at the front.
  lemma {:induction false} OutGrows(g: Graph, st: State)
    requires GraphOk(g) && InGraph(g, st)
    ensures st.out <= Run(g, st).out
    decreases Undone(g, st), Waiting(st)
  {
    hide GraphOk, InGraph, Step, ProcessOne;
    if !Finished(st) {
      StepProgresses(g, st);
      StepGrows(g, st);
      OutGrows(g, Step(g, st));
    }
  }

  lemma StepGrows(g: Graph, st: State)
    requires GraphOk(g) && InGraph(g, st) && !Finished(st)
    ensures st.out <= Step(g, st).out
  {
    ChosenInGraph(g, st);
    hide ReleaseAll, ReleaseWeakly, Gives;
  }

  lemma FirstStep(g: Graph) returns (st1: State)
    requires GraphOk(g) && Overtaking(g) && InGraph(g, InitialState(g, []))
    ensures !Finished(InitialState(g, [])) && st1 == Step(g, InitialState(g, []))
    ensures st1.out == [0] && st1.done == {0} && st1.unblocked == multiset{1, 2}
  {
    var st := InitialState(g, []);
    assert st.queue[0] == 0;
    st1 := Step(g, st);
    var s1 := State(g.after, g.weakAfter, multiset{}, multiset{}, st.queue[1..], {0}, [0], [0]);
    assert Quiet(ReleaseWeakly(s1, 0, {}), 0, {1, 2}) == {1, 2};
    assert Stirred(ReleaseWeakly(s1, 0, {}), 0, {1, 2}) == {};
  }

  lemma SecondStep(g: Graph, st: State)
    requires GraphOk(g) && Overtaking(g) && InGraph(g, st) && st.out == [0] && st.done == {0}
             && st.unblocked == multiset{1, 2}
    ensures !Finished(st) && Step(g, st).out == [0, 2]
  {
    assert 2 in st.unblocked;
    assert IsLeast(g, st.unblocked, 2);
    LeastIsUnique(g, st.unblocked, 2, Least(g, st.unblocked));
  }

  // What the graph of the four looks like.
  ghost predicate Overtaking(g: Graph)
    requires GraphOk(g)
  {
    && g.items == OVERTAKING && Fixed(g.items, 4) == [0, 1, 3]
    && g.after[0] == {} && g.after[1] == {0} && g.after[2] == {0} && g.before[0] == {1, 2}
    && g.weakAfter[1] == {} && g.weakAfter[2] == {} && g.weakBefore[0] == {}
    && Gives(g, 0) == []
  }

  lemma OvertakingEdges(g: Graph)
    requires BuiltFrom(OVERTAKING, [], g)
    ensures InitNodes(g, []) == [] && |g.items| == 4 && Overtaking(g)
  {
    var items := OVERTAKING;
    assert items[0] == NOTHING.(group := StaticGroup) && items[1] == NOTHING;
    assert items[2] == NOTHING.(reorder := true, group := RunGroup) && items[3] == NOTHING.(group := RunGroup);
    assert forall a: nat, b: nat, down, t :: a < 4 ==> !NeedsType(items, g, down, t, a, b);
    assert forall a: nat, b: nat :: a < 4 ==> !Wishes(items, a, b);
    forall b: nat ensures !OrderEdge(items, 0, b) {
    }
    forall b: nat ensures OrderEdge(items, 1, b) <==> b == 0 {
      if b == 0 {
        assert PreviousFixed(items, 1, 0);
      }
    }
    forall b: nat ensures OrderEdge(items, 2, b) <==> b == 0 {
      if b == 0 {
        assert LastStatic(items, 4, 0);
      }
    }
    forall b: nat ensures OrderEdge(items, 3, b) ==> b == 1 {
    }
    forall x: nat ensures x in g.before[0] <==> x == 1 || x == 2 {
      assert x < |g.after| ==> (x in g.before[0] <==> 0 in g.after[x]);
      assert x in g.before[0] ==> x < 4;
    }
    FixedFour(items);
  }

  lemma FixedFour(items: seq<Item>)
    requires items == OVERTAKING
    ensures Fixed(items, 4) == [0, 1, 3]
  {
    assert Fixed(items, 0) == [];
    assert Fixed(items, 1) == [0];
    assert Fixed(items, 2) == [0, 1];
    assert Fixed(items, 3) == [0, 1];
  }
}
