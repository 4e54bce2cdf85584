/**
 Which chains the directives can be carried out on, and the chain that results.
 */
module SpliceSuccess {
  import opened Basics
  import opened Splice
  import opened SpliceLaws
  import opened SpliceResult
  import opened SpliceOrder
  import opened SpliceInput
  import opened SpliceTail

  // No provider has more than one directive, and none that a directive refers to has one.
  ghost predicate TargetsArePlain(items: seq<Item>) {
    && (forall i: nat :: i < |items| ==> DirectiveCount(items[i]) <= 1)
    && (forall i: nat :: i < |items| && Directed(items[i]) ==> Plain(items, Target(items[i])))
  }

  // The name is there, in one place.
  ghost predicate Unambiguous(items: seq<Item>, name: string) {
    FirstNamed(items, name, 0) < |items| && !Duplicated(items, name)
  }

  // That is: some provider has it, and nobody without it stands between two that have.
  lemma UnambiguousExactlyIf(items: seq<Item>, name: string)
    ensures Unambiguous(items, name) <==>
              && (exists i: nat :: i < |items| && items[i].origin == name)
              && forall a: nat, c: nat, b: nat ::
                   a < c < b < |items| && items[a].origin == name && items[b].origin == name ==> items[c].origin == name
  {
    FirstIs(items, name, 0);
    var i := FirstNamed(items, name, 0);
    if i < |items| {
      LastIs(items, i);
      var l := LastNamed(items, i);
      if !Duplicated(items, name) {
        forall a: nat, c: nat, b: nat | a < c < b < |items| && items[a].origin == name && items[b].origin == name
          ensures items[c].origin == name
        {
          assert i <= a && b <= l;
        }
      } else {
        var j: nat :| l < j < |items| && items[j].origin == name;
        assert l + 1 < j && items[l + 1].origin != name;
        assert i < l + 1 < j;
      }
    }
  }

  lemma {:induction false} FirstIs(items: seq<Item>, name: string, from: nat)
    requires from <= |items|
    ensures
      var i := FirstNamed(items, name, from);
      && (forall k: nat :: from <= k < i ==> items[k].origin != name)
      && (i < |items| ==> items[i].origin == name)
    decreases |items| - from
  {
    if from < |items| && items[from].origin != name {
      FirstIs(items, name, from + 1);
    }
  }

  lemma {:induction false} LastIs(items: seq<Item>, i: nat)
    requires i < |items|
    ensures
      var j := LastNamed(items, i);
      && (forall k: nat :: i <= k <= j ==> items[k].origin == items[i].origin)
      && (j + 1 < |items| ==> items[j + 1].origin != items[i].origin)
    decreases |items| - i
  {
    if i + 1 < |items| && items[i + 1].origin == items[i].origin {
      LastIs(items, i + 1);
    }
  }

  ghost predicate Replaces(items: seq<Item>, i: nat, name: string) {
    i < |items| && name != "" && items[i].replacing == name
  }

  ghost predicate Inserts(items: seq<Item>, i: nat, name: string) {
    i < |items| && Directed(items[i]) && OpOf(items[i]) != Replace && Target(items[i]) == name
  }

  // All that replace a name stand together, insertions at it come before them, and nothing is to be
  // inserted behind the last provider.
  ghost predicate Resolvable(items: seq<Item>) {
    && (forall i: nat :: i < |items| && Directed(items[i]) ==> Unambiguous(items, Target(items[i])))
    && (forall name, a: nat, b: nat, c: nat ::
          a < c < b && Replaces(items, a, name) && Replaces(items, b, name) ==> items[c].replacing == name)
    && (forall name, n: nat, r: nat :: Inserts(items, n, name) && Replaces(items, r, name) ==> n < r)
    && !BehindTheEnd(items)
  }

  lemma PlainTargets(items: seq<Item>)
    requires TargetsArePlain(items)
    ensures WellDirected(items) && ReplacedArePlain(items)
  {
  }

  lemma TargetIsPlain(items: seq<Item>, i: nat)
    requires TargetsArePlain(items) && i < |items| && Directed(items[i])
    ensures Plain(items, Target(items[i]))
  {
  }

  // ------------------------------------------------------------------ What success requires

  // Directives that have been dealt with could be.
  ghost predicate Met(items: seq<Item>, s: State) {
    && (forall n: nat :: Done(items, s, n) ==> Unambiguous(items, Target(items[n])))
    && (forall name, a: nat, b: nat, c: nat ::
          a < c < b && Replaces(items, a, name) && Replaces(items, b, name) && Done(items, s, a)
              && Done(items, s, b) ==>
            items[c].replacing == name)
    && (forall name, n: nat, r: nat :: Inserts(items, n, name) && Replaces(items, r, name) && Done(items, s, n) ==>
          n < r)
    && (forall n: nat :: Done(items, s, n) && OpOf(items[n]) == After ==> Target(items[n]) != items[|items| - 1].origin)
  }

  // If something is to be inserted behind the last provider, that stays where it is.
  ghost predicate EndOpen(items: seq<Item>, s: State) {
    BehindTheEnd(items) && |items| - 1 in s.order ==> IsLast(s.order, |items| - 1) && !s.tailSet
  }

  // What has been replaced cannot be found any more.
  lemma DoneIsGone(items: seq<Item>, s: State, r: nat, name: string)
    requires Inv(items, s) && ReplacedArePlain(items) && Done(items, s, r) && Replaces(items, r, name)
    ensures name in s.gone
  {
    if r !in s.order {
      GoneIsPlain(items, s, r);
    }
  }

  lemma Contiguous(s: seq<nat>, m: nat, e: nat, a: nat, y: nat, b: nat)
    requires m <= e <= |s| && Distinct(s) && a in s[m..e] && b in s[m..e] && Precedes(s, a, y) && Precedes(s, y, b)
    ensures y in s[m..e]
  {
    var i :| 0 <= i < e - m && s[m..e][i] == a;
    var j :| 0 <= j < e - m && s[m..e][j] == b;
    var p, k :| 0 <= p < k < |s| && s[p] == a && s[k] == y;
    var l, q :| 0 <= l < q < |s| && s[l] == y && s[q] == b;
    assert s[m + i] == a && s[m + j] == b;
    assert p == m + i && q == m + j && l == k;
    assert s[m..e][k - m] == y;
  }

  lemma InsertIsNoReplace(items: seq<Item>, n: nat, name: string)
    requires n < |items| && WellDirected(items)
    ensures Replaces(items, n, name) ==> Directed(items[n]) && OpOf(items[n]) == Replace && Target(items[n]) == name
    ensures items[n].after != "" ==> Directed(items[n]) && OpOf(items[n]) == After && Target(items[n]) == items[n].after
  {
    assert DirectiveCount(items[n]) <= 1;
  }

  // Nobody stands between two providers of one block that does not belong to it.
  lemma ReplacersTogether(items: seq<Item>, s: State, op: Op, name: string, m: seq<nat>, t: seq<nat>, s': State,
                          g: string, a: nat, b: nat, c: nat)
    requires Went(items, s, op, name, m, t, s') && Sound(items, s) && Met(items, s)
    requires a < c < b && Replaces(items, a, g) && Replaces(items, b, g) && Done(items, s', a) && Done(items, s', b)
    ensures items[c].replacing == g
  {
    hide *;
    SoundParts(items, s);
    WentParts(items, s, op, name, m, t, s');
    WentDone(items, s, op, name, m, t, s', a);
    WentDone(items, s, op, name, m, t, s', b);
    ReplacesIs(items, a, g);
    ReplacesIs(items, b, g);
    InsertIsNoReplace(items, a, g);
    InsertIsNoReplace(items, b, g);
    if Done(items, s, a) { DoneIsGone(items, s, a, g); }
    if Done(items, s, b) { DoneIsGone(items, s, b, g); }
    if a in m && b in m {
      ToReplaceIsFixed(items, s, g, a);
      ToReplaceIsFixed(items, s, g, b);
      var y := SomebodyBetween(items, s, a, b, a, c);
      WentApplied(items, s, op, name, m, t, s');
      Contiguous(s.order, s.k, End(items, s), a, y, b);
      ReplacingIs(items, y, name);
    } else {
      MetTogether(items, s, g, a, b, c);
    }
  }

  lemma ReplacesIs(items: seq<Item>, i: nat, name: string)
    requires Replaces(items, i, name)
    ensures i < |items| && items[i].replacing == name && name != ""
  {
  }

  lemma ReplacingIs(items: seq<Item>, y: nat, name: string)
    requires y < |items| && OpOf(items[y]) == Replace && Target(items[y]) == name
    ensures items[y].replacing == name
  {
  }

  lemma MetTogether(items: seq<Item>, s: State, name: string, a: nat, b: nat, c: nat)
    requires Met(items, s) && a < c < b && Replaces(items, a, name) && Replaces(items, b, name)
    requires Done(items, s, a) && Done(items, s, b)
    ensures items[c].replacing == name
  {
  }

  lemma InsertsComeFirst(items: seq<Item>, s: State, op: Op, name: string, m: seq<nat>, t: seq<nat>, s': State,
                         g: string, n: nat, r: nat)
    requires Went(items, s, op, name, m, t, s') && Sound(items, s) && DoneFirst(items, s')
    requires Inserts(items, n, g) && Replaces(items, r, g) && n in m && Done(items, s', n)
    ensures n < r
  {
    hide *;
    SoundParts(items, s);
    WentParts(items, s, op, name, m, t, s');
    ReplacesIs(items, r, g);
    InsertIsNoReplace(items, r, g);
    InsertsIs(items, n, g);
    if Done(items, s', r) {
      WentDone(items, s, op, name, m, t, s', r);
      if Done(items, s, r) { DoneIsGone(items, s, r, g); }
    } else {
      NotDone(items, s', n, r);
    }
  }

  lemma InsertsIs(items: seq<Item>, n: nat, name: string)
    requires Inserts(items, n, name)
    ensures n < |items| && OpOf(items[n]) != Replace && Target(items[n]) == name
  {
  }

  lemma NotDone(items: seq<Item>, s: State, n: nat, r: nat)
    requires DoneFirst(items, s) && Done(items, s, n) && r < |items| && Directed(items[r]) && !Done(items, s, r)
    ensures n < r
  {
  }

  // An insertion behind the last provider would have crashed.
  lemma NotBehindTheEnd(items: seq<Item>, s: State, name: string, m: seq<nat>, t: seq<nat>, s': State)
    requires Went(items, s, After, name, m, t, s') && Sound(items, s) && EndOpen(items, s) && items != []
    ensures name != items[|items| - 1].origin
  {
    hide *;
    SoundParts(items, s);
    WentParts(items, s, After, name, m, t, s');
    WentApplied(items, s, After, name, m, t, s');
    TailParts(items, s, After, name);
    MissingAreGone(items, s);
    var l := |items| - 1;
    if name == items[l].origin {
      var n := m[0];
      assert n in m;
      InsertsAfter(items, n);
      BehindIs(items, n);
      if l in s.order {
        OpenIs(items, s);
        InTheFirstRow(items, s.gone, name, l);
        TargetIs(items, s, name, true);
        LastIndex(s.order, TargetAt(items, s, name, true), l);
      }
    }
  }

  lemma OpenIs(items: seq<Item>, s: State)
    requires EndOpen(items, s) && BehindTheEnd(items) && |items| - 1 in s.order
    ensures IsLast(s.order, |items| - 1) && !s.tailSet
  {
  }

  lemma MissingAreGone(items: seq<Item>, s: State)
    requires StateOk(items, s)
    ensures forall l: nat :: l < |items| && l !in s.order ==> items[l].origin in s.gone
  {
  }

  lemma KeepsEndOpen(items: seq<Item>, s: State, op: Op, name: string, m: seq<nat>, t: seq<nat>, s': State)
    requires Went(items, s, op, name, m, t, s') && EndOpen(items, s) && TargetsArePlain(items)
    ensures EndOpen(items, s')
  {
    hide *;
    WentParts(items, s, op, name, m, t, s');
    WentApplied(items, s, op, name, m, t, s');
    TailParts(items, s, op, name);
    PositionsDistinct(items, s.order);
    var l := |items| - 1;
    if BehindTheEnd(items) && l in s'.order {
      OpenIs(items, s);
      EndIsPlain(items);
      LastStays(items, s, op, name, m, t, s', l);
      LastIndex(s.order, |s.order| - 1, l);
      StretchIndex(s.order, s.k, End(items, s), |s.order| - 1);
      if op == Replace {
        VictimsAre(items, s, op, name, m, t, s');
        StretchIndex(s.order, Victims(items, s, name).0, Victims(items, s, name).1, |s.order| - 1);
      }
    }
    StaysOpen(items, s');
  }

  lemma StaysOpen(items: seq<Item>, s: State)
    requires BehindTheEnd(items) && |items| - 1 in s.order ==> IsLast(s.order, |items| - 1) && !s.tailSet
    ensures EndOpen(items, s)
  {
  }

  lemma EndIsPlain(items: seq<Item>)
    requires TargetsArePlain(items) && BehindTheEnd(items)
    ensures items != [] && !Directed(items[|items| - 1])
  {
    var i: nat :| i < |items| && items[i].after == items[|items| - 1].origin;
    PlainTargets(items);
    InsertIsNoReplace(items, i, "");
    TargetIsPlain(items, i);
  }

  lemma KeepsMet(items: seq<Item>, s: State, op: Op, name: string, m: seq<nat>, t: seq<nat>, s': State)
    requires Went(items, s, op, name, m, t, s') && Sound(items, s) && DoneFirst(items, s') && Met(items, s)
             && EndOpen(items, s)
    ensures Met(items, s')
  {
    hide *;
    SoundParts(items, s);
    WentParts(items, s, op, name, m, t, s');
    WentApplied(items, s, op, name, m, t, s');
    forall n: nat | Done(items, s', n)
      ensures n < |items| && Unambiguous(items, Target(items[n]))
      ensures OpOf(items[n]) == After ==> Target(items[n]) != items[|items| - 1].origin
    {
      WentDone(items, s, op, name, m, t, s', n);
      if n in m {
        FindableIs(items, s.gone, name);
        if op == After {
          NotBehindTheEnd(items, s, name, m, t, s');
        }
      } else {
        MetIs(items, s, n);
      }
    }
    forall g, a: nat, b: nat, c: nat | a < c < b && Replaces(items, a, g) && Replaces(items, b, g)
        && Done(items, s', a) && Done(items, s', b)
      ensures c < |items| && items[c].replacing == g
    {
      ReplacesIs(items, b, g);
      ReplacersTogether(items, s, op, name, m, t, s', g, a, b, c);
    }
    forall g, n: nat, r: nat | Inserts(items, n, g) && Replaces(items, r, g) && Done(items, s', n) ensures n < r {
      WentDone(items, s, op, name, m, t, s', n);
      if n in m {
        InsertsComeFirst(items, s, op, name, m, t, s', g, n, r);
      } else {
        MetFirst(items, s, g, n, r);
      }
    }
    AllMet(items, s');
  }

  lemma FindableIs(items: seq<Item>, gone: set<string>, name: string)
    requires Findable(items, gone, name)
    ensures Unambiguous(items, name)
  {
  }

  lemma MetIs(items: seq<Item>, s: State, n: nat)
    requires Met(items, s) && Done(items, s, n)
    ensures n < |items| && Unambiguous(items, Target(items[n]))
    ensures OpOf(items[n]) == After ==> Target(items[n]) != items[|items| - 1].origin
  {
  }

  lemma MetFirst(items: seq<Item>, s: State, g: string, n: nat, r: nat)
    requires Met(items, s) && Inserts(items, n, g) && Replaces(items, r, g) && Done(items, s, n)
    ensures n < r
  {
  }

  lemma AllMet(items: seq<Item>, s: State)
    requires forall n: nat :: Done(items, s, n) ==> n < |items| && Unambiguous(items, Target(items[n]))
    requires forall n: nat :: Done(items, s, n) && OpOf(items[n]) == After ==>
               Target(items[n]) != items[|items| - 1].origin
    requires forall g, a: nat, b: nat, c: nat ::
               a < c < b && Replaces(items, a, g) && Replaces(items, b, g) && Done(items, s, a) && Done(items, s, b) ==>
                 c < |items| && items[c].replacing == g
    requires forall g, n: nat, r: nat :: Inserts(items, n, g) && Replaces(items, r, g) && Done(items, s, n) ==> n < r
    ensures Met(items, s)
  {
    hide Directed, OpOf, Target, Unambiguous;
  }

  lemma {:induction false} TraverseMet(items: seq<Item>, s: State)
    requires Sound(items, s) && StateOk(items, s) && WellDirected(items) && TargetsArePlain(items)
    requires Met(items, s) && EndOpen(items, s) && Traverse(items, s).Next?
    ensures Sound(items, Traverse(items, s).s) && Met(items, Traverse(items, s).s)
    decreases Undone(s), |s.order| - s.k
  {
    hide *;
    TraverseStep(items, s);
    StateParts(items, s);
    if s.k < |s.order| {
      StepStaysSound(items, s);
      StepStaysMet(items, s);
      TraverseMet(items, Step(items, s).s);
    }
  }

  lemma StepStaysMet(items: seq<Item>, s: State)
    requires Sound(items, s) && s.k < |s.order| && StateOk(items, s) && WellDirected(items) && TargetsArePlain(items)
    requires Met(items, s) && EndOpen(items, s) && Step(items, s).Next?
    ensures Met(items, Step(items, s).s) && EndOpen(items, Step(items, s).s)
  {
    hide *;
    StepIs(items, s);
    StateParts(items, s);
    NotPending(items, s);
    if Pending(items, s) {
      var op, name := OpOf(items[s.order[s.k]]), TargetOf(items[s.order[s.k]], OpOf(items[s.order[s.k]]));
      var s' := Step(items, s).s;
      var m, t := TurnIs(items, s, op, name);
      KeepsDoneFirst(items, s, op, name, m, t, s');
      KeepsMet(items, s, op, name, m, t, s');
      KeepsEndOpen(items, s, op, name, m, t, s');
    } else {
      PassingStaysMet(items, s, s.(k := s.k + 1));
    }
  }

  lemma PassingStaysMet(items: seq<Item>, s: State, s': State)
    requires s' == s.(k := s'.k) && Met(items, s) && EndOpen(items, s)
    ensures Met(items, s') && EndOpen(items, s')
  {
    hide Directed, OpOf, Target, Unambiguous, IsLast, BehindTheEnd, Inserts, Replaces;
    assert forall x: nat :: Done(items, s', x) ==> Done(items, s, x);
  }

  // At the end all directives have been dealt with.
  lemma AllDone(items: seq<Item>)
    requires WellDirected(items) && ReplacedArePlain(items) && Traverse(items, Start(items)).Next?
    ensures forall n: nat :: n < |items| && Directed(items[n]) ==> Done(items, Traverse(items, Start(items)).s, n)
  {
    var s := Traverse(items, Start(items)).s;
    StartInv(items);
    TraverseKeeps(items, Start(items));
    forall n: nat | n < |items| && Directed(items[n]) ensures Done(items, s, n) {
      DoneAtTheEnd(items, s, n);
    }
  }

  lemma DoneAtTheEnd(items: seq<Item>, s: State, n: nat)
    requires Inv(items, s) && ReplacedArePlain(items) && s.k == |s.order| && n < |items| && Directed(items[n])
    ensures Done(items, s, n)
  {
    assert s.order[..s.k] == s.order;
    if n !in s.order {
      GoneIsPlain(items, s, n);
    }
  }

  lemma StartIsMet(items: seq<Item>)
    requires TargetsArePlain(items)
    ensures Met(items, Start(items)) && EndOpen(items, Start(items))
  {
    StartKnowsTail(items);
    assert forall x: nat :: !Done(items, Start(items), x);
  }

  lemma SuccessRequires(items: seq<Item>)
    requires TargetsArePlain(items) && WellDirected(items) && Traverse(items, Start(items)).Next?
    ensures Resolvable(items)
  {
    hide *;
    PlainTargets(items);
    StartIsSound(items);
    SoundParts(items, Start(items));
    StartIsMet(items);
    TraverseMet(items, Start(items));
    AllDone(items);
    MetIsResolvable(items, Traverse(items, Start(items)).s);
  }

  lemma MetIsResolvable(items: seq<Item>, s: State)
    requires WellDirected(items) && Met(items, s)
    requires forall n: nat :: n < |items| && Directed(items[n]) ==> Done(items, s, n)
    ensures Resolvable(items)
  {
    hide Directed, Unambiguous, OpOf, Target, WellDirected;
    forall name, r: nat | Replaces(items, r, name) ensures Done(items, s, r) {
      InsertIsNoReplace(items, r, name);
    }
    if BehindTheEnd(items) {
      var i: nat :| i < |items| && items[i].after == items[|items| - 1].origin;
      InsertIsNoReplace(items, i, "");
    }
  }

  // ------------------------------------------------------------------ What suffices for it

  // Neighbours with directives stay neighbours.
  ghost predicate Adjacent(items: seq<Item>, s: State) {
    forall r: nat, c: nat | r + 1 < |items| && Waiting(items, s, r) && Waiting(items, s, r + 1) ::
      !(Precedes(s.order, r, c) && Precedes(s.order, c, r + 1))
  }

  ghost predicate Waiting(items: seq<Item>, s: State, r: nat) {
    r < |items| && Directed(items[r]) && r !in s.done
  }

  // Neighbours that replace the same name do so together.
  ghost predicate Whole(items: seq<Item>, s: State) {
    forall r: nat, name | Replaces(items, r, name) && Replaces(items, r + 1, name) :: r in s.done <==> r + 1 in s.done
  }

  lemma WaitingIsFixed(items: seq<Item>, s: State, r: nat)
    requires Inv(items, s) && ReplacedArePlain(items) && Waiting(items, s, r)
    ensures r < |items| && r in s.order && Fixed(items, s, r) && Directed(items[r]) && r !in s.done
  {
    if r !in s.order {
      GoneIsPlain(items, s, r);
    }
  }

  lemma StillWaiting(items: seq<Item>, s: State, op: Op, name: string, m: seq<nat>, t: seq<nat>, s': State, r: nat)
    requires Went(items, s, op, name, m, t, s') && Sound(items, s) && Waiting(items, s', r)
    ensures Waiting(items, s, r) && r !in m && r !in t && r in s.order && r in s'.order
    ensures r < |items| && Directed(items[r])
  {
    hide Went, Sound, Directed;
    SoundParts(items, s);
    WentParts(items, s, op, name, m, t, s');
    WaitingIsFixed(items, s, r);
  }

  lemma KeepsAdjacent(items: seq<Item>, s: State, op: Op, name: string, m: seq<nat>, t: seq<nat>, s': State)
    requires Went(items, s, op, name, m, t, s') && Sound(items, s) && TargetsArePlain(items) && Adjacent(items, s)
    ensures Adjacent(items, s')
  {
    hide Went, Sound, TargetsArePlain, Precedes, Waiting;
    forall r: nat, c: nat | r + 1 < |items| && Waiting(items, s', r) && Waiting(items, s', r + 1)
      ensures !(Precedes(s'.order, r, c) && Precedes(s'.order, c, r + 1))
    {
      StayAdjacent(items, s, op, name, m, t, s', r, c);
    }
  }

  lemma AdjacentIs(items: seq<Item>, s: State, r: nat, c: nat)
    requires Adjacent(items, s) && r + 1 < |items| && Waiting(items, s, r) && Waiting(items, s, r + 1)
    ensures !(Precedes(s.order, r, c) && Precedes(s.order, c, r + 1))
  {
  }

  lemma InPrecedes(s: seq<nat>, a: nat, b: nat)
    requires Precedes(s, a, b)
    ensures a in s && b in s
  {
  }

  lemma StayAdjacent(items: seq<Item>, s: State, op: Op, name: string, m: seq<nat>, t: seq<nat>, s': State, r: nat,
                     c: nat)
    requires Went(items, s, op, name, m, t, s') && Sound(items, s) && TargetsArePlain(items) && Adjacent(items, s)
    requires r + 1 < |items| && Waiting(items, s', r) && Waiting(items, s', r + 1)
    ensures !(Precedes(s'.order, r, c) && Precedes(s'.order, c, r + 1))
  {
    hide *;
    StillWaiting(items, s, op, name, m, t, s', r);
    StillWaiting(items, s, op, name, m, t, s', r + 1);
    if Precedes(s'.order, r, c) && Precedes(s'.order, c, r + 1) {
      InPrecedes(s'.order, r, c);
      if c in m {
        WentParts(items, s, op, name, m, t, s');
        var there := WentWhere(items, s, op, name, m, t, s');
        TargetIsPlain(items, c);
        PlainIs(items, name, there);
        StandsThere(s.order, m, s'.order, there, r, c);
        StandsThere(s.order, m, s'.order, there, r + 1, c);
        AdjacentIs(items, s, r, there);
      } else {
        WentOrder(items, s, op, name, m, t, s', r, c);
        WentOrder(items, s, op, name, m, t, s', c, r + 1);
        AdjacentIs(items, s, r, c);
      }
    }
  }

  lemma KeepsWhole(items: seq<Item>, s: State, op: Op, name: string, m: seq<nat>, t: seq<nat>, s': State)
    requires Went(items, s, op, name, m, t, s') && Sound(items, s) && Adjacent(items, s) && Whole(items, s)
    ensures Whole(items, s')
  {
    hide Went, Sound, Replaces, Adjacent;
    WentParts(items, s, op, name, m, t, s');
    forall r: nat, g | Replaces(items, r, g) && Replaces(items, r + 1, g) ensures r in s'.done <==> r + 1 in s'.done {
      SoundParts(items, s);
      ReplacesIs(items, r, g);
      ReplacesIs(items, r + 1, g);
      InsertIsNoReplace(items, r, g);
      InsertIsNoReplace(items, r + 1, g);
      NotVictims(items, s, op, name, m, t, s', r);
      NotVictims(items, s, op, name, m, t, s', r + 1);
      if r !in s.done {
        BothInTheBlock(items, s, op, name, m, t, s', r, g);
      }
    }
  }

  lemma NotVictims(items: seq<Item>, s: State, op: Op, name: string, m: seq<nat>, t: seq<nat>, s': State, r: nat)
    requires Went(items, s, op, name, m, t, s') && ReplacedArePlain(items) && r < |items| && Directed(items[r])
    ensures r !in t
  {
    if r in t {
      VictimsArePlain(items, s, op, name, m, t, s', r);
    }
  }

  lemma BothInTheBlock(items: seq<Item>, s: State, op: Op, name: string, m: seq<nat>, t: seq<nat>, s': State, r: nat,
                       g: string)
    requires Went(items, s, op, name, m, t, s') && Sound(items, s) && Adjacent(items, s)
    requires Replaces(items, r, g) && Replaces(items, r + 1, g) && r !in s.done && r + 1 !in s.done
    ensures r in m <==> r + 1 in m
  {
    hide *;
    SoundParts(items, s);
    ReplacesIs(items, r, g);
    ReplacesIs(items, r + 1, g);
    InsertIsNoReplace(items, r, g);
    InsertIsNoReplace(items, r + 1, g);
    WaitingIs(items, s, r);
    WaitingIs(items, s, r + 1);
    WaitingIsFixed(items, s, r);
    WaitingIsFixed(items, s, r + 1);
    AscendingIs(items, s, r, r + 1);
    WentParts(items, s, op, name, m, t, s');
    WentApplied(items, s, op, name, m, t, s');
    WentAt(items, s, op, name, m, t, s');
    if r + 1 in m && r !in m {
      BehindBlock(items, s, r + 1, r);
      OneWayOnly(s.order, r, r + 1);
    }
    if r in m && r + 1 !in m {
      ReplacingIs(items, r, name);
      forall c: nat ensures !(Precedes(s.order, r, c) && Precedes(s.order, c, r + 1)) {
        AdjacentIs(items, s, r, c);
      }
      NextInBlock(items, s, name, r);
    }
  }

  lemma WaitingIs(items: seq<Item>, s: State, r: nat)
    requires r < |items| && Directed(items[r]) && r !in s.done
    ensures Waiting(items, s, r)
  {
  }

  // The block goes on as long as the directive is the same.
  lemma NextInBlock(items: seq<Item>, s: State, name: string, r: nat)
    requires AtDirective(items, s, Replace, name) && r in s.order[s.k..End(items, s)] && r + 1 < |items|
    requires items[r + 1].replacing == name && Precedes(s.order, r, r + 1)
    requires forall c: nat :: !(Precedes(s.order, r, c) && Precedes(s.order, c, r + 1))
    ensures r + 1 in s.order[s.k..End(items, s)]
  {
    hide *;
    AtParts(items, s, Replace, name);
    PositionsDistinct(items, s.order);
    var e := End(items, s);
    var i, j := NextTo(s.order, r, r + 1);
    var l :| 0 <= l < e - s.k && s.order[s.k..e][l] == r;
    assert s.order[s.k + l] == r;
    SameIndex(s.order, s.k + l, i);
    EndsThere(items, s, name);
    assert j < e;
    assert s.order[s.k..e][j - s.k] == r + 1;
  }

  lemma SameIndex(s: seq<nat>, i: nat, j: nat)
    requires Distinct(s) && i < |s| && j < |s| && s[i] == s[j]
    ensures i == j
  {
  }

  lemma NextTo(s: seq<nat>, a: nat, b: nat) returns (i: nat, j: nat)
    requires Precedes(s, a, b) && forall c: nat :: !(Precedes(s, a, c) && Precedes(s, c, b))
    ensures i + 1 == j < |s| && s[i] == a && s[j] == b
  {
    i, j :| 0 <= i < j < |s| && s[i] == a && s[j] == b;
    if i + 1 < j {
      assert Precedes(s, a, s[i + 1]) && Precedes(s, s[i + 1], b);
    }
  }

  lemma EndsThere(items: seq<Item>, s: State, name: string)
    requires AtDirective(items, s, Replace, name)
    ensures s.k < |s.order| && Positions(items, s.order)
    ensures End(items, s) < |s.order| ==>
              s.order[End(items, s)] < |items|
              && items[s.order[End(items, s)]].replacing != name
  {
    hide BlockEnd, WellDirected;
    BlockFacts(items, s.order, s.k, Tagged(Replace, name));
  }

  // All that replace a name are done when one of them is.
  lemma {:induction false} WholeStretch(items: seq<Item>, s: State, name: string, a: nat, b: nat)
    requires Resolvable(items) && Whole(items, s) && a <= b && Replaces(items, a, name) && Replaces(items, b, name)
             && a in s.done
    ensures b in s.done
  {
    if a < b {
      assert Replaces(items, b - 1, name) by {
        if a < b - 1 {
          assert items[b - 1].replacing == name;
        }
      }
      WholeStretch(items, s, name, a, b - 1);
      assert Replaces(items, b - 1 + 1, name);
    }
  }

  lemma StillFindable(items: seq<Item>, s: State, n: nat)
    requires Resolvable(items) && Sound(items, s) && Whole(items, s) && WellDirected(items)
    requires n < |items| && Directed(items[n]) && n !in s.done
    ensures Findable(items, s.gone, Target(items[n]))
  {
    hide Resolvable, Sound, Whole, Directed, Inv, StateOk, Unambiguous, WellDirected, Ascending, Placed, Beside;
    SoundParts(items, s);
    var name := Target(items[n]);
    ResolvableParts(items, n);
    if name in s.gone {
      var y: nat :| Done(items, s, y) && items[y].replacing == name;
      DoneParts(items, s, y);
      TargetNotEmpty(items, n);
      assert Replaces(items, y, name);
      assert y < n;
      if OpOf(items[n]) == Replace {
        ReplacingIs(items, n, name);
        WholeStretch(items, s, name, y, n);
      } else {
        InsertedFirst(items, name, n, y);
      }
    }
    FindableIf(items, s.gone, name);
  }

  lemma TargetNotEmpty(items: seq<Item>, n: nat)
    requires n < |items| && Directed(items[n])
    ensures Target(items[n]) != ""
  {
  }

  lemma ResolvableParts(items: seq<Item>, n: nat)
    requires Resolvable(items) && n < |items| && Directed(items[n])
    ensures Unambiguous(items, Target(items[n])) && !BehindTheEnd(items)
  {
  }

  lemma InsertedFirst(items: seq<Item>, name: string, n: nat, r: nat)
    requires Resolvable(items) && n < |items| && Directed(items[n]) && OpOf(items[n]) != Replace
             && Target(items[n]) == name
    requires Replaces(items, r, name)
    ensures n < r
  {
    assert Inserts(items, n, name);
  }

  lemma FindableIf(items: seq<Item>, gone: set<string>, name: string)
    requires name !in gone && Unambiguous(items, name)
    ensures Findable(items, gone, name)
  {
  }

  lemma SandwichReplaces(items: seq<Item>, name: string)
    requires Resolvable(items) && Sandwich(items, name)
    ensures
      var first := FirstNamed(items, name, 0);
      0 < first < |items| && items[first].origin == name && items[first].replacing == name
          && Replaces(items, first - 1, name)
  {
    var first := FirstNamed(items, name, 0);
    FirstNamedIs(items, name, 0);
    assert Replaces(items, first - 1, name) && Replaces(items, LastNamed(items, first) + 1, name);
  }

  lemma NoSandwich(items: seq<Item>, name: string)
    requires TargetsArePlain(items) && Resolvable(items)
    ensures !Sandwich(items, name)
  {
    hide *;
    PlainTargets(items);
    if Sandwich(items, name) {
      SandwichReplaces(items, name);
      ReplacedIsPlain(items, FirstNamed(items, name, 0) - 1, name);
      PlainMeans(items, name, FirstNamed(items, name, 0));
    }
  }

  lemma ReplacedIsPlain(items: seq<Item>, i: nat, name: string)
    requires ReplacedArePlain(items) && Replaces(items, i, name)
    ensures Plain(items, name) && name != ""
  {
  }

  lemma StepSucceeds(items: seq<Item>, s: State)
    requires Resolvable(items) && TargetsArePlain(items) && Sound(items, s) && Whole(items, s) && TailKnown(items, s)
    requires StateOk(items, s) && WellDirected(items) && s.k < |s.order|
    ensures Step(items, s).Next?
  {
    hide *;
    StepIs(items, s);
    StateParts(items, s);
    NotPending(items, s);
    if Pending(items, s) {
      var n := s.order[s.k];
      var op, name := OpOf(items[n]), TargetOf(items[n], OpOf(items[n]));
      StillFindable(items, s, n);
      TargetIsTarget(items[n]);
      TailParts(items, s, op, name);
      ResolvableParts(items, n);
      if Step(items, s).Crashed? {
        CrashedAt(items, s);
      }
      if Step(items, s).Torn? {
        TornAt(items, s);
        forall g ensures !Sandwich(items, g) {
          NoSandwich(items, g);
        }
      }
    }
  }

  lemma TargetIsTarget(x: Item)
    ensures Target(x) == TargetOf(x, OpOf(x))
  {
  }

  lemma {:induction false} TraverseSucceeds(items: seq<Item>, s: State)
    requires Resolvable(items) && TargetsArePlain(items) && Sound(items, s) && Whole(items, s) && Adjacent(items, s)
    requires TailKnown(items, s) && StateOk(items, s) && WellDirected(items)
    ensures Traverse(items, s).Next?
    decreases Undone(s), |s.order| - s.k
  {
    hide *;
    TraverseStep(items, s);
    StateParts(items, s);
    if s.k < |s.order| {
      StepSucceeds(items, s);
      StepStaysSound(items, s);
      StepKeepsTailKnown(items, s);
      StepStaysWhole(items, s);
      TraverseSucceeds(items, Step(items, s).s);
    }
  }

  lemma StepStaysWhole(items: seq<Item>, s: State)
    requires TargetsArePlain(items) && Sound(items, s) && Whole(items, s) && Adjacent(items, s)
    requires StateOk(items, s) && WellDirected(items) && s.k < |s.order| && Step(items, s).Next?
    ensures Whole(items, Step(items, s).s) && Adjacent(items, Step(items, s).s)
  {
    hide *;
    StepIs(items, s);
    StateParts(items, s);
    NotPending(items, s);
    if Pending(items, s) {
      var op, name := OpOf(items[s.order[s.k]]), TargetOf(items[s.order[s.k]], OpOf(items[s.order[s.k]]));
      var m, t := TurnIs(items, s, op, name);
      KeepsWhole(items, s, op, name, m, t, Step(items, s).s);
      KeepsAdjacent(items, s, op, name, m, t, Step(items, s).s);
    } else {
      PassingStaysWhole(items, s, s.(k := s.k + 1));
    }
  }

  lemma PassingStaysWhole(items: seq<Item>, s: State, s': State)
    requires s' == s.(k := s'.k) && Whole(items, s) && Adjacent(items, s)
    ensures Whole(items, s') && Adjacent(items, s')
  {
    hide Directed, Precedes, Replaces;
    assert forall r: nat :: Waiting(items, s', r) ==> Waiting(items, s, r);
  }

  lemma StartIsWhole(items: seq<Item>)
    ensures Whole(items, Start(items)) && Adjacent(items, Start(items))
  {
    hide Directed;
  }

  // The directives can be carried out exactly if the chain is resolvable.
  lemma SucceedsExactlyIfResolvable(items: seq<Item>)
    requires TargetsArePlain(items)
    ensures WellDirected(items) && (Traverse(items, Start(items)).Next? <==> Resolvable(items))
  {
    hide *;
    PlainTargets(items);
    if Resolvable(items) {
      StartIsSound(items);
      SoundParts(items, Start(items));
      StartIsWhole(items);
      StartKnowsTail(items);
      TraverseSucceeds(items, Start(items));
    }
    if Traverse(items, Start(items)).Next? {
      SuccessRequires(items);
    }
  }

  // The chain that results: exactly the replaced providers are missing, the others without directives are
  // in their original order, and among these every provider with a directive stands where its target stood,
  // on the side it asked for.
  lemma EverybodyInPlace(items: seq<Item>)
    requires TargetsArePlain(items) && Resolvable(items)
    ensures WellDirected(items) && Traverse(items, Start(items)).Next?
    ensures
      var order := Traverse(items, Start(items)).s.order;
      && Positions(items, order) && Tidy(items, order)
      && (forall i: nat :: i < |items| ==> (i !in order <==> exists j: nat :: Replaces(items, j, items[i].origin)))
      && (forall name, n: nat, tau: nat, f: nat ::
            At(items, n, name) && tau < |items| && items[tau].origin == name && Plainly(items, order, f)
                && f < |items| && items[f].origin != name ==>
              (f < tau ==> Precedes(order, f, n)) && (tau < f ==> Precedes(order, n, f)))
      && (forall n: nat, tau: nat :: n < |items| && tau < |items| && tau in order ==>
            && (items[n].before != "" && items[tau].origin == items[n].before ==> Precedes(order, n, tau))
            && (items[n].after != "" && items[tau].origin == items[n].after ==> Precedes(order, tau, n)))
  {
    hide *;
    SucceedsExactlyIfResolvable(items);
    PlainTargets(items);
    ChainAfterwards(items);
    var s := Traverse(items, Start(items)).s;
    forall i: nat | i < |items| ensures i !in s.order <==> exists j: nat :: Replaces(items, j, items[i].origin) {
      MissingExactlyIfReplaced(items, i);
    }
    StartIsSound(items);
    SoundParts(items, Start(items));
    StartIsMet(items);
    TraverseMet(items, Start(items));
    AllDone(items);
    SoundParts(items, s);
    forall name, n: nat, tau: nat, f: nat |
      At(items, n, name) && tau < |items| && items[tau].origin == name && Plainly(items, s.order, f) && f < |items|
          && items[f].origin != name
      ensures (f < tau ==> Precedes(s.order, f, n)) && (tau < f ==> Precedes(s.order, n, f))
    {
      AtIs(items, s, n, name, f);
      PlacedIs(items, s, n, tau, f);
    }
    forall n: nat, tau: nat | n < |items| && tau < |items| && tau in s.order
      ensures items[n].before != "" && items[tau].origin == items[n].before ==> Precedes(s.order, n, tau)
      ensures items[n].after != "" && items[tau].origin == items[n].after ==> Precedes(s.order, tau, n)
    {
      SideIs(items, n);
      if items[n].before != "" && items[tau].origin == items[n].before {
        InsertsAt(items, n, items[n].before);
        BesideIs(items, s, n, tau);
      }
      if items[n].after != "" && items[tau].origin == items[n].after {
        InsertsAt(items, n, items[n].after);
        BesideIs(items, s, n, tau);
      }
    }
  }

  ghost predicate At(items: seq<Item>, n: nat, name: string) {
    n < |items| && Directed(items[n]) && Target(items[n]) == name
  }

  ghost predicate Plainly(items: seq<Item>, order: seq<nat>, f: nat) {
    f < |items| && f in order && !Directed(items[f])
  }

  lemma AtIs(items: seq<Item>, s: State, n: nat, name: string, f: nat)
    requires TargetsArePlain(items) && At(items, n, name) && Plainly(items, s.order, f)
    ensures n < |items| && Directed(items[n]) && Target(items[n]) == name && Plain(items, name) && Fixed(items, s, f)
  {
  }

  lemma SideIs(items: seq<Item>, n: nat)
    requires TargetsArePlain(items) && n < |items|
    ensures items[n].before != "" ==> Inserts(items, n, items[n].before) && OpOf(items[n]) == Before
    ensures items[n].after != "" ==> Inserts(items, n, items[n].after) && OpOf(items[n]) == After
  {
    assert DirectiveCount(items[n]) <= 1;
  }

  lemma InsertsAt(items: seq<Item>, n: nat, name: string)
    requires TargetsArePlain(items) && Inserts(items, n, name)
    ensures n < |items| && Directed(items[n]) && Target(items[n]) == name && Plain(items, name)
            && OpOf(items[n]) != Replace
  {
  }

  lemma MissingExactlyIfReplaced(items: seq<Item>, i: nat)
    requires WellDirected(items) && ReplacedArePlain(items) && Traverse(items, Start(items)).Next? && i < |items|
    ensures i !in Traverse(items, Start(items)).s.order <==> exists j: nat :: Replaces(items, j, items[i].origin)
  {
    hide Traverse, Start, WellDirected, Plain;
    ExactlyTheReplacedAreMissing(items, i);
    var name := items[i].origin;
    if exists j: nat :: j < |items| && items[j].replacing == name && name != "" {
      var j: nat :| j < |items| && items[j].replacing == name;
      assert Replaces(items, j, name);
    }
  }
}
