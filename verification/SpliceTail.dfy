/**
 The end of the chain, which a directive may want to insert behind: the tail knows the last node only once
 that has been moved or replaced.
 */
module SpliceTail {
  import opened Basics
  import opened Splice
  import opened SpliceLaws
  import opened SpliceResult
  import opened SpliceOrder
  import opened SpliceInput

  ghost predicate IsLast(s: seq<nat>, l: nat) {
    l in s && forall p: nat :: p in s && p != l ==> Precedes(s, p, l)
  }

  // As long as the tail does not know the last node, that is the last one of the chain as it was given.
  ghost predicate TailKnown(items: seq<Item>, s: State) {
    s.tailSet || s.order == [] || (items != [] && IsLast(s.order, |items| - 1))
  }

  lemma LastIndex(s: seq<nat>, i: nat, l: nat)
    requires Distinct(s) && IsLast(s, l) && i < |s|
    ensures s[i] == l <==> i == |s| - 1
  {
    var j :| 0 <= j < |s| && s[j] == l;
    var z := s[|s| - 1];
    assert z in s;
    AtMostOnce(s, j, |s| - 1);
  }

  lemma TailParts(items: seq<Item>, s: State, op: Op, name: string)
    requires AtDirective(items, s, op, name)
    ensures s.k < |s.order| && Positions(items, s.order)
    ensures
      var o := Apply(items, s, op, name);
      && (o.Crashed? ==>
            && op == After && Findable(items, s.gone, name) && !s.tailSet
            && TargetAt(items, s, name, true) == |s.order| - 1)
      && (o.Next? ==>
            && Findable(items, s.gone, name)
            && (o.s.tailSet <==> || s.tailSet || End(items, s) == |s.order|
                                 || (op == Replace && Victims(items, s, name).1 == |s.order|))
            && (op == After && !s.tailSet ==> TargetAt(items, s, name, true) + 1 < |s.order|))
      && (Findable(items, s.gone, name) && op == After && !s.tailSet ==>
            TargetAt(items, s, name, true) == |s.order| - 1 ==> o.Crashed?)
      && (o.Failed? <==> !Findable(items, s.gone, name))
  {
    hide Findable, BlockEnd, Replaced, Resume, TargetAt, Moved, StateOk, Sandwiched, WellDirected;
    AtParts(items, s, op, name);
  }

  lemma LastIsOutside(s: seq<nat>, m: nat, e: nat)
    requires m < e < |s| && Distinct(s)
    ensures s[|s| - 1] !in s[m..e]
  {
  }

  // The last node stays where it is unless it is moved or replaced, or the tail gets to know its predecessor.
  lemma LastStays(items: seq<Item>, s: State, op: Op, name: string, m: seq<nat>, t: seq<nat>, s': State, l: nat)
    requires Went(items, s, op, name, m, t, s') && IsLast(s.order, l) && l !in m && l !in t && !s.tailSet
    ensures IsLast(s'.order, l)
  {
    hide *;
    WentParts(items, s, op, name, m, t, s');
    WentApplied(items, s, op, name, m, t, s');
    TailParts(items, s, op, name);
    var there := WentWhere(items, s, op, name, m, t, s');
    LastParts(s.order, l, l);
    forall p: nat | p in s'.order && p != l ensures Precedes(s'.order, p, l) {
      LastParts(s.order, l, p);
      if p !in m {
        WentOrder(items, s, op, name, m, t, s', p, l);
      } else if there != l {
        StandsThere(s.order, m, s'.order, there, l, p);
        LastParts(s.order, l, there);
      } else {
        StandsBefore(items, s, op, name, l);
      }
    }
    LastIs(s'.order, l);
  }

  // An insertion that succeeds goes before the last node.
  lemma StandsBefore(items: seq<Item>, s: State, op: Op, name: string, l: nat)
    requires AtDirective(items, s, op, name) && op != Replace && Apply(items, s, op, name).Next? && !s.tailSet
    requires IsLast(s.order, l) && Findable(items, s.gone, name) && s.order[TargetAt(items, s, name, op == After)] == l
    ensures op == Before
  {
    hide *;
    AtParts(items, s, op, name);
    TailParts(items, s, op, name);
    PositionsDistinct(items, s.order);
    LastIndex(s.order, TargetAt(items, s, name, op == After), l);
  }

  lemma PositionsDistinct(items: seq<Item>, order: seq<nat>)
    requires Positions(items, order)
    ensures Distinct(order)
  {
  }

  lemma LastIs(s: seq<nat>, l: nat)
    requires l in s && forall p: nat :: p in s && p != l ==> Precedes(s, p, l)
    ensures IsLast(s, l)
  {
  }

  lemma LastParts(s: seq<nat>, l: nat, p: nat)
    requires IsLast(s, l)
    ensures l in s && (p in s && p != l ==> Precedes(s, p, l))
  {
  }

  lemma WentApplied(items: seq<Item>, s: State, op: Op, name: string, m: seq<nat>, t: seq<nat>, s': State)
    requires Went(items, s, op, name, m, t, s')
    ensures AtDirective(items, s, op, name) && Apply(items, s, op, name) == Next(s') && Findable(items, s.gone, name)
    ensures Positions(items, s.order) && s.k < |s.order| && m == s.order[s.k..End(items, s)]
  {
    hide End, Apply, Findable;
  }

  lemma KeepsTailKnown(items: seq<Item>, s: State, op: Op, name: string, m: seq<nat>, t: seq<nat>, s': State)
    requires Went(items, s, op, name, m, t, s') && TailKnown(items, s)
    ensures TailKnown(items, s')
  {
    hide *;
    WentApplied(items, s, op, name, m, t, s');
    TailParts(items, s, op, name);
    PositionsDistinct(items, s.order);
    if !s'.tailSet {
      var l := |items| - 1;
      TailIs(items, s);
      LastIndex(s.order, |s.order| - 1, l);
      LastIsOutside(s.order, s.k, End(items, s));
      if op == Replace {
        VictimsAre(items, s, op, name, m, t, s');
        LastIsOutside(s.order, Victims(items, s, name).0, Victims(items, s, name).1);
      } else {
        WentParts(items, s, op, name, m, t, s');
      }
      InTheOrder(s.order);
      LastStays(items, s, op, name, m, t, s', l);
    }
    KnownIs(items, s');
  }

  lemma InTheOrder(s: seq<nat>)
    requires s != []
    ensures s[|s| - 1] in s
  {
  }

  lemma VictimsAre(items: seq<Item>, s: State, op: Op, name: string, m: seq<nat>, t: seq<nat>, s': State)
    requires Went(items, s, op, name, m, t, s') && op == Replace
    ensures t == s.order[Victims(items, s, name).0..Victims(items, s, name).1]
  {
    hide Victims, Apply, Findable, End;
  }

  lemma TailIs(items: seq<Item>, s: State)
    requires TailKnown(items, s) && !s.tailSet && s.order != []
    ensures items != [] && IsLast(s.order, |items| - 1)
  {
  }

  lemma KnownIs(items: seq<Item>, s: State)
    requires !s.tailSet ==> items != [] && IsLast(s.order, |items| - 1)
    ensures TailKnown(items, s)
  {
  }

  lemma StepKeepsTailKnown(items: seq<Item>, s: State)
    requires StateOk(items, s) && WellDirected(items) && s.k < |s.order| && Step(items, s).Next? && TailKnown(items, s)
    ensures TailKnown(items, Step(items, s).s)
  {
    hide *;
    StepIs(items, s);
    StateParts(items, s);
    NotPending(items, s);
    if Pending(items, s) {
      var x := items[s.order[s.k]];
      var m, t := TurnIs(items, s, OpOf(x), TargetOf(x, OpOf(x)));
      KeepsTailKnown(items, s, OpOf(x), TargetOf(x, OpOf(x)), m, t, Step(items, s).s);
    } else {
      SameTail(items, s, s.(k := s.k + 1));
    }
  }

  lemma SameTail(items: seq<Item>, s: State, s': State)
    requires TailKnown(items, s) && s'.order == s.order && s'.tailSet == s.tailSet
    ensures TailKnown(items, s')
  {
  }

  // The last provider of the chain is one to insert something behind.
  ghost predicate BehindTheEnd(items: seq<Item>) {
    && items != [] && items[|items| - 1].origin != ""
    && exists i: nat :: i < |items| && items[i].after == items[|items| - 1].origin
  }

  lemma CrashedAt(items: seq<Item>, s: State)
    requires StateOk(items, s) && WellDirected(items) && s.k < |s.order| && TailKnown(items, s)
             && Step(items, s).Crashed?
    ensures BehindTheEnd(items)
  {
    hide *;
    StateParts(items, s);
    NotPending(items, s);
    StepIs(items, s);
    var i := s.order[s.k];
    var op, name := OpOf(items[i]), TargetOf(items[i], OpOf(items[i]));
    TailParts(items, s, op, name);
    PositionsDistinct(items, s.order);
    TailIs(items, s);
    LastIndex(s.order, |s.order| - 1, |items| - 1);
    TargetIs(items, s, name, true);
    LastNamedIs(items, FirstNamed(items, name, 0));
    assert items[|items| - 1].origin == name;
    InsertsAfter(items, i);
    BehindIs(items, i);
  }

  lemma InsertsAfter(items: seq<Item>, i: nat)
    requires i < |items| && Directed(items[i]) && OpOf(items[i]) == After
    ensures items[i].after == TargetOf(items[i], After) == Target(items[i]) != ""
  {
  }

  lemma BehindIs(items: seq<Item>, i: nat)
    requires i < |items| && items[i].after == items[|items| - 1].origin != ""
    ensures BehindTheEnd(items)
  {
  }

  lemma {:induction false} TraverseCrashed(items: seq<Item>, s: State)
    requires StateOk(items, s) && WellDirected(items) && TailKnown(items, s) && Traverse(items, s).Crashed?
    ensures BehindTheEnd(items)
    decreases Undone(s), |s.order| - s.k
  {
    hide *;
    TraverseStep(items, s);
    StateParts(items, s);
    if s.k < |s.order| {
      var o := Step(items, s);
      if o.Next? {
        StepKeepsTailKnown(items, s);
        TraverseCrashed(items, o.s);
      } else {
        CrashedAt(items, s);
      }
    }
  }

  lemma StartKnowsTail(items: seq<Item>)
    ensures TailKnown(items, Start(items))
  {
    var s := Start(items);
    if items != [] {
      assert s.order[|items| - 1] == |items| - 1;
      forall p: nat | p in s.order && p != |items| - 1 ensures Precedes(s.order, p, |items| - 1) {
        assert s.order[p] == p;
      }
    }
  }

  // A nil pointer is followed only if some directive names the last provider to be inserted behind.
  lemma CrashedOnlyBehindTheEnd(items: seq<Item>)
    requires WellDirected(items) && Traverse(items, Start(items)).Crashed?
    ensures BehindTheEnd(items)
  {
    StartKnowsTail(items);
    TraverseCrashed(items, Start(items));
  }
}
