/**
 What a traversal does to the chain as a whole.
 */
module SpliceLaws {
  import opened Basics
  import opened Splice

  // Two neighbouring stretches of the chain change places.
  ghost predicate Swap(s: seq<nat>, a: seq<nat>, b: seq<nat>, c: seq<nat>, d: seq<nat>, s': seq<nat>) {
    s == a + b + c + d && s' == a + c + b + d
  }

  ghost predicate SameMembers(s: seq<nat>, s': seq<nat>) {
    forall x: nat :: x in s <==> x in s'
  }

  lemma SwapKeepsDistinct(s: seq<nat>, a: seq<nat>, b: seq<nat>, c: seq<nat>, d: seq<nat>, s': seq<nat>)
    requires Swap(s, a, b, c, d, s') && Distinct(s)
    ensures Distinct(s') && SameMembers(s, s') && |s'| == |s|
  {
    ghost var shift := (k: int) => if k < |a| then k else if k < |a| + |c| then k + |b|
        else if k < |a| + |b| + |c| then k - |c| else k;
    assert forall k :: 0 <= k < |s'| ==> 0 <= shift(k) < |s| && s'[k] == s[shift(k)];
    forall k, l | 0 <= k < l < |s'| ensures s'[k] != s'[l] {
      assert s'[k] == s[shift(k)] && s'[l] == s[shift(l)] && shift(k) != shift(l);
    }
  }

  // Cutting out a stretch.
  lemma CutKeepsDistinct(a: seq<nat>, b: seq<nat>, c: seq<nat>)
    requires Distinct(a + b + c)
    ensures Distinct(a + c) && forall x: nat :: x in a + c <==> x in a + b + c && x !in b
  {
    var s := a + b + c;
    assert forall k :: 0 <= k < |a| ==> s[k] == a[k];
    assert forall k :: 0 <= k < |b| ==> s[|a| + k] == b[k];
    assert forall k :: 0 <= k < |c| ==> s[|a| + |b| + k] == c[k];
  }

  // Moving a block keeps everybody; 'order' and the result are the same but for two stretches that
  // have changed places, one of which is the block.
  lemma MovedIsSwap(order: seq<nat>, m: nat, e: nat, at: nat)
    returns (a: seq<nat>, b: seq<nat>, c: seq<nat>, d: seq<nat>)
    requires m <= e <= |order| && at <= |order| && (at <= m || e <= at)
    ensures Swap(order, a, b, c, d, Moved(order, m, e, at))
    ensures if at <= m then c == order[m..e] && b == order[at..m] else b == order[m..e] && c == order[e..at]
    ensures a == (if at <= m then order[..at] else order[..m])
  {
    if at <= m {
      a, b, c, d := order[..at], order[at..m], order[m..e], order[e..];
    } else {
      a, b, c, d := order[..m], order[m..e], order[e..at], order[at..];
    }
  }

  // Replacing is moving the block in front of what it replaces and cutting that out.
  lemma ReplacedIsMovedAndCut(order: seq<nat>, m: nat, e: nat, t: nat, u: nat)
    requires t <= u <= |order| && m <= e <= |order| && (e <= t || u <= m)
    ensures
      var a := if e <= t then order[..m] + order[e..t] + order[m..e] else order[..t] + order[m..e];
      var c := if e <= t then order[u..] else order[u..m] + order[e..];
      Moved(order, m, e, t) == a + order[t..u] + c && Replaced(order, m, e, t, u) == a + c
  {
  }

  lemma ResumeAt(order: seq<nat>, next: nat, p: seq<nat>, q: seq<nat>)
    requires next <= |order| && Distinct(p + q)
    requires if next == |order| then q == [] else q != [] && q[0] == order[next]
    ensures Resume(order, next, p + q) == |p|
  {
    if next < |order| {
      assert (p + q)[|p|] == q[0];
      IndexIs(p + q, |p|);
    }
  }

  // The state after a directive: 'moved' has been moved, 'dropped' has been cut out, and the traversal
  // goes on between 'p' and 'q'.
  ghost predicate Goes(items: seq<Item>, s: State, s': State, moved: seq<nat>, dropped: seq<nat>, p: seq<nat>,
                       q: seq<nat>) {
    && s.k < |s.order| && s.order[s.k] in moved
    && s'.order == p + q && s'.k == |p| && Distinct(s'.order)
    && (forall x: nat :: x in s'.order <==> x in s.order && x !in dropped)
    && s'.done == s.done + (set x | x in moved) + (set x | x in dropped)
    && s.gone <= s'.gone && (forall x: nat :: x in dropped ==> x < |items| && items[x].origin in s'.gone)
    && (forall x: nat :: x in p ==> x in s.order[..s.k] || x in moved)
  }

  lemma GoesIsOk(items: seq<Item>, s: State, s': State, moved: seq<nat>, dropped: seq<nat>, p: seq<nat>, q: seq<nat>)
    requires StateOk(items, s) && Goes(items, s, s', moved, dropped, p, q) && s.order[s.k] !in s.done
    ensures StateOk(items, s') && Undone(s') < Undone(s)
  {
    assert s'.order[..s'.k] == p;
    assert forall x: nat :: x in s.order ==> x < |items|;
    assert forall k :: 0 <= k < |s'.order| ==> s'.order[k] in s'.order;
    assert s.order[s.k] in Undone(s);
  }

  ghost function Undone(s: State): set<nat> {
    set x | x in s.order && x !in s.done
  }

  // 'order' with its positions rearranged: split where the node at 'next' has gone.
  ghost predicate Parted(order: seq<nat>, m: nat, e: nat, next: nat, p: seq<nat>, q: seq<nat>)
    requires m < e <= |order| && next <= |order|
  {
    && (if next == |order| then q == [] else q != [] && q[0] == order[next])
    && (forall x: nat :: x in p ==> x in order[..m] || x in order[m..e])
  }

  lemma MovedParts(order: seq<nat>, m: nat, e: nat, at: nat) returns (p: seq<nat>, q: seq<nat>)
    requires m < e <= |order| && at <= |order| && (at <= m || e <= at)
    ensures Moved(order, m, e, at) == p + q && Parted(order, m, e, e, p, q)
  {
    if at <= m {
      p, q := order[..at] + order[m..e] + order[at..m], order[e..];
      assert order[..m] == order[..at] + order[at..m];
    } else if at == e {
      p, q := order[..m] + order[m..e], order[e..];
    } else {
      p, q := order[..m], order[e..at] + order[m..e] + order[at..];
    }
  }

  lemma ReplacedParts(order: seq<nat>, m: nat, e: nat, t: nat, u: nat) returns (p: seq<nat>, q: seq<nat>)
    requires t < u <= |order| && m < e <= |order| && (e <= t || u <= m)
    ensures Replaced(order, m, e, t, u) == p + q && Parted(order, m, e, if e == t then u else e, p, q)
  {
    if e == t {
      p, q := order[..m] + order[m..e], order[u..];
    } else if e < t {
      p, q := order[..m], order[e..t] + order[m..e] + order[u..];
    } else {
      p, q := order[..t] + order[m..e] + order[u..m], order[e..];
      assert order[..m] == order[..t] + order[t..u] + order[u..m];
    }
  }

  lemma MovedMembers(order: seq<nat>, m: nat, e: nat, at: nat)
    requires m <= e <= |order| && at <= |order| && (at <= m || e <= at) && Distinct(order)
    ensures Distinct(Moved(order, m, e, at)) && SameMembers(order, Moved(order, m, e, at))
  {
    var a, b, c, d := MovedIsSwap(order, m, e, at);
    SwapKeepsDistinct(order, a, b, c, d, Moved(order, m, e, at));
  }

  lemma ReplacedMembers(order: seq<nat>, m: nat, e: nat, t: nat, u: nat)
    requires t <= u <= |order| && m <= e <= |order| && (e <= t || u <= m) && Distinct(order)
    ensures Distinct(Replaced(order, m, e, t, u))
    ensures forall x: nat :: x in Replaced(order, m, e, t, u) <==> x in order && x !in order[t..u]
  {
    MovedMembers(order, m, e, t);
    ReplacedIsMovedAndCut(order, m, e, t, u);
    var a := if e <= t then order[..m] + order[e..t] + order[m..e] else order[..t] + order[m..e];
    var c := if e <= t then order[u..] else order[u..m] + order[e..];
    CutKeepsDistinct(a, order[t..u], c);
  }

  lemma MoveGoes(items: seq<Item>, s: State, at: nat) returns (p: seq<nat>, q: seq<nat>)
    requires StateOk(items, s) && s.k < |s.order| && at <= |s.order| && (at <= s.k || End(items, s) <= at)
    ensures Move(items, s, at).Next?
    ensures Goes(items, s, Move(items, s, at).s, s.order[s.k..End(items, s)], [], p, q)
  {
    hide Moved, Resume, SameMembers, End, StateOk;
    StateIsDistinct(items, s);
    var e := End(items, s);
    MovedMembers(s.order, s.k, e, at);
    p, q := MovedParts(s.order, s.k, e, at);
    ResumeAt(s.order, e, p, q);
    SameAre(s.order, Moved(s.order, s.k, e, at));
    assert s.order[s.k] in s.order[s.k..e];
  }

  lemma SameAre(s: seq<nat>, s': seq<nat>)
    requires SameMembers(s, s')
    ensures forall x: nat :: x in s <==> x in s'
  {
  }

  lemma StateIsDistinct(items: seq<Item>, s: State)
    requires StateOk(items, s)
    ensures Distinct(s.order) && forall k :: 0 <= k < |s.order| ==> s.order[k] < |items|
  {
  }

  lemma ExchangeGoes(items: seq<Item>, s: State, name: string, t: nat, u: nat) returns (p: seq<nat>, q: seq<nat>)
    requires StateOk(items, s) && s.k < |s.order| && t < u <= |s.order| && (End(items, s) <= t || u <= s.k)
    requires !Sandwiched(items, s.order, End(items, s), t, u, name)
    requires forall i :: t <= i < u ==> items[s.order[i]].origin == name
    ensures Exchange(items, s, name, t, u).Next?
    ensures Goes(items, s, Exchange(items, s, name, t, u).s, s.order[s.k..End(items, s)], s.order[t..u], p, q)
  {
    hide Replaced, Resume, End, StateOk, Sandwiched;
    StateIsDistinct(items, s);
    var e := End(items, s);
    ReplacedMembers(s.order, s.k, e, t, u);
    p, q := ReplacedParts(s.order, s.k, e, t, u);
    ResumeAt(s.order, if e == t then u else e, p, q);
    assert s.order[s.k] in s.order[s.k..e];
  }

  // Which case a directive is.
  lemma ApplyGoes(items: seq<Item>, s: State, op: Op, name: string)
    returns (moved: seq<nat>, dropped: seq<nat>, p: seq<nat>, q: seq<nat>)
    requires AtDirective(items, s, op, name) && Apply(items, s, op, name).Next?
    ensures Goes(items, s, Apply(items, s, op, name).s, moved, dropped, p, q)
    ensures moved == s.order[s.k..End(items, s)]
    ensures op == Replace && Findable(items, s.gone, name) ==>
              dropped == s.order[Victims(items, s, name).0..Victims(items, s, name).1]
  {
    moved := s.order[s.k..End(items, s)];
    if op == Replace {
      var (t, u) := Victims(items, s, name);
      dropped := s.order[t..u];
      p, q := ExchangeGoes(items, s, name, t, u);
    } else {
      dropped := [];
      p, q := MoveGoes(items, s, Destination(items, s, op, name));
    }
  }

  predicate Pending(items: seq<Item>, s: State)
    requires s.k < |s.order| && forall k :: 0 <= k < |s.order| ==> s.order[k] < |items|
  {
    Directed(items[s.order[s.k]]) && s.order[s.k] !in s.done
  }

  // One turn of the traversal.
  ghost function Step(items: seq<Item>, s: State): (o: Outcome)
    requires StateOk(items, s) && WellDirected(items) && s.k < |s.order|
  {
    if Pending(items, s)
    then Apply(items, s, OpOf(items[s.order[s.k]]), TargetOf(items[s.order[s.k]], OpOf(items[s.order[s.k]])))
    else Next(s.(k := s.k + 1))
  }

  lemma StepIsOk(items: seq<Item>, s: State)
    requires StateOk(items, s) && WellDirected(items) && s.k < |s.order| && Step(items, s).Next?
    ensures StateOk(items, Step(items, s).s)
    ensures Undone(Step(items, s).s) < Undone(s)
            || (Undone(Step(items, s).s) == Undone(s) && Step(items, s).s.order == s.order
                && Step(items, s).s.k == s.k + 1)
  {
    if Pending(items, s) {
      var x := items[s.order[s.k]];
      var moved, dropped, p, q := ApplyGoes(items, s, OpOf(x), TargetOf(x, OpOf(x)));
      GoesIsOk(items, s, Step(items, s).s, moved, dropped, p, q);
    } else {
      assert s.order[..s.k + 1] == s.order[..s.k] + [s.order[s.k]];
    }
  }

  // The whole traversal.  It ends: a directive leaves fewer that have not been dealt with.
  ghost function Traverse(items: seq<Item>, s: State): Outcome
    requires StateOk(items, s) && WellDirected(items)
    decreases Undone(s), |s.order| - s.k
  {
    if s.k == |s.order| then Next(s)
    else
      var o := Step(items, s);
      if o.Next? then
        StepIsOk(items, s);
        Traverse(items, o.s)
      else o
  }

  ghost function Start(items: seq<Item>): (s: State)
    ensures StateOk(items, s)
  {
    forall i: nat | i < |items| ensures i in Identity(|items|) {
      assert Identity(|items|)[i] == i;
    }
    State(Identity(|items|), {}, {}, false, 0)
  }

  lemma StateParts(items: seq<Item>, s: State)
    requires StateOk(items, s)
    ensures s.k <= |s.order| && forall k :: 0 <= k < |s.order| ==> s.order[k] < |items|
  {
  }

  // Which case a turn is.
  lemma StepIs(items: seq<Item>, s: State)
    requires StateOk(items, s) && WellDirected(items) && s.k < |s.order|
    ensures
      var i := s.order[s.k];
      && i < |items| && (Pending(items, s) <==> Directed(items[i]) && i !in s.done)
      && (Directed(items[i]) <==> items[i].replacing != "" || items[i].before != "" || items[i].after != "")
      && (Pending(items, s) ==>
            && AtDirective(items, s, OpOf(items[i]), TargetOf(items[i], OpOf(items[i])))
            && Step(items, s) == Apply(items, s, OpOf(items[i]), TargetOf(items[i], OpOf(items[i]))))
      && OpOf(items[i]) == (if items[i].replacing != "" then Replace else if items[i].before != "" then Before
                            else After)
      && TargetOf(items[i], Replace) == items[i].replacing && TargetOf(items[i], Before) == items[i].before
      && TargetOf(items[i], After) == items[i].after
  {
  }

  lemma TraverseStep(items: seq<Item>, s: State)
    requires StateOk(items, s) && WellDirected(items)
    ensures s.k == |s.order| ==> Traverse(items, s) == Next(s)
    ensures s.k < |s.order| ==>
              var o := Step(items, s);
              if o.Next? then
                && StateOk(items, o.s) && Traverse(items, s) == Traverse(items, o.s)
                && (Undone(o.s) < Undone(s)
                    || (Undone(o.s) == Undone(s) && |o.s.order| - o.s.k < |s.order| - s.k && o.s.k <= |o.s.order|))
              else Traverse(items, s) == o
  {
    if s.k < |s.order| && Step(items, s).Next? {
      StepIsOk(items, s);
    }
  }
}
