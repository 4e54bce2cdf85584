/**
 One directive, in terms of who precedes whom: the block goes where the providers it names stand, and
 among the others nothing changes.
 */
module SpliceOrder {
  import opened Basics
  import opened Splice
  import opened SpliceLaws
  import opened SpliceResult

  // The others are the same, in the same order; 't' has been cut out.
  ghost predicate Turned(s: seq<nat>, m: seq<nat>, t: seq<nat>, s': seq<nat>) {
    && Distinct(s) && Distinct(s')
    && (forall p: nat :: p in s' <==> p in s && p !in t)
    && (forall p: nat, q: nat :: p in s' && q in s' && p !in m && q !in m ==>
          (Precedes(s', p, q) <==> Precedes(s, p, q)))
  }

  // The members of 'm' stand, among the others, where 'tau' has been.
  ghost predicate StandsLike(s: seq<nat>, m: seq<nat>, s': seq<nat>, tau: nat) {
    forall p: nat, z: nat :: p in s' && p !in m && p != tau && z in m ==>
      && (Precedes(s', p, z) <==> Precedes(s, p, tau))
      && (Precedes(s', z, p) <==> Precedes(s, tau, p))
  }

  lemma OneWayOnly(s: seq<nat>, a: nat, b: nat)
    requires Distinct(s) && Precedes(s, a, b)
    ensures !Precedes(s, b, a) && a != b && a in s && b in s
  {
  }

  lemma OneWay(s: seq<nat>, a: nat, b: nat)
    requires a in s && b in s && a != b
    ensures Precedes(s, a, b) || Precedes(s, b, a)
  {
    var i :| 0 <= i < |s| && s[i] == a;
    var j :| 0 <= j < |s| && s[j] == b;
  }

  lemma InOrder(x: seq<nat>, y: seq<nat>, a: nat, b: nat)
    requires a in x && b in y
    ensures Precedes(x + y, a, b)
  {
    var i :| 0 <= i < |x| && x[i] == a;
    var j :| 0 <= j < |y| && y[j] == b;
    assert (x + y)[i] == a && (x + y)[|x| + j] == b;
  }

  lemma InOrder3(x: seq<nat>, y: seq<nat>, z: seq<nat>, a: nat, b: nat)
    requires (a in x && b in y) || (a in x && b in z) || (a in y && b in z)
    ensures Precedes(x + y + z, a, b)
  {
    if a in x {
      assert x + y + z == x + (y + z);
      InOrder(x, y + z, a, b);
    } else {
      InOrder(x + y, z, a, b);
    }
  }

  // Where somebody stands who is not in the stretch cut out.
  lemma CutIndex(x: seq<nat>, m: seq<nat>, y: seq<nat>, a: nat, i: nat) returns (j: nat)
    requires i < |x + m + y| && (x + m + y)[i] == a && a !in m
    ensures j < |x + y| && (x + y)[j] == a
    ensures i < |x| ==> j == i
    ensures i >= |x| ==> i >= |x| + |m| && j == i - |m|
  {
    InStretch(x, m, y, i);
    j := if i < |x| then i else i - |m|;
  }

  lemma InStretch(x: seq<nat>, m: seq<nat>, y: seq<nat>, i: nat)
    requires i < |x + m + y|
    ensures |x| <= i < |x| + |m| ==> (x + m + y)[i] in m
  {
    if |x| <= i < |x| + |m| {
      assert (x + m + y)[i] == m[i - |x|];
    }
  }

  // Cutting out a stretch does not change who precedes whom among the others.
  lemma CutPrecedes(x: seq<nat>, m: seq<nat>, y: seq<nat>, a: nat, b: nat)
    requires a !in m && b !in m
    ensures Precedes(x + m + y, a, b) <==> Precedes(x + y, a, b)
  {
    var s, r := x + m + y, x + y;
    if Precedes(s, a, b) {
      var i, j :| 0 <= i < j < |s| && s[i] == a && s[j] == b;
      var i' := CutIndex(x, m, y, a, i);
      var j' := CutIndex(x, m, y, b, j);
      assert i' < j';
    }
    if Precedes(r, a, b) {
      var i, j :| 0 <= i < j < |r| && r[i] == a && r[j] == b;
      var i', j' := if i < |x| then i else i + |m|, if j < |x| then j else j + |m|;
      assert s[i'] == a && s[j'] == b && i' < j';
    }
  }

  // The stretch 'm' is cut out from between 'x' and 'y', leaving 'w', 't' is cut out of that, and 'm' takes
  // its place.
  ghost predicate Spliced(s: seq<nat>, x: seq<nat>, m: seq<nat>, y: seq<nat>, a: seq<nat>, t: seq<nat>, b: seq<nat>,
                          s': seq<nat>) {
    s == x + m + y && x + y == a + t + b && s' == a + m + b
  }

  lemma SplicedMembers(s: seq<nat>, x: seq<nat>, m: seq<nat>, y: seq<nat>, a: seq<nat>, t: seq<nat>, b: seq<nat>,
                       s': seq<nat>)
    requires Spliced(s, x, m, y, a, t, b, s') && Distinct(s) && m != []
    ensures Distinct(a + t + b)
    ensures forall p: nat :: p in a + t + b <==> p in s && p !in m
    ensures forall p: nat :: p in s' <==> p in s && p !in t
    ensures forall p: nat :: p in m ==> p !in t
  {
    CutKeepsDistinct(x, m, y);
    DistinctPieces(a, t, b);
  }

  lemma DistinctPieces(a: seq<nat>, t: seq<nat>, b: seq<nat>)
    requires Distinct(a + t + b)
    ensures forall p: nat :: p in t ==> p !in a && p !in b
    ensures forall p: nat :: p in a ==> p !in b
  {
    var s := a + t + b;
    assert forall k :: 0 <= k < |a| ==> s[k] == a[k];
    assert forall k :: 0 <= k < |t| ==> s[|a| + k] == t[k];
    assert forall k :: 0 <= k < |b| ==> s[|a| + |t| + k] == b[k];
  }

  lemma SplicedTurns(s: seq<nat>, x: seq<nat>, m: seq<nat>, y: seq<nat>, a: seq<nat>, t: seq<nat>, b: seq<nat>,
                     s': seq<nat>)
    requires Spliced(s, x, m, y, a, t, b, s') && Distinct(s) && Distinct(s') && m != []
    ensures Turned(s, m, t, s')
  {
    SplicedMembers(s, x, m, y, a, t, b, s');
    forall p: nat, q: nat | p in s' && q in s' && p !in m && q !in m
      ensures Precedes(s', p, q) <==> Precedes(s, p, q)
    {
      CutPrecedes(x, m, y, p, q);
      CutPrecedes(a, t, b, p, q);
      CutPrecedes(a, m, b, p, q);
    }
  }

  // 'tau' stands between 'a' and 'b', or at the end of 'a', or at the start of 'b'.
  ghost predicate Anchor(a: seq<nat>, t: seq<nat>, b: seq<nat>, tau: nat) {
    || tau in t
    || (a != [] && a[|a| - 1] == tau)
    || (b != [] && b[0] == tau)
  }

  lemma AroundAnchor(a: seq<nat>, t: seq<nat>, b: seq<nat>, tau: nat, p: nat)
    requires Anchor(a, t, b, tau) && p != tau && p in a + b && Distinct(a + t + b)
    ensures p in a <==> Precedes(a + t + b, p, tau)
    ensures p in b <==> Precedes(a + t + b, tau, p)
  {
    var w := a + t + b;
    DistinctPieces(a, t, b);
    if tau in t {
      if p in a {
        InOrder3(a, t, b, p, tau);
      } else {
        InOrder3(a, t, b, tau, p);
      }
    } else if a != [] && a[|a| - 1] == tau {
      if p in a {
        BeforeLast(a, p);
        InOrderPart(a, t + b, p, tau);
        assert a + (t + b) == w;
      } else {
        InOrder3(a, t, b, tau, p);
      }
    } else {
      if p in a {
        InOrder3(a, t, b, p, tau);
      } else {
        BehindFirst(b, p);
        InOrderRest(a + t, b, tau, p);
      }
    }
    if Precedes(w, p, tau) { OneWayOnly(w, p, tau); }
    if Precedes(w, tau, p) { OneWayOnly(w, tau, p); }
  }

  lemma BeforeLast(a: seq<nat>, p: nat)
    requires p in a && p != a[|a| - 1]
    ensures Precedes(a, p, a[|a| - 1])
  {
    var i :| 0 <= i < |a| && a[i] == p;
  }

  lemma BehindFirst(b: seq<nat>, p: nat)
    requires p in b && p != b[0]
    ensures Precedes(b, b[0], p)
  {
    var i :| 0 <= i < |b| && b[i] == p;
  }

  lemma InOrderPart(x: seq<nat>, y: seq<nat>, a: nat, b: nat)
    requires Precedes(x, a, b)
    ensures Precedes(x + y, a, b)
  {
    var i, j :| 0 <= i < j < |x| && x[i] == a && x[j] == b;
    assert (x + y)[i] == a && (x + y)[j] == b;
  }

  lemma InOrderRest(x: seq<nat>, y: seq<nat>, a: nat, b: nat)
    requires Precedes(y, a, b)
    ensures Precedes(x + y, a, b)
  {
    var i, j :| 0 <= i < j < |y| && y[i] == a && y[j] == b;
    assert (x + y)[|x| + i] == a && (x + y)[|x| + j] == b;
  }

  lemma SplicedStands(s: seq<nat>, x: seq<nat>, m: seq<nat>, y: seq<nat>, a: seq<nat>, t: seq<nat>, b: seq<nat>,
                      s': seq<nat>, tau: nat)
    requires Spliced(s, x, m, y, a, t, b, s') && Distinct(s) && Distinct(s') && m != [] && Anchor(a, t, b, tau)
    ensures StandsLike(s, m, s', tau) && tau in s && tau !in m
  {
    SplicedMembers(s, x, m, y, a, t, b, s');
    assert tau in a + t + b;
    forall p: nat, z: nat | p in s' && p !in m && p != tau && z in m
      ensures Precedes(s', p, z) <==> Precedes(s, p, tau)
      ensures Precedes(s', z, p) <==> Precedes(s, tau, p)
    {
      assert p in a + b;
      AroundAnchor(a, t, b, tau, p);
      CutPrecedes(x, m, y, p, tau);
      CutPrecedes(x, m, y, tau, p);
      AroundBlock(a, m, b, z, p);
    }
  }

  lemma AroundBlock(a: seq<nat>, m: seq<nat>, b: seq<nat>, z: nat, p: nat)
    requires Distinct(a + m + b) && p in a + b && z in m && p !in m
    ensures p in a <==> Precedes(a + m + b, p, z)
    ensures p in b <==> Precedes(a + m + b, z, p)
  {
    AroundAnchor(a, m, b, z, p);
  }

  // What a directive does to the order, in one go.
  ghost predicate InItsPlace(items: seq<Item>, s: State, op: Op, name: string, m: seq<nat>, t: seq<nat>, s': State)
    requires AtDirective(items, s, op, name) && Findable(items, s.gone, name)
  {
    if op == Replace then
      && t != []
      && (forall tau: nat :: tau in t ==> tau in s.order && tau < |items| && items[tau].origin == name)
      && (forall tau: nat :: tau in t ==> StandsLike(s.order, m, s'.order, tau))
    else
      var tau := s.order[TargetAt(items, s, name, op == After)];
      && t == [] && tau !in m && StandsLike(s.order, m, s'.order, tau)
      && forall z: nat :: z in m ==> if op == Before then Precedes(s'.order, z, tau) else Precedes(s'.order, tau, z)
  }

  // The members of the block that is next.
  ghost predicate Moving(items: seq<Item>, s: State, op: Op, name: string, m: seq<nat>) {
    && s.k < |s.order| && s.order[s.k] in m && name != ""
    && forall z: nat :: z in m ==>
         z in s.order && z < |items| && Directed(items[z]) && OpOf(items[z]) == op && TargetOf(items[z], op) == name
  }

  lemma BlockIs(items: seq<Item>, s: State, op: Op, name: string)
    requires AtDirective(items, s, op, name)
    ensures Moving(items, s, op, name, s.order[s.k..End(items, s)])
  {
    var m := s.order[s.k..End(items, s)];
    BlockFacts(items, s.order, s.k, Tagged(op, name));
    forall z: nat | z in m
      ensures z in s.order && z < |items| && Directed(items[z]) && OpOf(items[z]) == op
              && TargetOf(items[z], op) == name
    {
      var i :| 0 <= i < |m| && m[i] == z;
      assert s.order[s.k + i] == z;
      assert TargetOf(items[z], op) == name && name != "" && DirectiveCount(items[z]) <= 1;
    }
    assert m[0] == s.order[s.k];
  }

  // The directive of the block 'm' has been dealt with, and 't' has been cut out.
  ghost predicate Went(items: seq<Item>, s: State, op: Op, name: string, m: seq<nat>, t: seq<nat>, s': State) {
    && AtDirective(items, s, op, name) && Apply(items, s, op, name) == Next(s') && Findable(items, s.gone, name)
    && m == s.order[s.k..End(items, s)]
    && (op == Replace ==> t == s.order[Victims(items, s, name).0..Victims(items, s, name).1])
    && Moving(items, s, op, name, m)
    && Turned(s.order, m, t, s'.order)
    && InItsPlace(items, s, op, name, m, t, s')
    && s'.done == s.done + (set z | z in m) + (set z | z in t)
    && s'.gone == (if op == Replace then s.gone + {name} else s.gone)
  }

  lemma TurnIs(items: seq<Item>, s: State, op: Op, name: string) returns (m: seq<nat>, t: seq<nat>)
    requires AtDirective(items, s, op, name) && Apply(items, s, op, name).Next?
    ensures Went(items, s, op, name, m, t, Apply(items, s, op, name).s)
  {
    hide *;
    AtParts(items, s, op, name);
    ApplyParts(items, s, op, name);
    BlockIs(items, s, op, name);
    if op == Replace {
      m, t := ReplaceTurns(items, s, name);
    } else {
      m, t := InsertTurns(items, s, op, name);
    }
    DoneIs(items, s, op, name, m, t);
    WentIs(items, s, op, name, m, t, Apply(items, s, op, name).s);
  }

  lemma WentIs(items: seq<Item>, s: State, op: Op, name: string, m: seq<nat>, t: seq<nat>, s': State)
    requires AtDirective(items, s, op, name) && Apply(items, s, op, name) == Next(s') && Findable(items, s.gone, name)
    requires s.k < |s.order| && Positions(items, s.order) && m == s.order[s.k..End(items, s)]
    requires op == Replace ==> t == s.order[Victims(items, s, name).0..Victims(items, s, name).1]
    requires Moving(items, s, op, name, m)
    requires Turned(s.order, m, t, s'.order)
    requires InItsPlace(items, s, op, name, m, t, s')
    requires s'.done == s.done + (set z | z in m) + (set z | z in t)
    requires s'.gone == if op == Replace then s.gone + {name} else s.gone
    ensures Went(items, s, op, name, m, t, s')
  {
    hide Apply, Findable, End, Moving, Turned, InItsPlace, Positions, Victims;
  }

  lemma DoneIs(items: seq<Item>, s: State, op: Op, name: string, m: seq<nat>, t: seq<nat>)
    requires AtDirective(items, s, op, name) && Apply(items, s, op, name).Next? && Findable(items, s.gone, name)
    requires m == s.order[s.k..End(items, s)]
    requires t == if op == Replace then s.order[Victims(items, s, name).0..Victims(items, s, name).1] else []
    ensures Apply(items, s, op, name).s.done == s.done + (set z | z in m) + (set z | z in t)
  {
    hide End, Victims, Destination, Moved, Replaced, Resume, Findable, TargetAt;
  }

  lemma OrderDistinct(items: seq<Item>, s: State, op: Op, name: string)
    requires AtDirective(items, s, op, name) && Apply(items, s, op, name).Next?
    ensures Distinct(s.order) && Distinct(Apply(items, s, op, name).s.order)
    ensures s.order == s.order[..s.k] + s.order[s.k..End(items, s)] + s.order[End(items, s)..]
    ensures s.order[s.k..End(items, s)] != []
  {
    hide *;
    AtParts(items, s, op, name);
    StateIsDistinct(items, s);
    var moved, dropped, p, q := ApplyGoes(items, s, op, name);
    GoesDistinct(items, s, Apply(items, s, op, name).s, moved, dropped, p, q);
    ThreeParts(s.order, s.k, End(items, s));
  }

  lemma GoesDistinct(items: seq<Item>, s: State, s': State, moved: seq<nat>, dropped: seq<nat>, p: seq<nat>,
                     q: seq<nat>)
    requires Goes(items, s, s', moved, dropped, p, q)
    ensures Distinct(s'.order)
  {
  }

  lemma ThreeParts(s: seq<nat>, m: nat, e: nat)
    requires m < e <= |s|
    ensures s == s[..m] + s[m..e] + s[e..] && s[m..e] != []
  {
  }

  lemma ReplaceTurns(items: seq<Item>, s: State, name: string) returns (m: seq<nat>, t: seq<nat>)
    requires AtDirective(items, s, Replace, name) && Apply(items, s, Replace, name).Next?
    ensures Findable(items, s.gone, name) && m == s.order[s.k..End(items, s)]
    ensures t == s.order[Victims(items, s, name).0..Victims(items, s, name).1]
    ensures Turned(s.order, m, t, Apply(items, s, Replace, name).s.order)
    ensures InItsPlace(items, s, Replace, name, m, t, Apply(items, s, Replace, name).s)
  {
    hide *;
    AtParts(items, s, Replace, name);
    OrderDistinct(items, s, Replace, name);
    WithoutBlockIs(items, s);
    var s' := Apply(items, s, Replace, name).s;
    var a, b := ReplacedInPlace(items, s, name);
    var (u, v) := Victims(items, s, name);
    m, t := s.order[s.k..End(items, s)], s.order[u..v];
    var x, y := s.order[..s.k], s.order[End(items, s)..];
    SplicedIs(s.order, x, m, y, a, t, b, s'.order);
    SplicedTurns(s.order, x, m, y, a, t, b, s'.order);
    forall tau: nat | tau in t
      ensures tau in s.order && tau < |items| && items[tau].origin == name && StandsLike(s.order, m, s'.order, tau)
    {
      AnchorIs(a, t, b, tau);
      SplicedStands(s.order, x, m, y, a, t, b, s'.order, tau);
      VictimIs(items, s, name, tau);
    }
    InPlaceOfVictims(items, s, name, m, t, s');
  }

  lemma SplicedIs(s: seq<nat>, x: seq<nat>, m: seq<nat>, y: seq<nat>, a: seq<nat>, t: seq<nat>, b: seq<nat>,
                  s': seq<nat>)
    requires s == x + m + y && x + y == a + t + b && s' == a + m + b
    ensures Spliced(s, x, m, y, a, t, b, s')
  {
  }

  lemma AnchorIs(a: seq<nat>, t: seq<nat>, b: seq<nat>, tau: nat)
    requires tau in t || (a != [] && a[|a| - 1] == tau) || (b != [] && b[0] == tau)
    ensures Anchor(a, t, b, tau)
  {
  }

  lemma VictimIs(items: seq<Item>, s: State, name: string, tau: nat)
    requires AtDirective(items, s, Replace, name) && Findable(items, s.gone, name)
    requires tau in s.order[Victims(items, s, name).0..Victims(items, s, name).1]
    ensures tau in s.order && tau < |items| && items[tau].origin == name
  {
    var (u, v) := Victims(items, s, name);
    var i :| 0 <= i < v - u && s.order[u..v][i] == tau;
    assert s.order[u + i] == tau;
  }

  lemma InPlaceOfVictims(items: seq<Item>, s: State, name: string, m: seq<nat>, t: seq<nat>, s': State)
    requires AtDirective(items, s, Replace, name) && Findable(items, s.gone, name)
    requires t == s.order[Victims(items, s, name).0..Victims(items, s, name).1]
    requires forall tau: nat :: tau in t ==>
               tau in s.order && tau < |items| && items[tau].origin == name && StandsLike(s.order, m, s'.order, tau)
    ensures InItsPlace(items, s, Replace, name, m, t, s')
  {
    hide StandsLike, Findable, AtDirective;
  }

  lemma InsertTurns(items: seq<Item>, s: State, op: Op, name: string) returns (m: seq<nat>, t: seq<nat>)
    requires AtDirective(items, s, op, name) && op != Replace && Apply(items, s, op, name).Next?
    ensures Findable(items, s.gone, name) && m == s.order[s.k..End(items, s)] && t == []
    ensures Turned(s.order, m, t, Apply(items, s, op, name).s.order)
    ensures InItsPlace(items, s, op, name, m, t, Apply(items, s, op, name).s)
  {
    hide *;
    AtParts(items, s, op, name);
    ApplyParts(items, s, op, name);
    OrderDistinct(items, s, op, name);
    WithoutBlockIs(items, s);
    var s' := Apply(items, s, op, name).s;
    var a0, b0 := InsertedAtTarget(items, s, op, name);
    var tau := s.order[TargetAt(items, s, name, op == After)];
    m, t := s.order[s.k..End(items, s)], [];
    var x, y := s.order[..s.k], s.order[End(items, s)..];
    var a, b := if op == Before then a0 else a0 + [tau], if op == Before then [tau] + b0 else b0;
    assert a + t + b == a0 + [tau] + b0;
    assert s'.order == a + m + b;
    SplicedIs(s.order, x, m, y, a, t, b, s'.order);
    SplicedTurns(s.order, x, m, y, a, t, b, s'.order);
    AnchorIs(a, t, b, tau);
    SplicedStands(s.order, x, m, y, a, t, b, s'.order, tau);
    forall z: nat | z in m ensures if op == Before then Precedes(s'.order, z, tau) else Precedes(s'.order, tau, z) {
      if op == Before {
        InOrder3(a, m, b, z, tau);
      } else {
        InOrder3(a, m, b, tau, z);
      }
    }
    AtItsTarget(items, s, op, name, m, s');
  }

  lemma AtItsTarget(items: seq<Item>, s: State, op: Op, name: string, m: seq<nat>, s': State)
    requires AtDirective(items, s, op, name) && Findable(items, s.gone, name) && op != Replace
    requires
      var tau := s.order[TargetAt(items, s, name, op == After)];
      && tau !in m && StandsLike(s.order, m, s'.order, tau)
      && forall z: nat :: z in m ==> if op == Before then Precedes(s'.order, z, tau) else Precedes(s'.order, tau, z)
    ensures InItsPlace(items, s, op, name, m, [], s')
  {
    hide StandsLike, Findable, AtDirective, Precedes;
  }
}
