/**
 What the directives of a chain do to it, in terms of the chain as it is given: who stands where, when a
 block can be lost, and when a nil pointer can be followed.
 */
module SpliceInput {
  import opened Basics
  import opened Splice
  import opened SpliceLaws
  import opened SpliceResult
  import opened SpliceOrder

  function Target(x: Item): string {
    TargetOf(x, OpOf(x))
  }

  // No provider that is to be replaced has a directive.
  ghost predicate ReplacedArePlain(items: seq<Item>) {
    forall j: nat :: j < |items| && items[j].replacing != "" ==> Plain(items, items[j].replacing)
  }

  // The provider has not been moved.
  ghost predicate Fixed(items: seq<Item>, s: State, x: nat) {
    x < |items| && x in s.order && (Directed(items[x]) ==> x !in s.done)
  }

  // Its directive has been dealt with.
  ghost predicate Done(items: seq<Item>, s: State, n: nat) {
    n < |items| && Directed(items[n]) && n in s.done
  }

  // Who has not been moved is in the original order.
  ghost predicate Ascending(items: seq<Item>, s: State) {
    forall p: nat, q: nat :: Fixed(items, s, p) && Fixed(items, s, q) && p < q ==> Precedes(s.order, p, q)
  }

  // Directives are dealt with in the original order.
  ghost predicate DoneFirst(items: seq<Item>, s: State) {
    forall x: nat, p: nat :: Done(items, s, x) && p < |items| && Directed(items[p]) && p !in s.done ==> x < p
  }

  // A name that is gone has been replaced by somebody.
  ghost predicate Marked(items: seq<Item>, s: State) {
    forall g :: g in s.gone ==> exists y: nat :: Done(items, s, y) && items[y].replacing == g
  }

  // A provider that has been moved stands, among those that have not, where its target stood.
  ghost predicate Placed(items: seq<Item>, s: State) {
    forall n: nat, tau: nat, f: nat ::
      && Done(items, s, n) && Plain(items, Target(items[n]))
      && tau < |items| && items[tau].origin == Target(items[n])
      && Fixed(items, s, f) && items[f].origin != Target(items[n]) ==>
        (f < tau ==> Precedes(s.order, f, n)) && (tau < f ==> Precedes(s.order, n, f))
  }

  // If it has been inserted, it stands on the right side of its target.
  ghost predicate Beside(items: seq<Item>, s: State) {
    forall n: nat, tau: nat ::
      && Done(items, s, n) && Plain(items, Target(items[n])) && OpOf(items[n]) != Replace
      && tau < |items| && tau in s.order && items[tau].origin == Target(items[n]) ==>
        if OpOf(items[n]) == Before then Precedes(s.order, n, tau) else Precedes(s.order, tau, n)
  }

  ghost predicate Sound(items: seq<Item>, s: State) {
    && Inv(items, s) && ReplacedArePlain(items)
    && Ascending(items, s) && DoneFirst(items, s) && Marked(items, s) && Placed(items, s) && Beside(items, s)
  }

  // Only providers without a directive are ever cut out.
  lemma GoneIsPlain(items: seq<Item>, s: State, x: nat)
    requires Inv(items, s) && ReplacedArePlain(items) && x < |items| && x !in s.order
    ensures !Directed(items[x]) && items[x].origin in s.gone && Plain(items, items[x].origin)
  {
    var g := items[x].origin;
    assert g in s.gone;
    var i: nat :| i < |items| && items[i].replacing == g;
    assert Plain(items, g);
  }

  // What a directive does to the providers of its block, to those it cuts out, and to the marks.
  lemma WentParts(items: seq<Item>, s: State, op: Op, name: string, m: seq<nat>, t: seq<nat>, s': State)
    requires Went(items, s, op, name, m, t, s')
    ensures forall z: nat :: z in m ==>
              z < |items| && z in s.order && z in s'.order && Directed(items[z]) && OpOf(items[z]) == op
                  && Target(items[z]) == name
    ensures forall z: nat :: z in t ==>
              z < |items| && z in s.order && z !in m && z !in s'.order && items[z].origin == name && op == Replace
    ensures forall z: nat :: z in s'.order <==> z in s.order && z !in t
    ensures forall z: nat :: z in s'.done <==> z in s.done || z in m || z in t
    ensures name != "" && name !in s.gone && s'.gone == if op == Replace then s.gone + {name} else s.gone
    ensures Distinct(s.order) && Distinct(s'.order)
    ensures m != [] && (op == Replace ==> t != [])
  {
    hide Apply, End, StateOk, StandsLike, Duplicated, Distinct, Precedes;
    assert NoSelfTarget(items);
    forall z: nat | z in t ensures z !in m {
      assert items[z].origin == name;
    }
  }

  lemma VictimsArePlain(items: seq<Item>, s: State, op: Op, name: string, m: seq<nat>, t: seq<nat>, s': State, z: nat)
    requires Went(items, s, op, name, m, t, s') && ReplacedArePlain(items) && z in t
    ensures op == Replace && z < |items| && !Directed(items[z]) && Plain(items, name)
  {
    hide *;
    WentParts(items, s, op, name, m, t, s');
    var x := m[0];
    assert x in m;
    ReplacesPlain(items, x, name);
    PlainIs(items, name, z);
  }

  lemma ReplacesPlain(items: seq<Item>, x: nat, name: string)
    requires ReplacedArePlain(items) && x < |items| && OpOf(items[x]) == Replace && Target(items[x]) == name
             && name != ""
    ensures Plain(items, name)
  {
  }

  lemma PlainIs(items: seq<Item>, name: string, z: nat)
    requires Plain(items, name) && z < |items| && items[z].origin == name
    ensures !Directed(items[z])
  {
  }

  lemma WentFixed(items: seq<Item>, s: State, op: Op, name: string, m: seq<nat>, t: seq<nat>, s': State, f: nat)
    requires Went(items, s, op, name, m, t, s') && Fixed(items, s', f)
    ensures Fixed(items, s, f) && f !in m && f !in t && f in s.order && f in s'.order && f < |items|
  {
    hide Apply, Findable, End, InItsPlace, AtDirective, Moving, Directed;
    WentParts(items, s, op, name, m, t, s');
  }

  lemma WentOrder(items: seq<Item>, s: State, op: Op, name: string, m: seq<nat>, t: seq<nat>, s': State, p: nat, q: nat)
    requires Went(items, s, op, name, m, t, s') && p in s'.order && q in s'.order && p !in m && q !in m
    ensures Precedes(s'.order, p, q) <==> Precedes(s.order, p, q)
  {
    hide Apply, Findable, End, InItsPlace, AtDirective, Precedes;
  }

  // Whose directive has been dealt with afterwards.
  lemma WentDone(items: seq<Item>, s: State, op: Op, name: string, m: seq<nat>, t: seq<nat>, s': State, n: nat)
    requires Went(items, s, op, name, m, t, s') && ReplacedArePlain(items) && Done(items, s', n)
    ensures Done(items, s, n) || n in m
    ensures n in m ==> n in s.order && n in s'.order && n < |items| && OpOf(items[n]) == op && Target(items[n]) == name
  {
    hide Apply, Findable, End, AtDirective, Went, ReplacedArePlain;
    WentParts(items, s, op, name, m, t, s');
    if n in t {
      VictimsArePlain(items, s, op, name, m, t, s', n);
    }
  }

  // Where the block stands afterwards, for a target that can be compared with.
  lemma WentWhere(items: seq<Item>, s: State, op: Op, name: string, m: seq<nat>, t: seq<nat>, s': State)
    returns (tau: nat)
    requires Went(items, s, op, name, m, t, s')
    ensures StateOk(items, s)
    ensures tau in s.order && tau !in m && tau < |items| && items[tau].origin == name
    ensures StandsLike(s.order, m, s'.order, tau)
    ensures Findable(items, s.gone, name) && FirstNamed(items, name, 0) < |items|
    ensures op == Replace ==> tau in t
    ensures op != Replace ==>
              && tau in s'.order && tau == s.order[TargetAt(items, s, name, op == After)]
              && tau == if op == After then LastNamed(items, FirstNamed(items, name, 0)) else FirstNamed(items, name, 0)
    ensures op == Before ==> forall z: nat :: z in m ==> Precedes(s'.order, z, tau)
    ensures op == After ==> forall z: nat :: z in m ==> Precedes(s'.order, tau, z)
  {
    hide Apply, Findable, End, StandsLike, Precedes, Directed, LastNamed, FirstNamed, Distinct, WellDirected;
    WentParts(items, s, op, name, m, t, s');
    if op == Replace {
      tau := t[0];
      assert tau in t;
    } else {
      tau := s.order[TargetAt(items, s, name, op == After)];
      TargetIs(items, s, name, op == After);
    }
  }

  // Whoever is left to be dealt with stands behind the block that is next.
  lemma BehindBlock(items: seq<Item>, s: State, x: nat, p: nat)
    requires StateOk(items, s) && s.k < |s.order| && x in s.order[s.k..End(items, s)]
             && p !in s.order[s.k..End(items, s)]
    requires p < |items| && p in s.order && Directed(items[p]) && p !in s.done
    ensures Precedes(s.order, x, p)
  {
    hide End, BlockEnd, Directed;
    var e := End(items, s);
    ThreeParts(s.order, s.k, e);
    var j :| 0 <= j < |s.order| && s.order[j] == p;
    StretchIndex(s.order, s.k, e, j);
    assert p !in s.order[..s.k];
    var i :| 0 <= i < e - s.k && s.order[s.k..e][i] == x;
    assert s.order[s.k + i] == x && s.k + i < j;
  }

  lemma StretchIndex(s: seq<nat>, m: nat, e: nat, j: nat)
    requires m <= e <= |s| && j < |s|
    ensures j < m ==> s[j] in s[..m]
    ensures m <= j < e ==> s[j] in s[m..e]
  {
    if j < m {
      assert s[..m][j] == s[j];
    } else if j < e {
      assert s[m..e][j - m] == s[j];
    }
  }

  lemma WentAt(items: seq<Item>, s: State, op: Op, name: string, m: seq<nat>, t: seq<nat>, s': State)
    requires Went(items, s, op, name, m, t, s')
    ensures StateOk(items, s) && s.k < |s.order| && m == s.order[s.k..End(items, s)]
  {
    hide End;
  }

  lemma KeepsAscending(items: seq<Item>, s: State, op: Op, name: string, m: seq<nat>, t: seq<nat>, s': State)
    requires Went(items, s, op, name, m, t, s') && Ascending(items, s)
    ensures Ascending(items, s')
  {
    hide Went, Fixed, Precedes;
    forall p: nat, q: nat | Fixed(items, s', p) && Fixed(items, s', q) && p < q ensures Precedes(s'.order, p, q) {
      WentFixed(items, s, op, name, m, t, s', p);
      WentFixed(items, s, op, name, m, t, s', q);
      WentOrder(items, s, op, name, m, t, s', p, q);
    }
  }

  lemma KeepsDoneFirst(items: seq<Item>, s: State, op: Op, name: string, m: seq<nat>, t: seq<nat>, s': State)
    requires Went(items, s, op, name, m, t, s') && Sound(items, s)
    ensures DoneFirst(items, s')
  {
    hide *;
    forall x: nat, p: nat | Done(items, s', x) && p < |items| && Directed(items[p]) && p !in s'.done ensures x < p {
      DealtWithFirst(items, s, op, name, m, t, s', x, p);
    }
    DoneFirstIs(items, s');
  }

  lemma DoneFirstIs(items: seq<Item>, s: State)
    requires forall x: nat, p: nat :: Done(items, s, x) && p < |items| && Directed(items[p]) && p !in s.done ==> x < p
    ensures DoneFirst(items, s)
  {
  }

  lemma SoundParts(items: seq<Item>, s: State)
    requires Sound(items, s)
    ensures Inv(items, s) && StateOk(items, s) && WellDirected(items) && ReplacedArePlain(items)
    ensures Ascending(items, s) && DoneFirst(items, s) && Marked(items, s) && Placed(items, s) && Beside(items, s)
    ensures Distinct(s.order)
  {
  }

  lemma DealtWithFirst(items: seq<Item>, s: State, op: Op, name: string, m: seq<nat>, t: seq<nat>, s': State, x: nat,
                       p: nat)
    requires Went(items, s, op, name, m, t, s') && Sound(items, s)
    requires Done(items, s', x) && p < |items| && Directed(items[p]) && p !in s'.done
    ensures x < p
  {
    hide Went, Inv, Sound, Precedes, Distinct, Directed, StateOk, WellDirected, ReplacedArePlain, Marked, Placed,
         Beside;
    SoundParts(items, s);
    WentParts(items, s, op, name, m, t, s');
    WentDone(items, s, op, name, m, t, s', x);
    if !Done(items, s, x) {
      if p !in s.order {
        GoneIsPlain(items, s, p);
      }
      WentAt(items, s, op, name, m, t, s');
      BehindBlock(items, s, x, p);
      OneWayOnly(s.order, x, p);
      assert p < x ==> Precedes(s.order, p, x);
    }
  }

  lemma KeepsMarked(items: seq<Item>, s: State, op: Op, name: string, m: seq<nat>, t: seq<nat>, s': State)
    requires Went(items, s, op, name, m, t, s') && Marked(items, s)
    ensures Marked(items, s')
  {
    hide Went, Directed;
    WentParts(items, s, op, name, m, t, s');
    forall g | g in s'.gone ensures exists y: nat :: Done(items, s', y) && items[y].replacing == g {
      if g in s.gone {
        var y: nat :| Done(items, s, y) && items[y].replacing == g;
        assert Done(items, s', y);
      } else {
        assert m[0] in m;
        assert Done(items, s', m[0]);
      }
    }
  }

  // Providers of one name that can be found stand together: nobody else is between them.
  lemma SameSide(items: seq<Item>, gone: set<string>, name: string, tau: nat, tau': nat, f: nat)
    requires Findable(items, gone, name) && tau < |items| && tau' < |items| && f < |items|
    requires items[tau].origin == name && items[tau'].origin == name && items[f].origin != name
    ensures f < tau <==> f < tau'
  {
    hide FirstNamed, LastNamed;
    FirstNamedIs(items, name, 0);
    LastNamedIsLast(items, FirstNamed(items, name, 0));
    InTheFirstRow(items, gone, name, tau);
    InTheFirstRow(items, gone, name, tau');
  }

  lemma PlainIsFixed(items: seq<Item>, s: State, tau: nat)
    requires tau < |items| && tau in s.order && Plain(items, items[tau].origin)
    ensures Fixed(items, s, tau)
  {
  }

  lemma StandsThere(s: seq<nat>, m: seq<nat>, s': seq<nat>, tau: nat, p: nat, z: nat)
    requires StandsLike(s, m, s', tau) && p in s' && p !in m && p != tau && z in m
    ensures Precedes(s', p, z) <==> Precedes(s, p, tau)
    ensures Precedes(s', z, p) <==> Precedes(s, tau, p)
  {
  }

  lemma KeepsPlaced(items: seq<Item>, s: State, op: Op, name: string, m: seq<nat>, t: seq<nat>, s': State)
    requires Went(items, s, op, name, m, t, s') && Sound(items, s)
    ensures Placed(items, s')
  {
    hide Went, Sound, Directed, Precedes, Plain;
    forall n: nat, tau: nat, f: nat |
      && Done(items, s', n) && Plain(items, Target(items[n]))
      && tau < |items| && items[tau].origin == Target(items[n])
      && Fixed(items, s', f) && items[f].origin != Target(items[n])
      ensures (f < tau ==> Precedes(s'.order, f, n)) && (tau < f ==> Precedes(s'.order, n, f))
    {
      StaysPlaced(items, s, op, name, m, t, s', n, tau, f);
    }
  }

  lemma DoneParts(items: seq<Item>, s: State, n: nat)
    requires Done(items, s, n)
    ensures n < |items| && Directed(items[n]) && n in s.done
  {
  }

  lemma PlacedIs(items: seq<Item>, s: State, n: nat, tau: nat, f: nat)
    requires Placed(items, s) && Done(items, s, n) && Plain(items, Target(items[n]))
    requires tau < |items| && items[tau].origin == Target(items[n])
    requires Fixed(items, s, f) && items[f].origin != Target(items[n])
    ensures (f < tau ==> Precedes(s.order, f, n)) && (tau < f ==> Precedes(s.order, n, f))
  {
  }

  lemma StillThere(items: seq<Item>, s: State, op: Op, name: string, m: seq<nat>, t: seq<nat>, s': State, n: nat)
    requires Went(items, s, op, name, m, t, s') && Sound(items, s) && Done(items, s', n)
    ensures n < |items| && n in s.order && n in s'.order && Directed(items[n])
    ensures n in m ==> OpOf(items[n]) == op && Target(items[n]) == name
    ensures n !in m ==> Done(items, s, n)
  {
    hide *;
    SoundParts(items, s);
    DoneParts(items, s', n);
    WentDone(items, s, op, name, m, t, s', n);
    WentParts(items, s, op, name, m, t, s');
    if n !in m {
      DoneParts(items, s, n);
      if n !in s.order {
        GoneIsPlain(items, s, n);
      }
      if n in t {
        VictimsArePlain(items, s, op, name, m, t, s', n);
      }
    }
  }

  lemma StaysPlaced(items: seq<Item>, s: State, op: Op, name: string, m: seq<nat>, t: seq<nat>, s': State, n: nat,
                    tau: nat, f: nat)
    requires Went(items, s, op, name, m, t, s') && Sound(items, s)
    requires Done(items, s', n) && Plain(items, Target(items[n]))
    requires tau < |items| && items[tau].origin == Target(items[n])
    requires Fixed(items, s', f) && items[f].origin != Target(items[n])
    ensures (f < tau ==> Precedes(s'.order, f, n)) && (tau < f ==> Precedes(s'.order, n, f))
  {
    hide *;
    SoundParts(items, s);
    WentFixed(items, s, op, name, m, t, s', f);
    StillThere(items, s, op, name, m, t, s', n);
    if n in m {
      var there := WentWhere(items, s, op, name, m, t, s');
      PlainIsFixed(items, s, there);
      SameSide(items, s.gone, name, tau, there, f);
      AscendingIs(items, s, f, there);
      StandsThere(s.order, m, s'.order, there, f, n);
    } else {
      PlacedIs(items, s, n, tau, f);
      WentOrder(items, s, op, name, m, t, s', f, n);
      WentOrder(items, s, op, name, m, t, s', n, f);
    }
  }

  lemma AscendingIs(items: seq<Item>, s: State, p: nat, q: nat)
    requires Ascending(items, s) && Fixed(items, s, p) && Fixed(items, s, q)
    ensures (p < q ==> Precedes(s.order, p, q)) && (q < p ==> Precedes(s.order, q, p))
  {
  }

  lemma KeepsBeside(items: seq<Item>, s: State, op: Op, name: string, m: seq<nat>, t: seq<nat>, s': State)
    requires Went(items, s, op, name, m, t, s') && Sound(items, s)
    ensures Beside(items, s')
  {
    hide Went, Sound, Directed, Precedes, Plain;
    forall n: nat, tau: nat |
      && Done(items, s', n) && Plain(items, Target(items[n])) && OpOf(items[n]) != Replace
      && tau < |items| && tau in s'.order && items[tau].origin == Target(items[n])
      ensures if OpOf(items[n]) == Before then Precedes(s'.order, n, tau) else Precedes(s'.order, tau, n)
    {
      StaysBeside(items, s, op, name, m, t, s', n, tau);
    }
  }

  lemma BesideIs(items: seq<Item>, s: State, n: nat, tau: nat)
    requires Beside(items, s) && Done(items, s, n) && Plain(items, Target(items[n])) && OpOf(items[n]) != Replace
    requires tau < |items| && tau in s.order && items[tau].origin == Target(items[n])
    ensures if OpOf(items[n]) == Before then Precedes(s.order, n, tau) else Precedes(s.order, tau, n)
  {
  }

  lemma StaysBeside(items: seq<Item>, s: State, op: Op, name: string, m: seq<nat>, t: seq<nat>, s': State, n: nat,
                    tau: nat)
    requires Went(items, s, op, name, m, t, s') && Sound(items, s)
    requires Done(items, s', n) && Plain(items, Target(items[n])) && OpOf(items[n]) != Replace
    requires tau < |items| && tau in s'.order && items[tau].origin == Target(items[n])
    ensures if OpOf(items[n]) == Before then Precedes(s'.order, n, tau) else Precedes(s'.order, tau, n)
  {
    hide *;
    SoundParts(items, s);
    PlainIsFixed(items, s', tau);
    WentFixed(items, s, op, name, m, t, s', tau);
    StillThere(items, s, op, name, m, t, s', n);
    if n in m {
      var there := WentWhere(items, s, op, name, m, t, s');
      PlainIsFixed(items, s, there);
      InTheFirstRow(items, s.gone, name, tau);
      if tau != there {
        AscendingIs(items, s, tau, there);
        StandsThere(s.order, m, s'.order, there, tau, n);
      }
    } else {
      BesideIs(items, s, n, tau);
      WentOrder(items, s, op, name, m, t, s', tau, n);
      WentOrder(items, s, op, name, m, t, s', n, tau);
    }
  }

  lemma ApplyStaysSound(items: seq<Item>, s: State, op: Op, name: string)
    requires Sound(items, s) && AtDirective(items, s, op, name) && s.order[s.k] !in s.done
             && Apply(items, s, op, name).Next?
    ensures Sound(items, Apply(items, s, op, name).s)
  {
    hide *;
    SoundParts(items, s);
    var s' := Apply(items, s, op, name).s;
    var m, t := TurnIs(items, s, op, name);
    ApplyKeeps(items, s, op, name);
    KeepsAscending(items, s, op, name, m, t, s');
    KeepsDoneFirst(items, s, op, name, m, t, s');
    KeepsMarked(items, s, op, name, m, t, s');
    KeepsPlaced(items, s, op, name, m, t, s');
    KeepsBeside(items, s, op, name, m, t, s');
    SoundIs(items, s');
  }

  lemma SoundIs(items: seq<Item>, s: State)
    requires Inv(items, s) && ReplacedArePlain(items)
    requires Ascending(items, s) && DoneFirst(items, s) && Marked(items, s) && Placed(items, s) && Beside(items, s)
    ensures Sound(items, s)
  {
  }

  // Moving on does not matter to any of this.
  lemma PassingStaysSound(items: seq<Item>, s: State)
    requires Sound(items, s) && s.k < |s.order| && !Pending(items, s)
    ensures Sound(items, s.(k := s.k + 1))
  {
    hide Inv, Precedes, Plain, Directed;
    var s' := s.(k := s.k + 1);
    SoundParts(items, s);
    assert Step(items, s) == Next(s');
    StepKeeps(items, s);
    assert forall x: nat :: Fixed(items, s', x) ==> Fixed(items, s, x);
    assert forall x: nat :: Done(items, s', x) ==> Done(items, s, x);
    assert forall x: nat :: Done(items, s, x) ==> Done(items, s', x);
    PassingStaysPlaced(items, s, s');
  }

  lemma PassingStaysPlaced(items: seq<Item>, s: State, s': State)
    requires s' == s.(k := s'.k) && Placed(items, s) && Beside(items, s)
    ensures Placed(items, s') && Beside(items, s')
  {
    hide Precedes, Plain, Directed, Target, OpOf;
    assert forall x: nat :: Fixed(items, s', x) ==> Fixed(items, s, x);
    assert forall x: nat :: Done(items, s', x) ==> Done(items, s, x);
  }

  lemma StepStaysSound(items: seq<Item>, s: State)
    requires Sound(items, s) && s.k < |s.order| && Step(items, s).Next?
    ensures StateOk(items, s) && WellDirected(items) && Sound(items, Step(items, s).s)
  {
    hide *;
    SoundParts(items, s);
    StepIs(items, s);
    StateParts(items, s);
    NotPending(items, s);
    if Pending(items, s) {
      var x := items[s.order[s.k]];
      ApplyStaysSound(items, s, OpOf(x), TargetOf(x, OpOf(x)));
    } else {
      PassingStaysSound(items, s);
    }
  }

  lemma NotPending(items: seq<Item>, s: State)
    requires StateOk(items, s) && WellDirected(items) && s.k < |s.order|
    ensures !Pending(items, s) ==> Step(items, s) == Next(s.(k := s.k + 1))
  {
  }

  lemma StartIsSound(items: seq<Item>)
    requires WellDirected(items) && ReplacedArePlain(items)
    ensures Sound(items, Start(items))
  {
    hide Directed;
    StartInv(items);
    forall p: nat, q: nat | p < q < |items| ensures Precedes(Start(items).order, p, q) {
      assert Start(items).order[p] == p && Start(items).order[q] == q;
    }
  }

  lemma BetweenNeighbours(s: seq<nat>, i: nat, y: nat)
    requires Distinct(s) && i + 1 < |s|
    ensures !(Precedes(s, s[i], y) && Precedes(s, y, s[i + 1]))
    ensures !Precedes(s, s[i + 1], s[i])
  {
  }

  // Where a chain had somebody between two providers that have not been moved, it still has.
  lemma SomebodyBetween(items: seq<Item>, s: State, a: nat, b: nat, p: nat, c: nat) returns (y: nat)
    requires Sound(items, s) && Fixed(items, s, a) && Fixed(items, s, b) && a < c < b
    requires Fixed(items, s, p) && Directed(items[p]) && p <= a
    ensures Precedes(s.order, a, y) && Precedes(s.order, y, b)
    ensures y == c || (c !in s.order && Done(items, s, y) && items[y].replacing == items[c].origin
                       && items[c].origin in s.gone)
  {
    hide Directed, Precedes, StateOk, Tidy, Together, Distinct, Sound;
    SoundParts(items, s);
    if c in s.order {
      y := c;
      assert Done(items, s, c) ==> c < p;
      AscendingIs(items, s, a, c);
      AscendingIs(items, s, c, b);
    } else {
      GoneIsPlain(items, s, c);
      y :| Done(items, s, y) && items[y].replacing == items[c].origin;
      assert Effective(items, s) && Target(items[y]) == items[c].origin;
      PlacedIs(items, s, y, c, a);
      PlacedIs(items, s, y, c, b);
    }
  }

  lemma NothingBetween(items: seq<Item>, s: State, i: nat, p: nat)
    requires Sound(items, s) && i + 1 < |s.order| && Fixed(items, s, s.order[i]) && Fixed(items, s, s.order[i + 1])
    requires Fixed(items, s, p) && Directed(items[p]) && p <= s.order[i]
    ensures s.order[i + 1] == s.order[i] + 1
  {
    hide *;
    SoundParts(items, s);
    var a, b := s.order[i], s.order[i + 1];
    BetweenNeighbours(s.order, i, a);
    AscendingIs(items, s, a, b);
    NotTheSame(s.order, i);
    if a + 1 < b {
      var y := SomebodyBetween(items, s, a, b, p, a + 1);
      BetweenNeighbours(s.order, i, y);
    }
  }

  lemma NotTheSame(s: seq<nat>, i: nat)
    requires Distinct(s) && i + 1 < |s|
    ensures s[i] != s[i + 1]
  {
  }

  // Some provider that replaces 'name' stands directly before the providers of that name, and another one
  // directly behind them.
  ghost predicate Sandwich(items: seq<Item>, name: string) {
    var first := FirstNamed(items, name, 0);
    && name != "" && 0 < first < |items| && items[first - 1].replacing == name
    && LastNamed(items, first) + 1 < |items| && items[LastNamed(items, first) + 1].replacing == name
  }

  // A directive that is still to be dealt with, to replace a name that can be found.
  lemma ToReplaceIsFixed(items: seq<Item>, s: State, name: string, r: nat)
    requires Inv(items, s) && name != "" && name !in s.gone && r in s.order && r < |items| && items[r].replacing == name
    ensures Fixed(items, s, r) && Directed(items[r])
  {
  }

  lemma TornParts(items: seq<Item>, s: State, name: string)
    requires AtDirective(items, s, Replace, name) && Apply(items, s, Replace, name).Torn?
    ensures Findable(items, s.gone, name) && s.k < |s.order|
    ensures forall k :: 0 <= k < |s.order| ==> s.order[k] < |items|
    ensures
      var (t, u) := Victims(items, s, name);
      && s.k < End(items, s) == t < u < |s.order| && items[s.order[u]].replacing == name
  {
    hide Findable, BlockEnd, Replaced, Resume, TargetAt;
    TornExactlyIfSandwiched(items, s, name);
  }

  lemma LastVictim(items: seq<Item>, s: State, name: string)
    requires Sound(items, s) && AtDirective(items, s, Replace, name) && Findable(items, s.gone, name)
             && Plain(items, name) && name != ""
    ensures
      var (t, u) := Victims(items, s, name);
      && s.order[u - 1] == LastNamed(items, FirstNamed(items, name, 0)) && s.order[t] == FirstNamed(items, name, 0)
      && Fixed(items, s, s.order[t]) && Fixed(items, s, s.order[u - 1])
  {
    hide *;
    SoundParts(items, s);
    InvParts(items, s);
    VictimsStart(items, s, name);
    TargetIs(items, s, name, false);
    var (t, u) := Victims(items, s, name);
    PlainIsFixed(items, s, s.order[t]);
    PlainIsFixed(items, s, s.order[u - 1]);
    InTheFirstRow(items, s.gone, name, s.order[u - 1]);
    var j := LastInRow(items, s, name);
    NoneBehindTheLast(items, s, j, u - 1);
  }

  lemma NoneBehindTheLast(items: seq<Item>, s: State, j: nat, l: nat)
    requires Sound(items, s) && j <= l < |s.order| && s.order[l] <= s.order[j] < |items|
    requires Plain(items, items[s.order[j]].origin) && Fixed(items, s, s.order[l])
    ensures s.order[l] == s.order[j]
  {
    hide *;
    SoundParts(items, s);
    PlainIsFixed(items, s, s.order[j]);
    AscendingIs(items, s, s.order[l], s.order[j]);
    AtMostOnce(s.order, j, l);
  }

  lemma LastInRow(items: seq<Item>, s: State, name: string) returns (j: nat)
    requires Inv(items, s) && AtDirective(items, s, Replace, name) && Findable(items, s.gone, name)
             && Plain(items, name) && name != ""
    ensures FirstNamed(items, name, 0) < |items|
    ensures j < Victims(items, s, name).1 && s.order[j] == LastNamed(items, FirstNamed(items, name, 0))
            && items[s.order[j]].origin == name
  {
    hide *;
    FindableParts(items, s.gone, name);
    FirstNamedIs(items, name, 0);
    LastNamedIs(items, FirstNamed(items, name, 0));
    var (t, u) := Victims(items, s, name);
    var last := LastNamed(items, FirstNamed(items, name, 0));
    VictimsAreAll(items, s, name, last);
    var i :| 0 <= i < u - t && s.order[t..u][i] == last;
    j := t + i;
    assert s.order[j] == last;
  }

  lemma AtMostOnce(s: seq<nat>, i: nat, j: nat)
    requires Distinct(s) && i <= j < |s|
    ensures !Precedes(s, s[j], s[i])
  {
  }

  // The providers before and behind the ones to be replaced, in a chain that is being torn.
  lemma TornBetween(items: seq<Item>, s: State, name: string)
    requires Sound(items, s) && AtDirective(items, s, Replace, name) && Apply(items, s, Replace, name).Torn?
    ensures Findable(items, s.gone, name) && Plain(items, name) && name != "" && StateOk(items, s)
    ensures
      var (t, u) := Victims(items, s, name);
      && 0 < t < u < |s.order| && s.order[t - 1] < |items| && s.order[u] < |items|
      && items[s.order[t - 1]].replacing == name && Fixed(items, s, s.order[t - 1]) && Directed(items[s.order[t - 1]])
      && items[s.order[u]].replacing == name && Fixed(items, s, s.order[u])
  {
    hide *;
    SoundParts(items, s);
    TornParts(items, s, name);
    ReplacedName(items, s, name);
    FindableParts(items, s.gone, name);
    var (t, u) := Victims(items, s, name);
    BlockIs(items, s, Replace, name);
    StretchIndex(s.order, s.k, t, t - 1);
    LastOfBlock(items, s, name, s.order[t - 1]);
    ToReplaceIsFixed(items, s, name, s.order[t - 1]);
    ToReplaceIsFixed(items, s, name, s.order[u]);
  }

  lemma TornIsSandwich(items: seq<Item>, s: State, name: string)
    requires Sound(items, s) && AtDirective(items, s, Replace, name) && Apply(items, s, Replace, name).Torn?
    ensures Sandwich(items, name)
  {
    hide *;
    TornBetween(items, s, name);
    LastVictim(items, s, name);
    TargetIs(items, s, name, false);
    var (t, u) := Victims(items, s, name);
    var r := s.order[t - 1];
    NothingBetween(items, s, t - 1, r);
    LastIsNotFirst(items, FirstNamed(items, name, 0));
    NothingBetween(items, s, u - 1, r);
    SandwichIs(items, name);
  }

  lemma LastIsNotFirst(items: seq<Item>, first: nat)
    requires first < |items|
    ensures first <= LastNamed(items, first)
  {
  }

  lemma SandwichIs(items: seq<Item>, name: string)
    requires name != "" && 0 < FirstNamed(items, name, 0) < |items|
             && items[FirstNamed(items, name, 0) - 1].replacing == name
    requires LastNamed(items, FirstNamed(items, name, 0)) + 1 < |items|
    requires items[LastNamed(items, FirstNamed(items, name, 0)) + 1].replacing == name
    ensures Sandwich(items, name)
  {
  }

  lemma LastOfBlock(items: seq<Item>, s: State, name: string, r: nat)
    requires s.k < |s.order| && Positions(items, s.order)
    requires Moving(items, s, Replace, name, s.order[s.k..End(items, s)]) && r in s.order[s.k..End(items, s)]
    ensures r in s.order && r < |items| && items[r].replacing == name
  {
    hide End;
  }

  lemma FindableParts(items: seq<Item>, gone: set<string>, name: string)
    requires Findable(items, gone, name)
    ensures name !in gone && FirstNamed(items, name, 0) < |items| && !Duplicated(items, name)
  {
  }

  lemma ReplacedName(items: seq<Item>, s: State, name: string)
    requires AtDirective(items, s, Replace, name) && ReplacedArePlain(items)
    ensures name != "" && Plain(items, name) && Positions(items, s.order)
  {
  }

  // A chain is torn only if, as it was given, some provider is directly between two that are to replace it.
  lemma {:induction false} TornOnlyIfSandwiched(items: seq<Item>)
    requires WellDirected(items) && ReplacedArePlain(items) && Traverse(items, Start(items)).Torn?
    ensures exists name :: Sandwich(items, name)
  {
    StartIsSound(items);
    TraverseTorn(items, Start(items));
  }

  lemma TornAt(items: seq<Item>, s: State)
    requires Sound(items, s) && s.k < |s.order| && StateOk(items, s) && WellDirected(items) && Step(items, s).Torn?
    ensures exists name :: Sandwich(items, name)
  {
    hide *;
    StateParts(items, s);
    NotPending(items, s);
    StepIs(items, s);
    var x := items[s.order[s.k]];
    TornReplaces(items, s, OpOf(x), TargetOf(x, OpOf(x)));
    TornIsSandwich(items, s, TargetOf(x, OpOf(x)));
  }

  lemma TornReplaces(items: seq<Item>, s: State, op: Op, name: string)
    requires AtDirective(items, s, op, name) && Apply(items, s, op, name).Torn?
    ensures op == Replace
  {
  }

  lemma {:induction false} TraverseTorn(items: seq<Item>, s: State)
    requires Sound(items, s) && StateOk(items, s) && WellDirected(items) && Traverse(items, s).Torn?
    ensures exists name :: Sandwich(items, name)
    decreases Undone(s), |s.order| - s.k
  {
    hide *;
    TraverseStep(items, s);
    StateParts(items, s);
    if s.k < |s.order| {
      var o := Step(items, s);
      if o.Next? {
        StepStaysSound(items, s);
        TraverseTorn(items, o.s);
      } else {
        TornAt(items, s);
      }
    }
  }
}
