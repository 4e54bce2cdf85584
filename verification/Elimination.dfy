/**
 Which providers are to stay in a valid chain: what the eliminations have to come to, said of the chain alone,
 and what that means for those that stay.
 */
module Elimination {
  import opened Basics
  import opened FlowGraph

  // Injectors without real outputs are wanted although nobody consumes them.
  predicate Automatic(p: Provider) {
    !p.required && !p.desired && p.hasOutputFlow && forall tc :: tc in p.outputs ==> tc == UNUSED
  }

  function Automatics(c: Chain): set<nat> {
    set i | i in Positions(c) && Automatic(c.funcs[i])
  }

  function Shunned(c: Chain): set<nat> {
    set i | i in Positions(c) && c.funcs[i].shun
  }

  // ------------------------------------------------------------------ Before anything is tried

  // 'j' takes something from 'x', or insists that 'x' takes something from it.
  ghost predicate Binds(c: Chain, j: nat, x: nat) {
    || (exists f, tc :: Supplies(c, x, j, f, tc))
    || (exists f, tc :: Supplies(c, j, x, f, tc) && j < |c.funcs| && MustConsumeFlow(c.funcs[j], Opposite(f)))
  }

  // Everybody in 's' is protected or bound by somebody in 's'.
  ghost predicate AllBound(c: Chain, s: set<nat>) {
    forall x :: x in s ==> x < |c.funcs| && (Protected(c, Automatics(c), x) || exists j :: j in s && Binds(c, j, x))
  }

  // The greatest such part of what can be kept at all.
  ghost function Bound(c: Chain): set<nat> {
    set x | x in Greatest(c, Positions(c)) && InBoundPart(c, x)
  }

  ghost predicate InBoundPart(c: Chain, x: nat) {
    exists s :: AllBound(c, s) && s <= Greatest(c, Positions(c)) && x in s
  }

  // ------------------------------------------------------------------ What is tried

  // Values that go down are taken from the closest supplier, values that come up from the farthest: either way
  // from the one that stands last.
  predicate OnTheWay(up: bool, f: Flow) {
    if up then f == Received else f == Inputs || f == Bypass
  }

  ghost predicate TakesFrom(c: Chain, s: set<nat>, up: bool, i: nat, x: nat) {
    exists f, tc ::
      && OnTheWay(up, f) && x in s && Supplies(c, x, i, f, tc)
      && forall j :: j in s && Supplies(c, j, i, f, tc) ==> j <= x
  }

  predicate MustStay(c: Chain, s: set<nat>, i: nat) {
    && i in s && i < |c.funcs|
    && (c.funcs[i].required || c.funcs[i].desired || (Automatic(c.funcs[i]) && c.funcs[i].cluster == 0))
  }

  ghost predicate Complete(c: Chain, s: set<nat>, up: bool, k: set<nat>) {
    && (forall i :: MustStay(c, s, i) ==> i in k)
    && (forall i, x :: i in k && TakesFrom(c, s, up, i, x) ==> x in k)
  }

  // The least such set.
  ghost function Needed(c: Chain, s: set<nat>, up: bool): set<nat> {
    set x | x in Positions(c) && forall k :: Complete(c, s, up, k) ==> x in k
  }

  ghost predicate Superfluous(c: Chain, s: set<nat>, x: nat) {
    x < |c.funcs| && (c.funcs[x].shun || x !in Needed(c, s, false) + Needed(c, s, true))
  }

  // First those shunned, then the others.
  ghost function Proposal(c: Chain, s: set<nat>): seq<nat> {
    Ascending(|c.funcs|, Shunned(c))
    + Ascending(|c.funcs|, Positions(c) - (Needed(c, s, false) + Needed(c, s, true)) - Shunned(c))
  }

  // ------------------------------------------------------------------ How it is tried

  // The members of the cluster that can be kept at all.
  ghost function ClusterOf(c: Chain, x: nat): set<nat>
    requires x < |c.funcs|
  {
    set i | i in Greatest(c, Positions(c)) && i < |c.funcs| && c.funcs[i].cluster == c.funcs[x].cluster
  }

  // Who has to go with 'x': nobody, or the cluster that it is the first of.
  ghost function GoesWith(c: Chain, x: nat): set<nat>
    requires x < |c.funcs|
  {
    if c.funcs[x].cluster == 0 then {x}
    else if forall i :: i in ClusterOf(c, x) ==> x <= i then ClusterOf(c, x)
    else {}
  }

  // What is left of 'r' once 'x' has been tried.
  ghost function Tried(c: Chain, r: set<nat>, x: nat): set<nat>
    requires x < |c.funcs|
  {
    var t := GoesWith(c, x);
    if x !in r || (t == {x} && Automatic(c.funcs[x]) && c.funcs[x].cluster != 0) then r
    else if Valid(c, r - t, Automatics(c), false) then r - t
    else r
  }

  // One after the other.
  ghost function AllTried(c: Chain, r: set<nat>, list: seq<nat>): set<nat>
    requires forall k :: 0 <= k < |list| ==> list[k] < |c.funcs|
    decreases |list|
  {
    if list == [] then r else Tried(c, AllTried(c, r, list[..|list| - 1]), list[|list| - 1])
  }

  ghost function Remainder(c: Chain): set<nat> {
    AllTried(c, Bound(c), Proposal(c, Bound(c)))
  }

  // ------------------------------------------------------------------ The least sets

  lemma BoundInRange(c: Chain)
    ensures Bound(c) <= Greatest(c, Positions(c)) <= Positions(c)
  {
  }

  // Everybody who must stay is needed, and so is the supplier that stands last of each type a needed provider
  // takes, among those that can supply it; and nobody else is.
  lemma NeededIsLeast(c: Chain, s: set<nat>, up: bool)
    requires s <= Positions(c)
    ensures forall i :: MustStay(c, s, i) ==> i in Needed(c, s, up)
    ensures forall i: nat, j: nat, f, tc ::
              && i in Needed(c, s, up) && OnTheWay(up, f) && j in s && Supplies(c, j, i, f, tc)
              && (forall x :: x in s && Supplies(c, x, i, f, tc) ==> x <= j) ==>
                j in Needed(c, s, up)
    ensures forall k :: Complete(c, s, up, k) ==> Needed(c, s, up) <= k
  {
    hide OnTheWay;
    forall i: nat, j: nat, f, tc | i in Needed(c, s, up) && OnTheWay(up, f) && j in s && Supplies(c, j, i, f, tc)
        && (forall x :: x in s && Supplies(c, x, i, f, tc) ==> x <= j)
      ensures j in Needed(c, s, up)
    {
      assert TakesFrom(c, s, up, i, j);
      hide TakesFrom, Supplies;
      forall k | Complete(c, s, up, k) ensures j in k {
        assert i in k;
      }
    }
    hide TakesFrom, Supplies;
    forall i | MustStay(c, s, i) ensures i in Needed(c, s, up) {
      forall k | Complete(c, s, up, k) ensures i in k {
      }
    }
  }

  lemma MustIsNeeded(c: Chain, s: set<nat>, up: bool, i: nat)
    requires s <= Positions(c) && MustStay(c, s, i)
    ensures i in Needed(c, s, up)
  {
    hide Needed;
    NeededIsLeast(c, s, up);
  }

  lemma LastIsNeeded(c: Chain, s: set<nat>, up: bool, i: nat, f: Flow, tc: TypeCode, j: nat)
    requires s <= Positions(c) && i in Needed(c, s, up) && OnTheWay(up, f) && j in s && Supplies(c, j, i, f, tc)
    requires forall x :: x in s && Supplies(c, x, i, f, tc) ==> x <= j
    ensures j in Needed(c, s, up)
  {
    hide Needed;
    NeededIsLeast(c, s, up);
  }

  lemma NeededWithin(c: Chain, s: set<nat>, up: bool, k: set<nat>)
    requires Complete(c, s, up, k)
    ensures Needed(c, s, up) <= k
  {
  }

  // ------------------------------------------------------------------ What remains

  lemma ProposalIs(c: Chain, s: set<nat>)
    ensures forall x: nat :: x in Proposal(c, s) <==> Superfluous(c, s, x)
    ensures forall k :: 0 <= k < |Proposal(c, s)| ==> Proposal(c, s)[k] < |c.funcs|
  {
    hide Needed;
    forall x: nat ensures x in Proposal(c, s) <==> Superfluous(c, s, x) {
      assert x in Positions(c) <==> x < |c.funcs|;
    }
    forall k | 0 <= k < |Proposal(c, s)| ensures Proposal(c, s)[k] < |c.funcs| {
      assert Proposal(c, s)[k] in Proposal(c, s);
    }
  }

  lemma {:induction false} TriedShrinks(c: Chain, r: set<nat>, list: seq<nat>, k: nat)
    requires k <= |list| && forall k :: 0 <= k < |list| ==> list[k] < |c.funcs|
    ensures AllTried(c, r, list) <= AllTried(c, r, list[..k]) <= r
    decreases |list|
  {
    hide Valid, GoesWith;
    if k == |list| {
      assert list[..k] == list;
      if k > 0 {
        var before := list[..|list| - 1];
        TriedShrinks(c, r, before, 0);
        assert before[..0] == [];
      }
    } else {
      var before := list[..|list| - 1];
      TriedShrinks(c, r, before, k);
      assert before[..k] == list[..k];
    }
  }

  // Nothing that is tried makes the chain invalid.
  lemma {:induction false} TriedIsValid(c: Chain, r: set<nat>, list: seq<nat>)
    requires (forall k :: 0 <= k < |list| ==> list[k] < |c.funcs|) && Valid(c, r, Automatics(c), false)
    ensures Valid(c, AllTried(c, r, list), Automatics(c), false)
    decreases |list|
  {
    hide Valid, GoesWith;
    if list != [] {
      TriedIsValid(c, r, list[..|list| - 1]);
    }
  }

  // Who is not taken along with anybody proposed remains.
  lemma {:induction false} Untried(c: Chain, r: set<nat>, list: seq<nat>, x: nat)
    requires forall k :: 0 <= k < |list| ==> list[k] < |c.funcs|
    requires x in r && forall k :: 0 <= k < |list| ==> x !in GoesWith(c, list[k])
    ensures x in AllTried(c, r, list)
    decreases |list|
  {
    hide Valid, GoesWith;
    if list != [] {
      Untried(c, r, list[..|list| - 1], x);
    }
  }

  lemma GoesAlone(c: Chain, x: nat, y: nat)
    requires x < |c.funcs| && y < |c.funcs| && y in GoesWith(c, x)
    ensures c.funcs[y].cluster == c.funcs[x].cluster && (c.funcs[x].cluster == 0 ==> x == y)
  {
  }

  // What is needed remains, unless it is shunned or has to go with a cluster.
  lemma NeededRemains(c: Chain, x: nat)
    requires x < |c.funcs| && x in Bound(c) && c.funcs[x].cluster == 0 && !c.funcs[x].shun
    requires x in Needed(c, Bound(c), false) + Needed(c, Bound(c), true)
    ensures x in Remainder(c)
  {
    hide Needed, GoesWith, Bound, Proposal;
    var list := Proposal(c, Bound(c));
    ProposalIs(c, Bound(c));
    forall k | 0 <= k < |list| ensures x !in GoesWith(c, list[k]) {
      assert list[k] in list;
      if x in GoesWith(c, list[k]) {
        GoesAlone(c, list[k], x);
        assert false;
      }
    }
    Untried(c, Bound(c), list, x);
  }

  // Whatever a needed provider takes, the closest of those that can supply it remains with it, and comes closest
  // of all that remain; for what is returned, the farthest.
  lemma ClosestRemains(c: Chain, up: bool, i: nat, j: nat, f: Flow, tc: TypeCode)
    requires i in Needed(c, Bound(c), up) && j in Bound(c) && Supplies(c, j, i, f, tc)
    requires if up then f == Received else f == Inputs || f == Bypass
    requires forall x :: x in Bound(c) && Supplies(c, x, i, f, tc) ==> x <= j
    ensures j < |c.funcs| && j in Needed(c, Bound(c), up)
    ensures !c.funcs[j].shun ==> j !in Proposal(c, Bound(c))
    ensures !c.funcs[j].shun && c.funcs[j].cluster == 0 ==> j in Remainder(c)
    ensures forall x :: x in Remainder(c) && Supplies(c, x, i, f, tc) ==> x <= j
  {
    hide Needed, Bound, Proposal, Remainder;
    BoundInRange(c);
    NeededIsLeast(c, Bound(c), up);
    ProposalIs(c, Bound(c));
    RemainderIsBound(c);
    if !c.funcs[j].shun && c.funcs[j].cluster == 0 {
      NeededRemains(c, j);
    }
  }

  lemma RemainderIsBound(c: Chain)
    ensures Remainder(c) <= Bound(c)
  {
    hide Needed, Bound, Proposal;
    ProposalIs(c, Bound(c));
    TriedShrinks(c, Bound(c), Proposal(c, Bound(c)), 0);
    assert Proposal(c, Bound(c))[..0] == [];
  }

  lemma MustRemain(c: Chain, x: nat)
    requires MustStay(c, Bound(c), x) && c.funcs[x].cluster == 0 && !c.funcs[x].shun
    ensures x in Remainder(c) && x in Needed(c, Bound(c), false) && x in Needed(c, Bound(c), true)
  {
    hide Bound, Needed;
    BoundInRange(c);
    NeededIsLeast(c, Bound(c), false);
    NeededIsLeast(c, Bound(c), true);
    NeededRemains(c, x);
  }

  // Who is required or desired remains if it can, and what it takes is needed.
  lemma DesiredRemains(c: Chain, x: nat)
    requires x < |c.funcs| && x in Greatest(c, Positions(c)) && (c.funcs[x].required || c.funcs[x].desired)
    requires c.funcs[x].cluster == 0 && !c.funcs[x].shun
    ensures x in Remainder(c) && x in Needed(c, Bound(c), false) && x in Needed(c, Bound(c), true)
  {
    hide Greatest;
    BoundHas(c, x);
    MustRemain(c, x);
  }

  // An injector that sends nothing real remains if it can, although nobody takes anything from it.
  lemma QuietInjectorRemains(c: Chain, x: nat)
    requires x < |c.funcs| && x in Greatest(c, Positions(c))
    requires c.funcs[x].hasOutputFlow && forall tc :: tc in c.funcs[x].outputs ==> tc == UNUSED
    requires c.funcs[x].cluster == 0 && !c.funcs[x].shun
    ensures x in Remainder(c)
  {
    hide Greatest;
    BoundHas(c, x);
    MustRemain(c, x);
  }

  lemma BoundHas(c: Chain, x: nat)
    requires x < |c.funcs| && x in Greatest(c, Positions(c)) && Protected(c, Automatics(c), x)
    ensures x in Bound(c)
  {
    hide Greatest;
    assert AllBound(c, {x});
    assert InBoundPart(c, x);
  }

  // Who is neither required nor desired nor such an injector nor in a cluster, and serves nobody, does not.
  lemma UnusedGoes(c: Chain, x: nat)
    requires x < |c.funcs| && !c.funcs[x].required && !c.funcs[x].desired && c.funcs[x].cluster == 0
    requires !c.funcs[x].hasOutputFlow || exists tc :: tc in c.funcs[x].outputs && tc != UNUSED
    requires forall j, f, tc :: j in Greatest(c, Positions(c)) ==>
               !Supplies(c, x, j, f, tc)
               && (Supplies(c, j, x, f, tc) && j < |c.funcs| ==> !MustConsumeFlow(c.funcs[j], Opposite(f)))
    ensures x !in Remainder(c)
  {
    hide Greatest, Remainder, Bound, Supplies, MustConsumeFlow;
    RemainderIsBound(c);
    if x in Bound(c) {
      var j := BoundTo(c, x);
      assert false;
    }
  }

  lemma BoundTo(c: Chain, x: nat) returns (j: nat)
    requires x < |c.funcs| && x in Bound(c) && !Protected(c, Automatics(c), x)
    ensures j in Greatest(c, Positions(c)) && Binds(c, j, x)
  {
    hide Greatest, Binds;
    var s :| AllBound(c, s) && s <= Greatest(c, Positions(c)) && x in s;
    j :| j in s && Binds(c, j, x);
  }

  // ------------------------------------------------------------------ Nobody could be done without

  // Nobody who goes or could go is desired or wanted.
  ghost predicate Harmless(c: Chain) {
    forall q, x: nat :: q in Bound(c) && Superfluous(c, Bound(c), q) && x in GoesWith(c, q) && x < |c.funcs| ==>
      !c.funcs[x].desired && !Automatic(c.funcs[x])
  }

  lemma {:induction false} DesiredRemain(c: Chain, list: seq<nat>, k: nat, x: nat)
    requires forall k :: 0 <= k < |list| ==> list[k] < |c.funcs| && Superfluous(c, Bound(c), list[k])
    requires Harmless(c) && k <= |list| && x in AllTried(c, Bound(c), list[..k]) && x < |c.funcs|
    requires c.funcs[x].desired || Automatic(c.funcs[x])
    ensures x in AllTried(c, Bound(c), list)
    decreases |list|
  {
    hide Valid, GoesWith, Bound, Superfluous;
    if k == |list| {
      assert list[..k] == list;
    } else {
      var before, last := list[..|list| - 1], list[|list| - 1];
      assert before[..k] == list[..k];
      DesiredRemain(c, before, k, x);
      TriedShrinks(c, Bound(c), before, 0);
      assert before[..0] == [];
      if last in AllTried(c, Bound(c), before) {
        assert last in Bound(c);
        assert x !in GoesWith(c, last);
      }
    }
  }

  // If nobody desired or wanted is up for elimination, one round is enough: no provider that was tried and has
  // remained, and no cluster, could be left out of what remains.
  lemma Indispensable(c: Chain, p: nat)
    requires Harmless(c) && p < |c.funcs| && p in Remainder(c) && Superfluous(c, Bound(c), p)
    requires GoesWith(c, p) != {}
    ensures p in GoesWith(c, p) && !Valid(c, Remainder(c) - GoesWith(c, p), Automatics(c), false)
  {
    hide Valid, Bound, Proposal, Harmless, Superfluous, ClusterOf;
    var list, t := Proposal(c, Bound(c)), GoesWith(c, p);
    ProposalIs(c, Bound(c));
    RemainderIsBound(c);
    BoundInRange(c);
    GoesWithItself(c, p);
    var k :| 0 <= k < |list| && list[k] == p;
    var before, after := AllTried(c, Bound(c), list[..k]), AllTried(c, Bound(c), list[..k + 1]);
    assert list[..k + 1][..k] == list[..k] && list[..k + 1][k] == p;
    TriedShrinks(c, Bound(c), list, k);
    TriedShrinks(c, Bound(c), list, k + 1);
    HarmlessFor(c, p);
    assert after == Tried(c, before, p);
    assert p in before && p in after;
    assert !Valid(c, before - t, Automatics(c), false);
    forall k | 0 <= k < |list| ensures Superfluous(c, Bound(c), list[k]) {
      assert list[k] in list;
    }
    forall i | i in before - t && i < |c.funcs| && (c.funcs[i].desired || i in Automatics(c))
      ensures i in Remainder(c) - t
    {
      DesiredRemain(c, list, k, i);
    }
    InvalidityIsInherited(c, Remainder(c) - t, before - t, Automatics(c), false);
  }

  lemma GoesWithItself(c: Chain, p: nat)
    requires p < |c.funcs| && p in Greatest(c, Positions(c)) && GoesWith(c, p) != {}
    ensures p in GoesWith(c, p)
  {
    hide Greatest;
  }

  lemma HarmlessFor(c: Chain, p: nat)
    requires Harmless(c) && p in Bound(c) && Superfluous(c, Bound(c), p) && p < |c.funcs| && p in GoesWith(c, p)
    ensures !Automatic(c.funcs[p])
  {
  }

  // In chains without clusters it is enough that nobody shunned is desired or wanted.
  lemma PlainIsHarmless(c: Chain)
    requires forall i: nat :: i < |c.funcs| ==>
               c.funcs[i].cluster == 0 && (c.funcs[i].shun ==> !c.funcs[i].desired && !Automatic(c.funcs[i]))
    ensures Harmless(c)
    ensures forall p: nat :: p < |c.funcs| ==> GoesWith(c, p) == {p}
  {
    hide Bound, Needed, ClusterOf;
    BoundInRange(c);
    NeededIsLeast(c, Bound(c), false);
  }

  // ------------------------------------------------------------------ Shunned providers

  lemma {:induction false} ShunnedFirst(c: Chain, r: set<nat>, list: seq<nat>)
    requires forall k :: 0 <= k < |list| ==> list[k] < |c.funcs| && GoesWith(c, list[k]) <= Shunned(c)
    ensures r - Shunned(c) <= AllTried(c, r, list)
    decreases |list|
  {
    hide Valid, GoesWith;
    if list != [] {
      ShunnedFirst(c, r, list[..|list| - 1]);
    }
  }

  // If the chain can do without everybody shunned, none of them remains.
  lemma ShunnedGo(c: Chain, x: nat)
    requires forall i: nat :: i < |c.funcs| && c.funcs[i].shun ==>
               c.funcs[i].cluster == 0 && !c.funcs[i].desired && !Automatic(c.funcs[i])
    requires Valid(c, Bound(c) - Shunned(c), Automatics(c), false)
    requires x < |c.funcs| && c.funcs[x].shun
    ensures x !in Remainder(c)
  {
    hide *;
    ProposalIs(c, Bound(c));
    BoundInRange(c);
    var k := ShunnedBefore(c, x);
    var list := Proposal(c, Bound(c));
    var before := AllTried(c, Bound(c), list[..k]);
    assert list[..k + 1][..k] == list[..k] && list[..k + 1][k] == x;
    ShunnedFirst(c, Bound(c), list[..k]);
    TriedShrinks(c, Bound(c), list, k);
    TriedShrinks(c, Bound(c), list, k + 1);
    if x in Remainder(c) {
      RemainderIs(c);
      NotTaken(c, Bound(c), list[..k + 1], x);
      ShunnedHas(c, x);
      SmallerIsInvalid(c, before - {x}, Bound(c) - Shunned(c), Bound(c));
      assert false;
    }
  }

  lemma RemainderIs(c: Chain)
    ensures forall k :: 0 <= k < |Proposal(c, Bound(c))| ==> Proposal(c, Bound(c))[k] < |c.funcs|
    ensures Remainder(c) == AllTried(c, Bound(c), Proposal(c, Bound(c)))
  {
    ProposalIs(c, Bound(c));
    hide Proposal, Bound;
  }

  lemma ShunnedHas(c: Chain, x: nat)
    ensures x in Shunned(c) <==> x < |c.funcs| && c.funcs[x].shun
  {
  }

  // Who has been tried alone and is still there could not be left out.
  lemma NotTaken(c: Chain, r: set<nat>, list: seq<nat>, x: nat)
    requires forall k :: 0 <= k < |list| ==> list[k] < |c.funcs|
    requires list != [] && list[|list| - 1] == x && x < |c.funcs| && c.funcs[x].cluster == 0
    requires x in AllTried(c, r, list)
    ensures !Valid(c, AllTried(c, r, list[..|list| - 1]) - {x}, Automatics(c), false)
  {
    hide Valid;
  }

  lemma ShunnedBefore(c: Chain, x: nat) returns (k: nat)
    requires forall i: nat :: i < |c.funcs| && c.funcs[i].shun ==> c.funcs[i].cluster == 0
    requires x < |c.funcs| && c.funcs[x].shun
    ensures k < |Proposal(c, Bound(c))| && Proposal(c, Bound(c))[k] == x
    ensures forall l :: 0 <= l < k ==>
              var y := Proposal(c, Bound(c))[l];
              y < |c.funcs| && GoesWith(c, y) <= Shunned(c)
  {
    var first := Ascending(|c.funcs|, Shunned(c));
    assert x in first;
    k :| 0 <= k < |first| && first[k] == x;
    hide Bound, Needed, Ascending;
    forall l | 0 <= l < k ensures first[l] < |c.funcs| && GoesWith(c, first[l]) <= Shunned(c) {
      assert first[l] in first;
    }
  }

  lemma SmallerIsInvalid(c: Chain, large: set<nat>, small: set<nat>, s: set<nat>)
    requires small <= large <= s && small == s - Shunned(c) && s <= Positions(c)
    requires forall i: nat :: i < |c.funcs| && c.funcs[i].shun ==> !c.funcs[i].desired && !Automatic(c.funcs[i])
    requires !Valid(c, large, Automatics(c), false)
    ensures !Valid(c, small, Automatics(c), false)
  {
    hide Valid;
    InvalidityIsInherited(c, small, large, Automatics(c), false);
  }

  // ------------------------------------------------------------------ Clusters

  // The members of a cluster that can be kept at all remain together or not at all.
  lemma {:induction false} ClustersStayWhole(c: Chain, list: seq<nat>, x: nat, y: nat)
    requires forall k :: 0 <= k < |list| ==> list[k] < |c.funcs|
    requires x < |c.funcs| && y in ClusterOf(c, x) && x in ClusterOf(c, y) && c.funcs[x].cluster != 0
    ensures y < |c.funcs| && (x in AllTried(c, Bound(c), list) <==> y in AllTried(c, Bound(c), list))
    decreases |list|
  {
    hide Valid, Greatest;
    if list == [] {
      BoundHas(c, x);
      BoundHas(c, y);
    } else {
      ClustersStayWhole(c, list[..|list| - 1], x, y);
    }
  }

  lemma ClusterRemainsWhole(c: Chain, x: nat, y: nat)
    requires x < |c.funcs| && y < |c.funcs| && x in Greatest(c, Positions(c)) && y in Greatest(c, Positions(c))
    requires c.funcs[x].cluster == c.funcs[y].cluster != 0
    ensures x in Remainder(c) <==> y in Remainder(c)
  {
    ProposalIs(c, Bound(c));
    hide Valid, Greatest, Bound, Proposal;
    ClustersStayWhole(c, Proposal(c, Bound(c)), x, y);
  }

  // In chains without clusters: nobody superfluous that remains could be left out of what remains.
  lemma PlainIndispensable(c: Chain)
    requires forall i: nat :: i < |c.funcs| ==>
               c.funcs[i].cluster == 0 && (c.funcs[i].shun ==> !c.funcs[i].desired && !Automatic(c.funcs[i]))
    ensures forall p :: p in Remainder(c) && Superfluous(c, Bound(c), p) ==>
              !Valid(c, Remainder(c) - {p}, Automatics(c), false)
  {
    hide Remainder, Valid, Bound, GoesWith;
    PlainIsHarmless(c);
    forall p | p in Remainder(c) && Superfluous(c, Bound(c), p)
      ensures !Valid(c, Remainder(c) - {p}, Automatics(c), false)
    {
      SuperfluousIn(c, p);
      Indispensable(c, p);
    }
  }

  lemma SuperfluousIn(c: Chain, p: nat)
    ensures Superfluous(c, Bound(c), p) ==> p < |c.funcs|
  {
  }

  // A cluster of one that sends nothing real is never tried.
  lemma LoneQuietInjectorRemains(c: Chain, x: nat)
    requires x < |c.funcs| && x in Greatest(c, Positions(c)) && c.funcs[x].cluster != 0
    requires forall i: nat :: i < |c.funcs| && i != x && i in Greatest(c, Positions(c)) ==>
               c.funcs[i].cluster != c.funcs[x].cluster
    requires !c.funcs[x].required && !c.funcs[x].desired && c.funcs[x].hasOutputFlow
    requires forall tc :: tc in c.funcs[x].outputs ==> tc == UNUSED
    ensures x in Remainder(c)
  {
    ProposalIs(c, Bound(c));
    BoundHas(c, x);
    assert ClusterOf(c, x) == {x} by {
      GreatestIsWithin(c);
    }
    BoundInRange(c);
    hide Greatest, Bound, Proposal, Valid;
    NeverTried(c, Bound(c), Proposal(c, Bound(c)), x);
  }

  lemma GreatestIsWithin(c: Chain)
    ensures Greatest(c, Positions(c)) <= Positions(c)
  {
  }

  lemma {:induction false} NeverTried(c: Chain, r: set<nat>, list: seq<nat>, x: nat)
    requires (forall k :: 0 <= k < |list| ==> list[k] < |c.funcs|) && r <= Greatest(c, Positions(c))
    requires x in r && x < |c.funcs| && ClusterOf(c, x) == {x} && c.funcs[x].cluster != 0 && Automatic(c.funcs[x])
    ensures x in AllTried(c, r, list)
    decreases |list|
  {
    hide Valid, Greatest, Automatic, GoesWith, ClusterOf;
    if list != [] {
      var before, y := list[..|list| - 1], list[|list| - 1];
      NeverTried(c, r, before, x);
      TriedShrinks(c, r, before, 0);
      assert before[..0] == [];
      LoneMember(c, x, y);
    }
  }

  lemma LoneMember(c: Chain, x: nat, y: nat)
    requires x < |c.funcs| && y < |c.funcs| && ClusterOf(c, x) == {x} && c.funcs[x].cluster != 0
    ensures y == x ==> GoesWith(c, y) == {x}
    ensures y != x && y in Greatest(c, Positions(c)) ==> x !in GoesWith(c, y)
  {
    hide Greatest;
    assert x in ClusterOf(c, x);
    if y in Greatest(c, Positions(c)) && c.funcs[y].cluster == c.funcs[x].cluster {
      assert y in ClusterOf(c, x);
    }
  }
}
