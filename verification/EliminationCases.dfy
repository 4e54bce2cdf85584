/**
 Two chains, and what remains of them.
 */
module EliminationCases {
  import opened Basics
  import opened FlowGraph
  import opened Elimination

  const T: TypeCode := 4
  const U: TypeCode := 5

  function Injector(outputs: seq<TypeCode>, cluster: int): Provider {
    Provider(false, false, false, false, cluster, None, None, true, outputs, [], [], [], [])
  }

  function Needing(isInvoke: bool, inputs: seq<TypeCode>): Provider {
    Provider(isInvoke, true, false, false, 0, None, None, false, [], inputs, [], [], [])
  }

  // [invoke, injector -> T, injector -> T, final (T)]
  const TWO: Chain := Chain([Needing(true, []), Injector([T], 0), Injector([T], 0), Needing(false, [T])], None, 0, {})

  // The second injector remains, which is closer to the final function.
  lemma CloserSupplierRemains()
    ensures Valid(TWO, Positions(TWO), Automatics(TWO), true) && Remainder(TWO) == {0, 2, 3}
  {
    hide *;
    TwoBound();
    TwoNeeded();
    TwoFacts({0, 1, 2, 3});
    TwoFacts({0, 2, 3});
    TwoIsPlain();
    PlainIndispensable(TWO);
    MustRemain(TWO, 0);
    MustRemain(TWO, 3);
    ClosestRemains(TWO, false, 3, 2, Inputs, T);
    RemainderIsBound(TWO);
    assert Remainder(TWO) - {1} == {0, 2, 3};
  }

  lemma TwoSupplies()
    ensures forall j: nat, i: nat, f, tc :: Supplies(TWO, j, i, f, tc) <==>
              (j == 1 || j == 2) && i == 3 && f == Inputs && tc == T
    ensures forall i: nat, f, tc :: Needs(TWO, i, f, tc) <==> i == 3 && f == Inputs && tc == T
    ensures |TWO.funcs| == 4 && Positions(TWO) == {0, 1, 2, 3} && OnTheWay(false, Inputs)
    ensures forall i: nat :: i < 4 ==> !MustConsumeFlow(TWO.funcs[i], Outputs)
  {
  }

  lemma TwoFacts(s: set<nat>)
    requires s == {0, 1, 2, 3} || s == {0, 2, 3}
    ensures Valid(TWO, s, Automatics(TWO), false) && Valid(TWO, s, Automatics(TWO), true)
    ensures Greatest(TWO, s) == s
  {
    TwoSupplies();
    hide Supplies, Needs;
    assert SourcedIn(TWO, s, 3, Inputs, T) by {
      assert Supplies(TWO, 2, 3, Inputs, T);
    }
    forall i | i in s ensures LocallyConsistent(TWO, s, i) {
    }
    ConsistentIsOwnGreatest(TWO, s);
  }

  lemma TwoBound()
    ensures Bound(TWO) == {0, 1, 2, 3} == Positions(TWO)
  {
    var all := {0, 1, 2, 3};
    TwoFacts(all);
    TwoSupplies();
    hide Supplies, Needs, Valid, Greatest;
    assert Supplies(TWO, 1, 3, Inputs, T) && Supplies(TWO, 2, 3, Inputs, T);
    assert Binds(TWO, 3, 1) && Binds(TWO, 3, 2);
    assert AllBound(TWO, all);
    forall x | x in all ensures InBoundPart(TWO, x) {
    }
  }

  lemma TwoNeeded()
    ensures Superfluous(TWO, {0, 1, 2, 3}, 1) && 3 in Needed(TWO, {0, 1, 2, 3}, false)
    ensures forall x :: Supplies(TWO, x, 3, Inputs, T) ==> x <= 2
    ensures Supplies(TWO, 2, 3, Inputs, T) && OnTheWay(false, Inputs)
    ensures |TWO.funcs| == 4
    ensures forall i: nat :: i < 4 ==> TWO.funcs[i].cluster == 0 && !TWO.funcs[i].shun
    ensures forall x :: x in {0, 3} ==> MustStay(TWO, {0, 1, 2, 3}, x)
  {
    TwoSupplies();
    hide Supplies, Needs;
    var all, rest := {0, 1, 2, 3}, {0, 2, 3};
    assert Supplies(TWO, 2, 3, Inputs, T);
    forall i, x | i in rest && TakesFrom(TWO, all, false, i, x) ensures x in rest {
    }
    assert forall i, x :: !TakesFrom(TWO, all, true, i, x);
    TwoIsPlain();
    forall i | MustStay(TWO, all, i) ensures i in rest {
    }
    assert Complete(TWO, all, false, rest) && Complete(TWO, all, true, rest);
    NeededWithin(TWO, all, false, rest);
    NeededWithin(TWO, all, true, rest);
    assert MustStay(TWO, all, 3);
    MustIsNeeded(TWO, all, false, 3);
    hide Needed;
  }

  lemma TwoIsPlain()
    ensures forall i: nat :: i < |TWO.funcs| ==>
              TWO.funcs[i].cluster == 0 && (TWO.funcs[i].shun ==> !TWO.funcs[i].desired && !Automatic(TWO.funcs[i]))
    ensures forall i: nat :: i < |TWO.funcs| ==> !Automatic(TWO.funcs[i])
  {
    assert T in TWO.funcs[1].outputs && T in TWO.funcs[2].outputs;
  }

  // [invoke, injector -> T, injector -> U, injector -> T, final (T)], the first two injectors in a cluster
  const CLUSTERED: Chain := Chain(
    [Needing(true, []), Injector([T], 1), Injector([U], 1), Injector([T], 0), Needing(false, [T])], None, 0, {})

  // The cluster goes as a whole.
  lemma ClusterGoes()
    ensures Valid(CLUSTERED, Positions(CLUSTERED), Automatics(CLUSTERED), true) && Remainder(CLUSTERED) == {0, 3, 4}
  {
    hide *;
    ClusteredBound();
    ClusteredNeeded();
    ClusteredFacts({0, 1, 2, 3, 4});
    ClusteredFacts({0, 3, 4});
    ClusteredMembers();
    MustRemain(CLUSTERED, 0);
    MustRemain(CLUSTERED, 4);
    ClosestRemains(CLUSTERED, false, 4, 3, Inputs, T);
    RemainderIsBound(CLUSTERED);
    ClusterRemainsWhole(CLUSTERED, 1, 2);
    assert Remainder(CLUSTERED) - {1, 2} == {0, 3, 4};
    if 1 in Remainder(CLUSTERED) {
      Indispensable(CLUSTERED, 1);
      assert false;
    }
  }

  lemma ClusteredSupplies()
    ensures forall j: nat, i: nat, f, tc :: Supplies(CLUSTERED, j, i, f, tc) <==>
              (j == 1 || j == 3) && i == 4 && f == Inputs && tc == T
    ensures forall i: nat, f, tc :: Needs(CLUSTERED, i, f, tc) <==> i == 4 && f == Inputs && tc == T
    ensures |CLUSTERED.funcs| == 5 && Positions(CLUSTERED) == {0, 1, 2, 3, 4} && OnTheWay(false, Inputs)
  {
  }

  lemma ClusteredFacts(s: set<nat>)
    requires s == {0, 1, 2, 3, 4} || s == {0, 3, 4}
    ensures Valid(CLUSTERED, s, Automatics(CLUSTERED), false) && Valid(CLUSTERED, s, Automatics(CLUSTERED), true)
    ensures Greatest(CLUSTERED, s) == s && Positions(CLUSTERED) == {0, 1, 2, 3, 4}
  {
    ClusteredSupplies();
    hide Supplies, Needs;
    assert SourcedIn(CLUSTERED, s, 4, Inputs, T) by {
      assert Supplies(CLUSTERED, 3, 4, Inputs, T);
    }
    forall i | i in s ensures LocallyConsistent(CLUSTERED, s, i) {
    }
    ConsistentIsOwnGreatest(CLUSTERED, s);
  }

  lemma ClusteredBound()
    ensures Bound(CLUSTERED) == {0, 1, 2, 3, 4} == Positions(CLUSTERED)
  {
    var all := {0, 1, 2, 3, 4};
    ClusteredFacts(all);
    ClusteredSupplies();
    hide Supplies, Needs, Valid, Greatest;
    assert Supplies(CLUSTERED, 3, 4, Inputs, T);
    assert Binds(CLUSTERED, 4, 3);
    assert AllBound(CLUSTERED, all);
    forall x | x in all ensures InBoundPart(CLUSTERED, x) {
    }
  }

  lemma ClusteredNeeded()
    ensures 4 in Needed(CLUSTERED, {0, 1, 2, 3, 4}, false) && Superfluous(CLUSTERED, {0, 1, 2, 3, 4}, 1)
    ensures forall q: nat :: Superfluous(CLUSTERED, {0, 1, 2, 3, 4}, q) ==> q == 1 || q == 2
    ensures forall x :: Supplies(CLUSTERED, x, 4, Inputs, T) ==> x <= 3
    ensures Supplies(CLUSTERED, 3, 4, Inputs, T) && OnTheWay(false, Inputs)
    ensures |CLUSTERED.funcs| == 5 && forall i: nat :: i < 5 ==> !CLUSTERED.funcs[i].shun
    ensures forall x :: x in {0, 4} ==> MustStay(CLUSTERED, {0, 1, 2, 3, 4}, x)
    ensures forall x :: x in {0, 3, 4} ==> CLUSTERED.funcs[x].cluster == 0
  {
    ClusteredSupplies();
    ClusteredComplete();
    hide Supplies, Needed, Complete, OnTheWay;
    var all := {0, 1, 2, 3, 4};
    NeededWithin(CLUSTERED, all, false, {0, 3, 4});
    NeededWithin(CLUSTERED, all, true, {0, 3, 4});
    MustIsNeeded(CLUSTERED, all, false, 4);
    MustIsNeeded(CLUSTERED, all, false, 0);
    LastIsNeeded(CLUSTERED, all, false, 4, Inputs, T, 3);
  }

  lemma ClusteredComplete()
    ensures Complete(CLUSTERED, {0, 1, 2, 3, 4}, false, {0, 3, 4})
    ensures Complete(CLUSTERED, {0, 1, 2, 3, 4}, true, {0, 3, 4})
  {
    ClusteredSupplies();
    NobodyAutomatic();
    hide Supplies, Automatic;
    var all, rest := {0, 1, 2, 3, 4}, {0, 3, 4};
    assert Supplies(CLUSTERED, 3, 4, Inputs, T);
    forall i, x | i in rest && TakesFrom(CLUSTERED, all, false, i, x) ensures x in rest {
    }
    assert forall i, x :: !TakesFrom(CLUSTERED, all, true, i, x);
    hide TakesFrom;
    forall i | MustStay(CLUSTERED, all, i) ensures i in rest {
    }
  }

  lemma NobodyAutomatic()
    ensures forall i: nat :: i < |CLUSTERED.funcs| ==> !Automatic(CLUSTERED.funcs[i])
  {
    assert T in CLUSTERED.funcs[1].outputs && U in CLUSTERED.funcs[2].outputs && T in CLUSTERED.funcs[3].outputs;
  }

  lemma ClusteredMembers()
    ensures Harmless(CLUSTERED) && GoesWith(CLUSTERED, 1) == {1, 2}
    ensures CLUSTERED.funcs[1].cluster == CLUSTERED.funcs[2].cluster != 0
  {
    NobodyAutomatic();
    ClusteredFacts({0, 1, 2, 3, 4});
    hide Bound, Superfluous, Greatest, Automatic;
    assert ClusterOf(CLUSTERED, 1) == {1, 2};
  }

  // [invoke, injector -> T, injector -> T, final (T)], the second injector shunned
  const SHUNNING: Chain := Chain(
    [Needing(true, []), Injector([T], 0), Injector([T], 0).(shun := true), Needing(false, [T])], None, 0, {})

  // The one that is shunned is tried first, although it is closer, and the other remains.
  lemma ShunnedIsAvoided()
    ensures Valid(SHUNNING, Positions(SHUNNING), Automatics(SHUNNING), true) && Remainder(SHUNNING) == {0, 1, 3}
  {
    hide *;
    ShunningFacts({0, 1, 2, 3});
    ShunningFacts({0, 1, 3});
    ShunningBound();
    ShunningKinds();
    ShunnedGo(SHUNNING, 2);
    DesiredRemains(SHUNNING, 0);
    DesiredRemains(SHUNNING, 3);
    RemainderIsBound(SHUNNING);
    FinalStarves();
    StillValid(SHUNNING);
    assert Remainder(SHUNNING) == {0, 3} || Remainder(SHUNNING) == {0, 1, 3};
  }

  lemma ShunningSupplies()
    ensures forall j: nat, i: nat, f, tc :: Supplies(SHUNNING, j, i, f, tc) <==>
              (j == 1 || j == 2) && i == 3 && f == Inputs && tc == T
    ensures forall i: nat, f, tc :: Needs(SHUNNING, i, f, tc) <==> i == 3 && f == Inputs && tc == T
    ensures |SHUNNING.funcs| == 4 && Positions(SHUNNING) == {0, 1, 2, 3}
  {
  }

  lemma ShunningFacts(s: set<nat>)
    requires s == {0, 1, 2, 3} || s == {0, 1, 3}
    ensures Valid(SHUNNING, s, Automatics(SHUNNING), false) && Valid(SHUNNING, s, Automatics(SHUNNING), true)
    ensures Greatest(SHUNNING, s) == s && Positions(SHUNNING) == {0, 1, 2, 3} && |SHUNNING.funcs| == 4
  {
    ShunningSupplies();
    hide Supplies, Needs;
    assert SourcedIn(SHUNNING, s, 3, Inputs, T) by {
      assert Supplies(SHUNNING, 1, 3, Inputs, T);
    }
    forall i | i in s ensures LocallyConsistent(SHUNNING, s, i) {
    }
    ConsistentIsOwnGreatest(SHUNNING, s);
  }

  lemma ShunningBound()
    ensures Bound(SHUNNING) == {0, 1, 2, 3} && Bound(SHUNNING) - Shunned(SHUNNING) == {0, 1, 3}
  {
    var all := {0, 1, 2, 3};
    ShunningFacts(all);
    ShunningSupplies();
    hide Supplies, Needs, Valid, Greatest;
    assert Supplies(SHUNNING, 1, 3, Inputs, T) && Supplies(SHUNNING, 2, 3, Inputs, T);
    assert Binds(SHUNNING, 3, 1) && Binds(SHUNNING, 3, 2);
    assert AllBound(SHUNNING, all);
    forall x | x in all ensures InBoundPart(SHUNNING, x) {
    }
  }

  lemma ShunningKinds()
    ensures forall i: nat :: i < |SHUNNING.funcs| ==> SHUNNING.funcs[i].cluster == 0 && !SHUNNING.funcs[i].desired
    ensures forall i: nat :: i < |SHUNNING.funcs| ==> (SHUNNING.funcs[i].shun <==> i == 2)
    ensures !Automatic(SHUNNING.funcs[2]) && SHUNNING.funcs[0].required && SHUNNING.funcs[3].required
  {
    assert T in SHUNNING.funcs[2].outputs;
  }

  lemma FinalStarves()
    ensures !Valid(SHUNNING, {0, 3}, Automatics(SHUNNING), false)
  {
    ShunningSupplies();
    GreatestIsGreatest(SHUNNING, {0, 3});
    hide Supplies;
    var g := Greatest(SHUNNING, {0, 3});
    assert Needs(SHUNNING, 3, Inputs, T) && !SourcedIn(SHUNNING, g, 3, Inputs, T);
    assert !LocallyConsistent(SHUNNING, g, 3);
    assert SHUNNING.funcs[3].required;
  }

  lemma StillValid(c: Chain)
    requires Valid(c, Bound(c), Automatics(c), false)
    ensures Valid(c, Remainder(c), Automatics(c), false)
  {
    ProposalIs(c, Bound(c));
    hide Valid, Bound, Proposal;
    TriedIsValid(c, Bound(c), Proposal(c, Bound(c)));
  }

  // [invoke, desired injector, final], the injector shunned and alone in a cluster
  const LONE: Chain := Chain(
    [Needing(true, []), Injector([], 1).(desired := true, shun := true), Needing(false, [])], None, 0, {})

  // It is tried, as one that is not desired would not be, and goes.
  lemma ShunnedGoesThoughDesired()
    ensures Valid(LONE, Positions(LONE), Automatics(LONE), true) && Remainder(LONE) == {0, 2}
  {
    hide *;
    LoneFacts({0, 1, 2});
    LoneFacts({0, 2});
    LoneBound();
    LoneProposal();
    LoneTried();
    RemainderIs(LONE);
    OneTried(LONE, {0, 1, 2}, 1);
  }

  lemma LoneFacts(s: set<nat>)
    requires s == {0, 1, 2} || s == {0, 2}
    ensures Valid(LONE, s, Automatics(LONE), false) && Valid(LONE, s, Automatics(LONE), true)
    ensures Greatest(LONE, s) == s && Positions(LONE) == {0, 1, 2} && |LONE.funcs| == 3
  {
    assert forall i: nat, f, tc :: !Needs(LONE, i, f, tc);
    hide Needs;
    forall i | i in s ensures LocallyConsistent(LONE, s, i) {
    }
    ConsistentIsOwnGreatest(LONE, s);
  }

  lemma LoneBound()
    ensures Bound(LONE) == {0, 1, 2}
  {
    LoneFacts({0, 1, 2});
    hide Greatest, Valid;
    BoundHas(LONE, 0);
    BoundHas(LONE, 1);
    BoundHas(LONE, 2);
    BoundInRange(LONE);
  }

  lemma LoneProposal()
    ensures Proposal(LONE, {0, 1, 2}) == [1]
  {
    LoneFacts({0, 1, 2});
    hide Greatest, Valid, Needed;
    MustIsNeeded(LONE, {0, 1, 2}, false, 0);
    MustIsNeeded(LONE, {0, 1, 2}, false, 2);
    assert Shunned(LONE) == {1};
    assert Positions(LONE) - (Needed(LONE, {0, 1, 2}, false) + Needed(LONE, {0, 1, 2}, true)) - Shunned(LONE) == {};
    assert Ascending(3, {1}) == [1] by {
      assert Ascending(1, {1}) == [] && Ascending(2, {1}) == [1];
    }
    assert Ascending(3, {}) == [] by {
      assert Ascending(1, {}) == [] && Ascending(2, {}) == [];
    }
  }

  lemma LoneTried()
    ensures |LONE.funcs| == 3 && Tried(LONE, {0, 1, 2}, 1) == {0, 2}
  {
    LoneFacts({0, 1, 2});
    LoneFacts({0, 2});
    hide Greatest, Valid;
    assert ClusterOf(LONE, 1) == {1};
    assert {0, 1, 2} - {1} == {0, 2};
  }

  lemma OneTried(c: Chain, r: set<nat>, x: nat)
    requires x < |c.funcs|
    ensures AllTried(c, r, [x]) == Tried(c, r, x)
  {
    hide Tried;
    assert [x][..0] == [];
  }
}
