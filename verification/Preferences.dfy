/**
 What the tables of the solver come to, in terms of the chain.
 */
module Preferences {
  import opened Basics
  import opened FlowGraph
  import opened LinkTables
  import opened Elimination

  // ------------------------------------------------------------------ Who is used

  lemma UsedByBinds(c: Chain, d: seq<Links>, x: nat, j: nat)
    requires Linked(c, d, Positions(c)) && x < |c.funcs|
    ensures x < |d| && (j in d[x].usedBy <==> Binds(c, j, x))
  {
    var es := LiveEdges(c, Positions(c));
    assert j in d[x].usedBy <==> Uses(es, j, x) || ObligedBy(c, es, x, j);
    hide Linked;
    if Uses(es, j, x) {
      var e :| e in es && e.dep == x && e.user == j;
      assert Supplies(c, x, j, e.flow, e.tc);
    }
    if ObligedBy(c, es, x, j) {
      var e :| e in es && e.dep == j && e.user == x && j < |c.funcs| && MustConsumeFlow(c.funcs[j], Opposite(e.flow));
      assert Supplies(c, j, x, e.flow, e.tc);
    }
    if f, tc :| Supplies(c, x, j, f, tc) {
      assert Edge(x, j, f, tc) in es;
    }
    if f, tc :| Supplies(c, j, x, f, tc) && j < |c.funcs| && MustConsumeFlow(c.funcs[j], Opposite(f)) {
      assert Edge(j, x, f, tc) in es;
    }
  }

  lemma SustainingIsBound(c: Chain, d: seq<Links>, s: set<nat>)
    requires Linked(c, d, Positions(c)) && s <= Positions(c)
    ensures SelfSustaining(c, d, Automatics(c), s) <==> AllBound(c, s)
  {
    LinkedLength(c, d, Positions(c));
    forall x | x in s ensures SomeIn(d[x].usedBy, s) <==> exists j :: j in s && Binds(c, j, x) {
      forall j ensures j in d[x].usedBy <==> Binds(c, j, x) {
        UsedByBinds(c, d, x, j);
      }
    }
    hide Linked, Binds;
  }

  // What the first cut leaves.
  lemma LargestIsBound(c: Chain, d: seq<Links>, s: set<nat>)
    requires Linked(c, d, Positions(c)) && s <= Greatest(c, Positions(c))
    requires SelfSustaining(c, d, Automatics(c), s)
    requires forall t :: SelfSustaining(c, d, Automatics(c), t) && t <= Greatest(c, Positions(c)) ==> t <= s
    ensures s == Bound(c)
  {
    hide Linked, SelfSustaining, Greatest, AllBound;
    GreatestInRange(c);
    SustainingIsBound(c, d, s);
    forall x | x in s ensures x in Bound(c) {
      assert InBoundPart(c, x);
    }
    forall x | x in Bound(c) ensures x in s {
      var t :| AllBound(c, t) && t <= Greatest(c, Positions(c)) && x in t;
      SustainingIsBound(c, d, t);
    }
  }

  lemma GreatestInRange(c: Chain)
    ensures Greatest(c, Positions(c)) <= Positions(c)
  {
  }

  // ------------------------------------------------------------------ Who is preferred

  function Way(up: bool): Direction {
    if up then UP else DOWN
  }

  // The one supplier that is picked for a type.
  lemma PickIsLast(c: Chain, d: seq<Links>, blocked: set<nat>, s: set<nat>, i: nat, k: Key, x: nat)
    requires Linked(c, d, Positions(c)) && i < |d| == |c.funcs| && s == Positions(c) - blocked
    requires k in d[i].usesDetail && Usable(d[i].usesDetail[k], blocked) != []
    ensures Pick(Usable(d[i].usesDetail[k], blocked), k.flow != Received) == x <==>
              && x in s && Supplies(c, x, i, k.flow, k.tc)
              && forall j :: j in s && Supplies(c, j, i, k.flow, k.tc) ==> j <= x
  {
    var list := d[i].usesDetail[k];
    var u := Usable(list, blocked);
    var p := Pick(u, k.flow != Received);
    assert Leads(list, k.flow);
    forall j: nat ensures j in u <==> j in s && Supplies(c, j, i, k.flow, k.tc) {
      ListedIs(c, d, i, k, j);
    }
    hide Linked, Usable, Leads;
    LeadsAre(list, k.flow);
    assert p in u;
    forall j | j in s && Supplies(c, j, i, k.flow, k.tc) ensures j <= p {
      assert j in u;
    }
  }

  lemma ListedIs(c: Chain, d: seq<Links>, i: nat, k: Key, j: nat)
    requires Linked(c, d, Positions(c)) && i < |d| == |c.funcs|
    ensures k in d[i].usesDetail && j in d[i].usesDetail[k] <==>
              j in Positions(c) && Supplies(c, j, i, k.flow, k.tc)
  {
    assert At(d[i].usesDetail, k, j) <==> Edge(j, i, k.flow, k.tc) in LiveEdges(c, Positions(c));
  }

  lemma PicksAreTaken(c: Chain, d: seq<Links>, blocked: set<nat>, s: set<nat>, up: bool, i: nat, x: nat)
    requires Linked(c, d, Positions(c)) && i < |d| == |c.funcs| && s == Positions(c) - blocked
    ensures Picks(d, blocked, Way(up), i, x) <==> TakesFrom(c, s, up, i, x)
  {
    hide Linked, Usable, Pick;
    if Picks(d, blocked, Way(up), i, x) {
      var k :| k in d[i].usesDetail && k.flow in Way(up).flows
               && Usable(d[i].usesDetail[k], blocked) != []
                  && Pick(Usable(d[i].usesDetail[k], blocked), Way(up).useLast) == x;
      PickIsLast(c, d, blocked, s, i, k, x);
      assert OnTheWay(up, k.flow);
    }
    if TakesFrom(c, s, up, i, x) {
      var f, tc :| OnTheWay(up, f) && x in s && Supplies(c, x, i, f, tc)
                   && forall j :: j in s && Supplies(c, j, i, f, tc) ==> j <= x;
      var k := Key(f, tc);
      ListedIs(c, d, i, k, x);
      UsableHas(d[i].usesDetail[k], blocked, x);
      PickIsLast(c, d, blocked, s, i, k, x);
    }
  }

  lemma UsableHas(list: seq<nat>, blocked: set<nat>, x: nat)
    requires x in list && x !in blocked
    ensures Usable(list, blocked) != []
  {
  }

  // What is kept in one direction.
  lemma LeastIsNeeded(c: Chain, d: seq<Links>, blocked: set<nat>, s: set<nat>, up: bool, roots: set<nat>, k: set<nat>)
    requires Linked(c, d, Positions(c)) && s == Positions(c) - blocked && k <= Positions(c)
    requires roots == set i | i in Positions(c) && MustStay(c, s, i)
    requires LeastClosed(d, blocked, Way(up), roots, k)
    ensures k == Needed(c, s, up)
  {
    LinkedLength(c, d, Positions(c));
    forall i: nat, x | i < |c.funcs| ensures Picks(d, blocked, Way(up), i, x) <==> TakesFrom(c, s, up, i, x) {
      PicksAreTaken(c, d, blocked, s, up, i, x);
    }
    forall i: nat, x: nat | TakesFrom(c, s, up, i, x) ensures i < |c.funcs| {
    }
    hide Linked, Picks, TakesFrom, MustStay;
    InRange(c, s);
    assert Complete(c, s, up, k);
    forall x, t | x in k && Complete(c, s, up, t) ensures x in t {
      assert ClosedUnderPicks(d, blocked, Way(up), t);
      assert roots <= t;
    }
  }

  lemma InRange(c: Chain, s: set<nat>)
    ensures forall i :: MustStay(c, s, i) ==> i in Positions(c)
  {
  }

  // ------------------------------------------------------------------ Clusters

  lemma ListedClusters(c: Chain, members: map<nat, seq<nat>>, excluded: set<nat>, x: nat)
    requires ClustersFormed(c, members, excluded) && excluded == Positions(c) - Greatest(c, Positions(c))
    requires x < |c.funcs| && x !in excluded && c.funcs[x].cluster != 0
    ensures GoesWith(c, x) == if x in members then Members(members[x]) else {}
    ensures x in members ==>
              (GoesWith(c, x) == {x} <==> |members[x]| == 1)
              && (|members[x]| == 1 ==> members[x][0] == x)
  {
    hide Greatest;
    GreatestInRange(c);
    var leader: nat :| Lists(members, leader, x);
    forall m | m in ClusterOf(c, x) ensures Lists(members, leader, m) {
      var l: nat :| Lists(members, l, m);
    }
    assert leader in ClusterOf(c, x) by {
      assert Lists(members, leader, leader);
    }
    if x in members {
      assert Lists(members, x, x);
      assert leader == x;
      forall m | m in members[x] ensures m in ClusterOf(c, x) {
        assert Lists(members, x, m);
      }
      assert Members(members[x]) == ClusterOf(c, x);
      OneMember(members[x], x);
    } else if forall i :: i in ClusterOf(c, x) ==> x <= i {
      assert false;
    }
  }

  lemma OneMember(list: seq<nat>, x: nat)
    requires Distinct(list) && x in list
    ensures Members(list) == {x} <==> |list| == 1
    ensures |list| == 1 ==> list[0] == x
  {
    if |list| != 1 {
      var k :| 0 <= k < |list| && list[k] == x;
      var l := if k == 0 then 1 else 0;
      assert list[l] != x && list[l] in Members(list);
    }
  }
}
