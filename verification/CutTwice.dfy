/**
 replace.go:197-218: the providers to be replaced are cut out first, then those that replace them, and
 these are put in front of whatever came behind the former.
 */
module CutTwice {
  import opened Basics
  import opened Splice

  lemma {:induction false} BlockEndIs(items: seq<Item>, order: seq<nat>, from: nat, mark: Mark, e: nat)
    requires from < e <= |order| && forall k :: 0 <= k < |order| ==> order[k] < |items|
    requires (forall k :: from < k < e ==> Has(items[order[k]], mark)) && (e < |order| ==> !Has(items[order[e]], mark))
    ensures BlockEnd(items, order, from, mark) == e
    decreases |order| - from
  {
    if from + 1 < e {
      BlockEndIs(items, order, from + 1, mark, e);
    }
  }

  // Where a position after the first cut has been before it, and the other way round.
  function Back(k: nat, t: nat, u: nat): nat
    requires t <= u
  {
    if k < t then k else k + (u - t)
  }

  function Shifted(k: nat, t: nat, u: nat): nat
    requires k < t <= u || t <= u <= k
  {
    if k < t then k else k - (u - t)
  }

  ghost predicate FirstCut(order: seq<nat>, t: nat, u: nat, order1: seq<nat>)
    requires t < u <= |order|
  {
    && |order1| == |order| - (u - t)
    && (forall k :: 0 <= k < |order1| ==> order1[k] == order[Back(k, t, u)])
  }

  lemma FirstCutIs(order: seq<nat>, t: nat, u: nat)
    requires t < u <= |order|
    ensures FirstCut(order, t, u, order[..t] + order[u..])
  {
  }

  lemma BoundsAfterCut(order: seq<nat>, n: nat, t: nat, u: nat, order1: seq<nat>)
    requires t < u <= |order| && FirstCut(order, t, u, order1) && forall k :: 0 <= k < |order| ==> order[k] < n
    ensures forall k :: 0 <= k < |order1| ==> order1[k] < n
  {
  }

  // The second block is found where it was, unless the first cut has joined it with another one.
  lemma SecondBlock(items: seq<Item>, order: seq<nat>, m: nat, e: nat, t: nat, u: nat, name: string, order1: seq<nat>)
    requires Positions(items, order) && m < e <= |order| && t < u <= |order| && (e <= t || u <= m)
    requires FirstCut(order, t, u, order1)
    requires e == BlockEnd(items, order, m, Tagged(Replace, name)) && !Sandwiched(items, order, e, t, u, name)
    ensures forall k :: 0 <= k < |order1| ==> order1[k] < |items|
    ensures BlockEnd(items, order1, Shifted(m, t, u), Tagged(Replace, name)) == Shifted(m, t, u) + (e - m)
    ensures order1[Shifted(m, t, u)] == order[m]
  {
    hide BlockEnd, Positions;
    PositionsBounds(items, order);
    BoundsAfterCut(order, |items|, t, u, order1);
    var mark := Tagged(Replace, name);
    BlockFacts(items, order, m, mark);
    var m1 := Shifted(m, t, u);
    var e1 := m1 + (e - m);
    forall k | m1 < k < e1 ensures Has(items[order1[k]], mark) {
      assert order1[k] == order[Back(k, t, u)] && m < Back(k, t, u) < e;
    }
    if e1 < |order1| {
      assert order1[e1] == order[Back(e1, t, u)];
    }
    BlockEndIs(items, order1, m1, mark, e1);
  }

  lemma PositionsBounds(items: seq<Item>, order: seq<nat>)
    requires Positions(items, order)
    ensures forall k :: 0 <= k < |order| ==> order[k] < |items|
  {
  }

  // In that case it reaches up to the end of the other one.
  lemma JoinedBlock(items: seq<Item>, order: seq<nat>, m: nat, e: nat, t: nat, u: nat, name: string, order1: seq<nat>)
    requires Positions(items, order) && m < e <= t < u < |order| && FirstCut(order, t, u, order1)
    requires e == BlockEnd(items, order, m, Tagged(Replace, name)) && Sandwiched(items, order, e, t, u, name)
    ensures forall k :: 0 <= k < |order1| ==> order1[k] < |items|
    ensures BlockEnd(items, order1, m, Tagged(Replace, name)) ==
              BlockEnd(items, order, u, Tagged(Replace, name)) - (u - t)
    ensures order1[m] == order[m] && order1[e] == order[u] && order1[e - 1] == order[e - 1]
  {
    hide BlockEnd, Positions;
    PositionsBounds(items, order);
    BoundsAfterCut(order, |items|, t, u, order1);
    var mark := Tagged(Replace, name);
    var e' := BlockEnd(items, order, u, mark);
    BlockFacts(items, order, m, mark);
    BlockFacts(items, order, u, mark);
    var e1 := e' - (u - t);
    forall k | m < k < e1 ensures Has(items[order1[k]], mark) {
      assert order1[k] == order[Back(k, t, u)];
    }
    if e1 < |order1| {
      assert order1[e1] == order[Back(e1, t, u)] == order[e'];
    }
    BlockEndIs(items, order1, m, mark, e1);
  }

  // Where the second block goes, counted in what is left after both cuts: the block has been found at
  // 'm1' after the first cut and goes to 'at' after the second.
  ghost predicate CutBoth(order: seq<nat>, m: nat, e: nat, t: nat, u: nat, order1: seq<nat>, m1: nat, at: nat)
    requires m < e <= |order| && t < u <= |order| && (e <= t || u <= m)
  {
    && m1 + (e - m) <= |order1| && order1[m1..m1 + (e - m)] == order[m..e]
    && var order2 := order1[..m1] + order1[m1 + (e - m)..];
       && at <= |order2| && order2[..at] + order[m..e] + order2[at..] == Replaced(order, m, e, t, u)
       && order2[at..] == if e <= t then order[u..] else order[u..m] + order[e..]
  }

  lemma CutBothIs(order: seq<nat>, m: nat, e: nat, t: nat, u: nat, order1: seq<nat>, m1: nat, at: nat)
    requires m < e <= |order| && t < u <= |order| && (e <= t || u <= m) && CutBoth(order, m, e, t, u, order1, m1, at)
    ensures m1 + (e - m) <= |order1| && order1[m1..m1 + (e - m)] == order[m..e]
    ensures
      var order2 := order1[..m1] + order1[m1 + (e - m)..];
      at <= |order2| && order2[..at] + order[m..e] + order2[at..] == Replaced(order, m, e, t, u)
  {
  }

  lemma ShiftedIs(m: nat, t: nat, u: nat)
    requires m < t <= u || t <= u <= m
    ensures Shifted(m, t, u) == if m < t then m else m - (u - t)
  {
  }

  lemma CutsLater(order: seq<nat>, m: nat, e: nat, t: nat, u: nat)
    requires m < e <= t < u <= |order|
    ensures CutBoth(order, m, e, t, u, order[..t] + order[u..], m, m + (t - e))
  {
  }

  lemma CutsEarlier(order: seq<nat>, m: nat, e: nat, t: nat, u: nat)
    requires t < u <= m < e <= |order|
    ensures CutBoth(order, m, e, t, u, order[..t] + order[u..], m - (u - t), t)
  {
    hide *;
    var a, c, block, d, order1 := Stretches(order, m, e, t, u);
    EarlierReplaced(a, c, block, d, order1, m - (u - t), m - (u - t) + (e - m), t);
    CutBothMeans(order, m, e, t, u, order1, m - (u - t), t);
    ReplacedMeans(order, m, e, t, u);
  }

  lemma Stretches(order: seq<nat>, m: nat, e: nat, t: nat, u: nat)
    returns (a: seq<nat>, c: seq<nat>, block: seq<nat>, d: seq<nat>, order1: seq<nat>)
    requires t < u <= m < e <= |order|
    ensures a == order[..t] && c == order[u..m] && block == order[m..e] && d == order[e..]
    ensures |a| == t && |c| == m - u && |block| == e - m && |d| == |order| - e
    ensures order1 == order[..t] + order[u..] && order1 == a + (c + block + d)
  {
    a, c, block, d := order[..t], order[u..m], order[m..e], order[e..];
    order1 := order[..t] + order[u..];
    assert order[u..] == c + block + d;
  }

  lemma CutBothMeans(order: seq<nat>, m: nat, e: nat, t: nat, u: nat, order1: seq<nat>, m1: nat, at: nat)
    requires t < u <= m < e <= |order| && m1 + (e - m) <= |order1|
    ensures
      var order2 := order1[..m1] + order1[m1 + (e - m)..];
      CutBoth(order, m, e, t, u, order1, m1, at) <==>
        && order1[m1..m1 + (e - m)] == order[m..e] && at <= |order2|
        && order2[..at] + order[m..e] + order2[at..] == Replaced(order, m, e, t, u)
        && order2[at..] == order[u..m] + order[e..]
  {
  }

  lemma ReplacedMeans(order: seq<nat>, m: nat, e: nat, t: nat, u: nat)
    requires t < u <= m < e <= |order|
    ensures Replaced(order, m, e, t, u) == order[..t] + order[m..e] + order[u..m] + order[e..]
  {
  }

  // The first stretch of a sequence, a stretch in the middle, and the last one.
  lemma Pieces(x: seq<nat>, y: seq<nat>, z: seq<nat>)
    ensures (x + y + z)[..|x|] == x && (x + y + z)[|x|..|x| + |y|] == y && (x + y + z)[|x| + |y|..] == z
    ensures (x + y + z)[..|x| + |y|] == x + y && (x + y + z)[|x|..] == y + z
  {
  }

  // ... and behind the providers to be replaced.
  lemma EarlierReplaced(a: seq<nat>, c: seq<nat>, block: seq<nat>, d: seq<nat>, order1: seq<nat>, m1: nat, e1: nat,
                        at: nat)
    requires order1 == a + (c + block + d) && m1 == |a| + |c| && e1 == m1 + |block| && at == |a|
    ensures e1 <= |order1| && order1[m1..e1] == block
    ensures
      var order2 := order1[..m1] + order1[e1..];
      at <= |order2| && order2[..at] + block + order2[at..] == a + block + c + d && order2[at..] == c + d
  {
  }

  // Cutting a block and inserting it again.
  lemma CutAndInsert(order: seq<nat>, m: nat, e: nat, at: nat)
    requires m < e <= |order| && at <= |order| && (at <= m || e <= at)
    ensures
      var order1, at1 := order[..m] + order[e..], if at <= m then at else at - (e - m);
      && at1 <= |order1| && order1[..at1] + order[m..e] + order1[at1..] == Moved(order, m, e, at)
      && (at1 == |order1| <==> at == |order| || (at == m && e == |order|))
      && (at < |order| && at != m ==> at1 < |order1| && order1[at1] == order[at])
      && (0 < at && at != e ==> 0 < at1 && order1[at1 - 1] == order[at - 1])
  {
    var order1 := order[..m] + order[e..];
    if at <= m {
      assert order1 == order[..at] + order[at..m] + order[e..];
      Pieces(order[..at], order[at..m], order[e..]);
    } else {
      assert order1 == order[..m] + order[e..at] + order[at..];
      Pieces(order[..m], order[e..at], order[at..]);
    }
  }

  lemma DistinctAgain(order: seq<nat>, m: nat, e: nat)
    requires Distinct(order) && m <= e <= |order|
    ensures Distinct(order[..m] + order[e..] + order[m..e])
  {
  }

  // What the second block is found to be.
  lemma AfterFirstCut(items: seq<Item>, order: seq<nat>, m: nat, e: nat, t: nat, u: nat, name: string)
    requires Positions(items, order) && m < e <= |order| && t < u <= |order| && (e <= t || u <= m)
    requires e == BlockEnd(items, order, m, Tagged(Replace, name))
    ensures
      var order1, m1 := order[..t] + order[u..], Shifted(m, t, u);
      && |order1| == |order| - (u - t) && m1 < |order1| && order1[m1] == order[m]
      && (forall k :: 0 <= k < |order1| ==> order1[k] < |items| && order1[k] in order)
      && (forall k :: t <= k < u ==> order[k] !in order1)
      && var e1 := BlockEnd(items, order1, m1, Tagged(Replace, name));
         if !Sandwiched(items, order, e, t, u, name) then e1 == m1 + (e - m)
         else
           var e' := BlockEnd(items, order, u, Tagged(Replace, name));
           && m1 == m && e1 == e' - (u - t) && e < e1 && order1[e] == order[u] && order1[e - 1] == order[e - 1]
  {
    hide BlockEnd, Positions, Has;
    var order1 := order[..t] + order[u..];
    FirstCutIs(order, t, u);
    PositionsBounds(items, order);
    OthersStay(items, order, t, u, order1);
    if Sandwiched(items, order, e, t, u, name) {
      JoinedBlock(items, order, m, e, t, u, name, order1);
    } else {
      SecondBlock(items, order, m, e, t, u, name, order1);
    }
  }

  lemma OthersStay(items: seq<Item>, order: seq<nat>, t: nat, u: nat, order1: seq<nat>)
    requires Positions(items, order) && t < u <= |order| && order1 == order[..t] + order[u..]
    ensures forall k :: 0 <= k < |order1| ==> order1[k] in order && order1[k] < |items|
    ensures forall k :: t <= k < u ==> order[k] !in order1
    ensures Distinct(order1)
  {
  }

  // Where the second block goes.
  lemma PlaceAfterCuts(items: seq<Item>, order: seq<nat>, m: nat, e: nat, t: nat, u: nat) returns (at: nat)
    requires Positions(items, order) && m < e <= |order| && t < u <= |order| && (e <= t || u <= m)
    ensures
      var order1, m1 := order[..t] + order[u..], Shifted(m, t, u);
      var e1 := m1 + (e - m);
      && e1 <= |order1| && CutBoth(order, m, e, t, u, order1, m1, at)
      && var order2 := order1[..m1] + order1[e1..];
         && (e1 == |order1| <==> e == |order| || (e == t && u == |order|))
         && (e1 < |order1| ==> order1[e1] == order[if e == t then u else e])
         && (if u == m then e1 < |order1| ==> at < |order2| && order2[at] == order1[e1]
             else u < |order| ==> at < |order2| && order2[at] == order[u])
         && (at == |order2| <==> if u == m then e1 == |order1| else u == |order|)
  {
    var order1 := order[..t] + order[u..];
    var m1 := Shifted(m, t, u);
    var e1 := m1 + (e - m);
    FirstCutIs(order, t, u);
    if e <= t {
      CutsLater(order, m, e, t, u);
      at := m + (t - e);
    } else {
      CutsEarlier(order, m, e, t, u);
      at := t;
    }
    hide FirstCut, Positions;
    FirstCutAt(order, t, u, order1, e1);
    var order2 := order1[..m1] + order1[e1..];
    assert |order2[at..]| == |order2| - at;
    assert at < |order2| ==> order2[at] == order2[at..][0];
  }

  lemma FirstCutAt(order: seq<nat>, t: nat, u: nat, order1: seq<nat>, k: nat)
    requires t < u <= |order| && FirstCut(order, t, u, order1)
    ensures k < |order1| ==> order1[k] == order[Back(k, t, u)]
    ensures |order1| == |order| - (u - t)
  {
  }

  lemma SandwichedIs(items: seq<Item>, order: seq<nat>, e: nat, t: nat, u: nat, name: string)
    requires u <= |order| && Positions(items, order) && Sandwiched(items, order, e, t, u, name)
    ensures e == t && u < |order|
  {
  }

  lemma TornRest(order: seq<nat>, m: nat, t: nat, u: nat, e': nat)
    requires m <= t <= u <= e' <= |order|
    ensures
      var order1 := order[..t] + order[u..];
      order1[..m] + order1[e' - (u - t)..] == order[..m] + order[e'..]
  {
  }

  lemma SandwichedMeans(items: seq<Item>, order: seq<nat>, e: nat, t: nat, u: nat, name: string)
    requires u <= |order| && Positions(items, order)
    ensures Sandwiched(items, order, e, t, u, name) <==>
              e == t && u < |order| && order[u] < |items| && items[order[u]].replacing == name
  {
  }
}
