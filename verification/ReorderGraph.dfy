/**
 reorder.go, the first half of reorder(): from the flows of the providers to the graph of strong and
 weak "comes after" relations, and what the order means in terms of types.
 */
module ReorderGraph {
  import opened Basics
  import opened Topology
  import opened ReorderLaws
  import opened TopoSort

  // Going down, a provider takes its inputs and sends its outputs; going up, it takes (must be
  // received) what it returns, and what it receives counts as sent.
  function Taken(p: Item, down: bool): seq<TypeCode> {
    if down then p.inputs else p.returned
  }

  function Sent(p: Item, down: bool): seq<TypeCode> {
    if down then p.outputs else p.received
  }

  // The types bestMatch can find: those somebody sends down, or those somebody returns.
  ghost predicate Available(items: seq<Item>, init: seq<TypeCode>, down: bool, t: TypeCode) {
    && t != NO_TYPE
    && if down then t in init || exists i: nat :: i < |items| && t in items[i].outputs
       else exists i: nat :: i < |items| && t in items[i].returned
  }

  ghost predicate AvailableSet(items: seq<Item>, init: seq<TypeCode>, down: bool, s: set<TypeCode>) {
    forall t :: t in s <==> Available(items, init, down, t)
  }

  ghost predicate TakesAvailable(taken: seq<TypeCode>, avail: set<TypeCode>, t: TypeCode) {
    t in taken && t in avail && t != NO_TYPE
  }

  predicate Optional(p: Item, down: bool, t: TypeCode) {
    !down && t in p.consumptionOptional
  }

  // A provider must ('strong'), or should, come after the node of one of the types it takes.
  ghost predicate TypeEdge(p: Item, down: bool, taken: seq<TypeCode>, avail: set<TypeCode>,
                           nums: map<TypeCode, nat>, strong: bool, j: nat)
  {
    exists t :: TakesAvailable(taken, avail, t) && t in nums && nums[t] == j && strong == !Optional(p, down, t)
  }

  // 'j' sends a type without taking it.
  ghost predicate PureSupplier(items: seq<Item>, down: bool, t: TypeCode, j: nat) {
    j < |items| && t != NO_TYPE && t in Sent(items[j], down) && t !in Taken(items[j], down)
  }

  ghost predicate WeakEdge(items: seq<Item>, down: bool, taken: seq<TypeCode>, avail: set<TypeCode>, j: nat) {
    exists t :: TakesAvailable(taken, avail, t) && PureSupplier(items, down, t, j)
  }

  ghost predicate PreviousFixed(items: seq<Item>, i: nat, j: nat) {
    && j < i <= |items| && !items[j].reorder
    && forall k: nat :: j < k < i ==> items[k].reorder
  }

  ghost predicate NoneFixed(items: seq<Item>, n: nat) {
    n <= |items| && forall k: nat :: k < n ==> items[k].reorder
  }

  ghost predicate NoneStatic(items: seq<Item>, n: nat) {
    n <= |items| && forall k: nat :: k < n ==> !(items[k].group == StaticGroup && !items[k].reorder)
  }

  ghost predicate LastStatic(items: seq<Item>, n: nat, j: nat) {
    && j < n <= |items| && items[j].group == StaticGroup && !items[j].reorder
    && forall k: nat :: j < k < n ==> !(items[k].group == StaticGroup && !items[k].reorder)
  }

  datatype Plan = Plan(
    strong: seq<(nat, nat)>,
    weak: seq<(nat, nat)>,
    downTypes: map<TypeCode, nat>,
    upTypes: map<TypeCode, nat>,
    counter: nat)

  function Numbers(plan: Plan, down: bool): map<TypeCode, nat> {
    if down then plan.downTypes else plan.upTypes
  }

  ghost predicate Injective(m: map<TypeCode, nat>, lo: nat, hi: nat) {
    && (forall t :: t in m ==> lo < m[t] < hi)
    && (forall t, t' :: t in m && t' in m && m[t] == m[t'] ==> t == t')
  }

  // Every type has a node of its own above the providers.
  ghost predicate NumbersOk(n: nat, plan: Plan) {
    && n < plan.counter
    && Injective(plan.downTypes, n, plan.counter) && Injective(plan.upTypes, n, plan.counter)
    && (forall t, t' :: t in plan.downTypes && t' in plan.upTypes ==> plan.downTypes[t] != plan.upTypes[t'])
  }

  ghost predicate Extends(m: map<TypeCode, nat>, m': map<TypeCode, nat>) {
    forall t :: t in m ==> t in m' && m'[t] == m[t]
  }

  method CollectAvailable(items: seq<Item>, init: seq<TypeCode>, down: bool) returns (avail: set<TypeCode>)
    ensures AvailableSet(items, init, down, avail)
  {
    avail := {};
    if down {
      avail := set t | t in init && t != NO_TYPE;
    }
    for i := 0 to |items|
      invariant forall t :: t in avail <==>
          t != NO_TYPE && ((down && t in init)
                           || exists k: nat :: k < i && t in if down then items[k].outputs else items[k].returned)
    {
      var sent := if down then items[i].outputs else items[i].returned;
      avail := avail + set t | t in sent && t != NO_TYPE;
    }
  }

  // The number of the node of type 't', allocated on first use.
  method NodeFor(plan: Plan, down: bool, t: TypeCode, ghost n: nat) returns (p: Plan, num: nat)
    requires NumbersOk(n, plan)
    ensures NumbersOk(n, p) && p.strong == plan.strong && p.weak == plan.weak
    ensures plan.counter <= p.counter
    ensures Numbers(p, !down) == Numbers(plan, !down)
    ensures t in Numbers(p, down) && num == Numbers(p, down)[t]
    ensures Extends(Numbers(plan, down), Numbers(p, down)) && Numbers(p, down).Keys == Numbers(plan, down).Keys + {t}
  {
    p := plan;
    if down {
      if t !in p.downTypes {
        p := p.(downTypes := p.downTypes[t := p.counter], counter := p.counter + 1);
      }
      num := p.downTypes[t];
      assert Numbers(p, true) == p.downTypes && Numbers(p, false) == plan.upTypes;
    } else {
      if t !in p.upTypes {
        p := p.(upTypes := p.upTypes[t := p.counter], counter := p.counter + 1);
      }
      num := p.upTypes[t];
      assert Numbers(p, false) == p.upTypes && Numbers(p, true) == plan.downTypes;
    }
  }

  predicate Has(m: map<TypeCode, seq<nat>>, t: TypeCode, j: nat) {
    t in m && j in m[t]
  }

  function AddTo(m: map<TypeCode, seq<nat>>, t: TypeCode, j: nat): (r: map<TypeCode, seq<nat>>)
    ensures forall t', j': nat :: Has(r, t', j') <==> Has(m, t', j') || (t' == t && j' == j)
  {
    m[t := (if t in m then m[t] else []) + [j]]
  }

  ghost predicate Supply(items: seq<Item>, down: bool, m: map<TypeCode, seq<nat>>, n: nat) {
    forall t, j: nat :: Has(m, t, j) <==> j < n && PureSupplier(items, down, t, j)
  }

  // provideByNotRequire and receivedNotReturned.
  method CollectSuppliers(items: seq<Item>, down: bool) returns (m: map<TypeCode, seq<nat>>)
    ensures Supply(items, down, m, |items|)
  {
    m := map[];
    for i := 0 to |items|
      invariant Supply(items, down, m, i)
    {
      var sent := Sent(items[i], down);
      ghost var m0 := m;
      for k := 0 to |sent|
        invariant forall t, j: nat :: Has(m, t, j) <==>
            Has(m0, t, j) || (j == i && t in sent[..k] && t != NO_TYPE && t !in Taken(items[i], down))
      {
        var t := sent[k];
        assert sent[..k + 1] == sent[..k] + [t];
        if t != NO_TYPE && t !in Taken(items[i], down) {
          m := AddTo(m, t, i);
        }
      }
      assert sent[..|sent|] == sent;
      forall t, j: nat ensures Has(m, t, j) <==> j < i + 1 && PureSupplier(items, down, t, j) {
        assert Has(m0, t, j) <==> j < i && PureSupplier(items, down, t, j);
      }
    }
  }

  // Pairs of provider 'i' have been added at the end.
  ghost predicate Appended(before: seq<(nat, nat)>, after: seq<(nat, nat)>, i: nat) {
    before <= after && forall k :: |before| <= k < |after| ==> after[k].0 == i
  }

  // The pairs come in the order of the providers.
  ghost predicate InTurn(pairs: seq<(nat, nat)>, n: nat) {
    && (forall k :: 0 <= k < |pairs| ==> pairs[k].0 < n)
    && (forall k, l :: 0 <= k < l < |pairs| ==> pairs[k].0 <= pairs[l].0)
  }

  lemma AppendedTwice(a: seq<(nat, nat)>, b: seq<(nat, nat)>, c: seq<(nat, nat)>, i: nat)
    requires Appended(a, b, i) && Appended(b, c, i)
    ensures Appended(a, c, i)
  {
  }

  lemma InTurnAppended(a: seq<(nat, nat)>, b: seq<(nat, nat)>, i: nat)
    requires InTurn(a, i) && Appended(a, b, i)
    ensures InTurn(b, i + 1)
  {
  }

  // What planning the types of provider 'i' adds: to the numbers, to the strong and to the weak pairs.
  ghost predicate Numbered(n: nat, down: bool, taken: seq<TypeCode>, avail: set<TypeCode>, plan: Plan, p: Plan) {
    && NumbersOk(n, p) && plan.counter <= p.counter
    && Numbers(p, !down) == Numbers(plan, !down)
    && Extends(Numbers(plan, down), Numbers(p, down))
    && (forall t :: t in Numbers(p, down) <==> t in Numbers(plan, down) || TakesAvailable(taken, avail, t))
  }

  ghost predicate Paired(items: seq<Item>, i: nat, down: bool, taken: seq<TypeCode>, avail: set<TypeCode>,
                         nums: map<TypeCode, nat>, strong: bool, before: seq<(nat, nat)>, after: seq<(nat, nat)>)
    requires i < |items|
  {
    forall a: nat, b: nat :: (a, b) in after <==>
      (a, b) in before || (a == i && Edge(items, items[i], down, taken, avail, nums, strong, b))
  }

  ghost predicate Edge(items: seq<Item>, p: Item, down: bool, taken: seq<TypeCode>, avail: set<TypeCode>,
                       nums: map<TypeCode, nat>, strong: bool, b: nat)
  {
    TypeEdge(p, down, taken, avail, nums, strong, b) || (!strong && WeakEdge(items, down, taken, avail, b))
  }

  ghost predicate Planned(items: seq<Item>, i: nat, down: bool, taken: seq<TypeCode>, avail: set<TypeCode>,
                          plan: Plan, p: Plan)
    requires i < |items|
  {
    && Numbered(|items|, down, taken, avail, plan, p)
    && Paired(items, i, down, taken, avail, Numbers(p, down), true, plan.strong, p.strong)
    && Paired(items, i, down, taken, avail, Numbers(p, down), false, plan.weak, p.weak)
  }

  method PlanType(items: seq<Item>, i: nat, down: bool, t: TypeCode, avail: set<TypeCode>,
                  suppliers: map<TypeCode, seq<nat>>, plan: Plan) returns (p: Plan)
    requires i < |items| && NumbersOk(|items|, plan) && Supply(items, down, suppliers, |items|)
    ensures Planned(items, i, down, [t], avail, plan, p) && Appended(plan.weak, p.weak, i)
  {
    p := plan;
    if t != NO_TYPE && t in avail {
      var num;
      p, num := NodeFor(p, down, t, |items|);
      ghost var q := p;
      if Optional(items[i], down, t) {
        p := p.(weak := p.weak + [(i, num)]);
      } else {
        p := p.(strong := p.strong + [(i, num)]);
      }
      if t in suppliers {
        p := p.(weak := p.weak + PairsWith(i, suppliers[t]));
      }
      PlannedOne(items, i, down, t, avail, suppliers, plan, q, p);
    } else {
      PlannedNone(items, i, down, t, avail, plan);
    }
  }

  lemma PlannedNone(items: seq<Item>, i: nat, down: bool, t: TypeCode, avail: set<TypeCode>, plan: Plan)
    requires i < |items| && NumbersOk(|items|, plan) && (t == NO_TYPE || t !in avail)
    ensures Planned(items, i, down, [t], avail, plan, plan)
  {
  }

  lemma PlannedOne(items: seq<Item>, i: nat, down: bool, t: TypeCode, avail: set<TypeCode>,
                   suppliers: map<TypeCode, seq<nat>>, plan: Plan, q: Plan, p: Plan)
    requires i < |items| && t != NO_TYPE && t in avail && Supply(items, down, suppliers, |items|)
    requires NumbersOk(|items|, q) && q.strong == plan.strong && q.weak == plan.weak && plan.counter <= q.counter
    requires Numbers(q, !down) == Numbers(plan, !down) && Extends(Numbers(plan, down), Numbers(q, down))
    requires Numbers(q, down).Keys == Numbers(plan, down).Keys + {t}
    requires
      var num, optional := Numbers(q, down)[t], Optional(items[i], down, t);
      p == q.(strong := if optional then q.strong else q.strong + [(i, num)],
              weak := (if optional then q.weak + [(i, num)] else q.weak)
                      + if t in suppliers then PairsWith(i, suppliers[t]) else [])
    ensures Planned(items, i, down, [t], avail, plan, p)
  {
    assert forall u :: TakesAvailable([t], avail, u) <==> u == t;
    forall b: nat
      ensures Edge(items, items[i], down, [t], avail, Numbers(p, down), true, b) <==>
                !Optional(items[i], down, t) && b == Numbers(p, down)[t]
      ensures Edge(items, items[i], down, [t], avail, Numbers(p, down), false, b) <==>
                (Optional(items[i], down, t) && b == Numbers(p, down)[t]) || (t in suppliers && b in suppliers[t])
    {
      EdgeOfOne(items, items[i], down, t, avail, suppliers, Numbers(p, down), b);
    }
    hide Edge, Supply, Optional;
  }

  lemma EdgeOfOne(items: seq<Item>, p: Item, down: bool, t: TypeCode, avail: set<TypeCode>,
                  suppliers: map<TypeCode, seq<nat>>, nums: map<TypeCode, nat>, b: nat)
    requires t != NO_TYPE && t in avail && t in nums && Supply(items, down, suppliers, |items|)
    ensures Edge(items, p, down, [t], avail, nums, true, b) <==> !Optional(p, down, t) && b == nums[t]
    ensures Edge(items, p, down, [t], avail, nums, false, b) <==>
              (Optional(p, down, t) && b == nums[t]) || (t in suppliers && b in suppliers[t])
  {
    assert forall u :: TakesAvailable([t], avail, u) <==> u == t;
    assert Has(suppliers, t, b) <==> PureSupplier(items, down, t, b);
  }

  function PairsWith(i: nat, list: seq<nat>): (r: seq<(nat, nat)>)
    ensures forall a: nat, b: nat :: (a, b) in r <==> a == i && b in list
    ensures forall k :: 0 <= k < |r| ==> r[k].0 == i
  {
    if list == [] then [] else [(i, list[0])] + PairsWith(i, list[1..])
  }

  lemma EdgeSplits(items: seq<Item>, p: Item, down: bool, taken: seq<TypeCode>, t: TypeCode, avail: set<TypeCode>,
                   nums: map<TypeCode, nat>, nums': map<TypeCode, nat>, strong: bool, b: nat)
    requires Extends(nums, nums') && forall u :: TakesAvailable(taken, avail, u) ==> u in nums
    ensures Edge(items, p, down, taken + [t], avail, nums', strong, b) <==>
              Edge(items, p, down, taken, avail, nums, strong, b) || Edge(items, p, down, [t], avail, nums', strong, b)
  {
  }

  lemma PlannedTwice(items: seq<Item>, i: nat, down: bool, taken: seq<TypeCode>, t: TypeCode, avail: set<TypeCode>,
                     plan: Plan, p: Plan, p': Plan)
    requires i < |items|
    requires Planned(items, i, down, taken, avail, plan, p) && Planned(items, i, down, [t], avail, p, p')
    ensures Planned(items, i, down, taken + [t], avail, plan, p')
  {
    forall u
      ensures TakesAvailable(taken + [t], avail, u) <==>
                TakesAvailable(taken, avail, u) || TakesAvailable([t], avail, u)
    {
    }
    assert Numbered(|items|, down, taken + [t], avail, plan, p');
    forall strong, b: nat
      ensures Edge(items, items[i], down, taken + [t], avail, Numbers(p', down), strong, b) <==>
                Edge(items, items[i], down, taken, avail, Numbers(p, down), strong, b)
                || Edge(items, items[i], down, [t], avail, Numbers(p', down), strong, b)
    {
      EdgeSplits(items, items[i], down, taken, t, avail, Numbers(p, down), Numbers(p', down), strong, b);
    }
    hide Edge, Numbered;
  }

  method PlanTypes(items: seq<Item>, i: nat, down: bool, avail: set<TypeCode>,
                   suppliers: map<TypeCode, seq<nat>>, plan: Plan) returns (p: Plan)
    requires i < |items| && NumbersOk(|items|, plan) && Supply(items, down, suppliers, |items|)
    ensures Planned(items, i, down, Taken(items[i], down), avail, plan, p) && Appended(plan.weak, p.weak, i)
  {
    var taken := Taken(items[i], down);
    p := plan;
    NothingPlanned(items, i, down, avail, plan);
    for k := 0 to |taken|
      invariant Planned(items, i, down, taken[..k], avail, plan, p) && Appended(plan.weak, p.weak, i)
    {
      var q := PlanType(items, i, down, taken[k], avail, suppliers, p);
      PlannedTwice(items, i, down, taken[..k], taken[k], avail, plan, p, q);
      AppendedTwice(plan.weak, p.weak, q.weak, i);
      assert taken[..k + 1] == taken[..k] + [taken[k]];
      p := q;
    }
    assert taken[..|taken|] == taken;
  }

  lemma NothingPlanned(items: seq<Item>, i: nat, down: bool, avail: set<TypeCode>, plan: Plan)
    requires i < |items| && NumbersOk(|items|, plan)
    ensures Planned(items, i, down, [], avail, plan, plan)
  {
  }

  datatype Avails = Avails(down: set<TypeCode>, up: set<TypeCode>) {
    function Of(d: bool): set<TypeCode> {
      if d then down else up
    }
  }

  // The relations that do not come from types: behind the last static provider, and the fixed
  // providers behind each other.
  ghost predicate OrderEdge(items: seq<Item>, a: nat, b: nat)
    requires a < |items|
  {
    || (items[a].reorder && items[a].group == RunGroup && LastStatic(items, |items|, b))
    || (!items[a].reorder && PreviousFixed(items, a, b))
  }

  ghost predicate TakesEdge(items: seq<Item>, av: Avails, plan: Plan, strong: bool, a: nat, b: nat)
    requires a < |items|
  {
    exists down :: Edge(items, items[a], down, Taken(items[a], down), av.Of(down), Numbers(plan, down), strong, b)
  }

  ghost predicate StrongPair(items: seq<Item>, av: Avails, plan: Plan, a: nat, b: nat)
    requires a < |items|
  {
    OrderEdge(items, a, b) || TakesEdge(items, av, plan, true, a, b)
  }

  // The first 'n' providers have been planned.
  ghost predicate AllPlanned(items: seq<Item>, av: Avails, plan: Plan, n: nat)
    requires n <= |items|
  {
    && NumbersOk(|items|, plan)
    && (forall down, t :: t in Numbers(plan, down) <==> TakenBefore(items, av, n, down, t))
    && (forall a: nat, b: nat :: (a, b) in plan.strong <==> a < n && StrongPair(items, av, plan, a, b))
    && (forall a: nat, b: nat :: (a, b) in plan.weak <==> a < n && TakesEdge(items, av, plan, false, a, b))
  }

  ghost predicate TakenBefore(items: seq<Item>, av: Avails, n: nat, down: bool, t: TypeCode)
    requires n <= |items|
  {
    exists a: nat :: a < n && TakesAvailable(Taken(items[a], down), av.Of(down), t)
  }

  lemma EdgeStable(items: seq<Item>, p: Item, down: bool, taken: seq<TypeCode>, avail: set<TypeCode>,
                   nums: map<TypeCode, nat>, nums': map<TypeCode, nat>, strong: bool, b: nat)
    requires Extends(nums, nums') && forall u :: TakesAvailable(taken, avail, u) ==> u in nums
    ensures Edge(items, p, down, taken, avail, nums', strong, b) <==>
              Edge(items, p, down, taken, avail, nums, strong, b)
  {
  }

  // Planning provider 'i' leaves the pairs of the earlier providers alone and adds its own.
  lemma PlanningStep(items: seq<Item>, av: Avails, i: nat, plan: Plan, p0: Plan, p1: Plan, p2: Plan)
    requires i < |items| && AllPlanned(items, av, plan, i)
    requires p0 == plan.(strong := p0.strong)
    requires forall a: nat, b: nat :: (a, b) in p0.strong <==>
               (a, b) in plan.strong
               || (a == i && OrderEdge(items, i, b))
    requires Planned(items, i, true, Taken(items[i], true), av.down, p0, p1)
    requires Planned(items, i, false, Taken(items[i], false), av.up, p1, p2)
    ensures AllPlanned(items, av, p2, i + 1)
  {
    NumbersAdded(items, av, i, plan, p1, p2);
    forall a: nat, strong, b: nat | a < i
      ensures TakesEdge(items, av, p2, strong, a, b) <==> TakesEdge(items, av, plan, strong, a, b)
    {
      forall down
        ensures Edge(items, items[a], down, Taken(items[a], down), av.Of(down), Numbers(p2, down), strong, b) <==>
                  Edge(items, items[a], down, Taken(items[a], down), av.Of(down), Numbers(plan, down), strong, b)
      {
        assert forall u :: TakesAvailable(Taken(items[a], down), av.Of(down), u) ==> TakenBefore(items, av, i, down, u);
        EdgeStable(items, items[a], down, Taken(items[a], down), av.Of(down),
                   Numbers(plan, down), Numbers(p2, down), strong, b);
      }
    }
    forall strong, b: nat
      ensures TakesEdge(items, av, p2, strong, i, b) <==>
                Edge(items, items[i], true, Taken(items[i], true), av.down, Numbers(p1, true), strong, b)
                || Edge(items, items[i], false, Taken(items[i], false), av.up, Numbers(p2, false), strong, b)
    {
      assert Numbers(p2, true) == Numbers(p1, true);
      assert av.Of(true) == av.down && av.Of(false) == av.up;
    }
    hide TakesEdge, Edge, OrderEdge, TakenBefore;
  }

  lemma NumbersAdded(items: seq<Item>, av: Avails, i: nat, plan: Plan, p1: Plan, p2: Plan)
    requires i < |items|
    requires forall down, t :: t in Numbers(plan, down) <==> TakenBefore(items, av, i, down, t)
    requires Numbered(|items|, true, Taken(items[i], true), av.down, plan, p1)
    requires Numbered(|items|, false, Taken(items[i], false), av.up, p1, p2)
    ensures forall down :: Extends(Numbers(plan, down), Numbers(p2, down))
    ensures forall down, t :: t in Numbers(p2, down) <==> TakenBefore(items, av, i + 1, down, t)
  {
  }

  // The pairs that do not come from types, for provider 'i'.
  method PlanOrder(items: seq<Item>, i: nat, lastStatic: int, lastNoReorder: int, strong: seq<(nat, nat)>)
    returns (r: seq<(nat, nat)>, last: int)
    requires i < |items|
    requires lastStatic >= 0 ==> LastStatic(items, |items|, lastStatic)
    requires lastStatic < 0 ==> NoneStatic(items, |items|)
    requires lastNoReorder >= 0 ==> PreviousFixed(items, i, lastNoReorder)
    requires lastNoReorder < 0 ==> NoneFixed(items, i)
    ensures forall a: nat, b: nat :: (a, b) in r <==> (a, b) in strong || (a == i && OrderEdge(items, i, b))
    ensures last >= 0 ==> PreviousFixed(items, i + 1, last)
    ensures last < 0 ==> NoneFixed(items, i + 1)
  {
    r, last := strong, lastNoReorder;
    if items[i].reorder && items[i].group == RunGroup && lastStatic >= 0 {
      r := r + [(i, lastStatic)];
    }
    if !items[i].reorder {
      if lastNoReorder >= 0 {
        r := r + [(i, lastNoReorder)];
      }
      last := i;
    }
  }

  method FindLastStatic(items: seq<Item>) returns (last: int)
    ensures last >= 0 ==> LastStatic(items, |items|, last)
    ensures last < 0 ==> NoneStatic(items, |items|)
  {
    last := -1;
    for i := 0 to |items|
      invariant last < i
      invariant last >= 0 ==> LastStatic(items, i, last)
      invariant last < 0 ==> NoneStatic(items, i)
    {
      if items[i].group == StaticGroup && !items[i].reorder {
        last := i;
      }
    }
  }

  method PlanAll(items: seq<Item>, init: seq<TypeCode>) returns (plan: Plan, ghost av: Avails)
    ensures AvailableSet(items, init, true, av.down) && AvailableSet(items, init, false, av.up)
    ensures AllPlanned(items, av, plan, |items|) && InTurn(plan.weak, |items|)
  {
    var down := CollectAvailable(items, init, true);
    var up := CollectAvailable(items, init, false);
    var pureDown := CollectSuppliers(items, true);
    var pureUp := CollectSuppliers(items, false);
    var lastStatic := FindLastStatic(items);
    var lastNoReorder := -1;
    av := Avails(down, up);
    plan := Plan([], [], map[], map[], |items| + 1);
    assert AllPlanned(items, av, plan, 0) && InTurn(plan.weak, 0);
    hide *;
    for i := 0 to |items|
      invariant AllPlanned(items, av, plan, i) && InTurn(plan.weak, i)
      invariant lastNoReorder >= 0 ==> PreviousFixed(items, i, lastNoReorder)
      invariant lastNoReorder < 0 ==> NoneFixed(items, i)
    {
      plan, lastNoReorder := PlanProvider(items, i, av, down, up, pureDown, pureUp, lastStatic, lastNoReorder, plan);
    }
  }

  method PlanProvider(items: seq<Item>, i: nat, ghost av: Avails, down: set<TypeCode>, up: set<TypeCode>,
                      pureDown: map<TypeCode, seq<nat>>, pureUp: map<TypeCode, seq<nat>>,
                      lastStatic: int, lastNoReorder: int, plan: Plan)
    returns (p: Plan, last: int)
    requires i < |items| && av == Avails(down, up) && AllPlanned(items, av, plan, i) && InTurn(plan.weak, i)
    requires Supply(items, true, pureDown, |items|) && Supply(items, false, pureUp, |items|)
    requires lastStatic >= 0 ==> LastStatic(items, |items|, lastStatic)
    requires lastStatic < 0 ==> NoneStatic(items, |items|)
    requires lastNoReorder >= 0 ==> PreviousFixed(items, i, lastNoReorder)
    requires lastNoReorder < 0 ==> NoneFixed(items, i)
    ensures AllPlanned(items, av, p, i + 1) && InTurn(p.weak, i + 1)
    ensures last >= 0 ==> PreviousFixed(items, i + 1, last)
    ensures last < 0 ==> NoneFixed(items, i + 1)
  {
    var strong;
    strong, last := PlanOrder(items, i, lastStatic, lastNoReorder, plan.strong);
    ghost var p0 := plan.(strong := strong);
    hide OrderEdge, StrongPair, TakesEdge, TakenBefore, Edge, Supply;
    assert NumbersOk(|items|, p0);
    var p1 := PlanTypes(items, i, true, down, pureDown, plan.(strong := strong));
    p := PlanTypes(items, i, false, up, pureUp, p1);
    PlanningStep(items, av, i, plan, p0, p1, p);
    AppendedTwice(plan.weak, p1.weak, p.weak, i);
    InTurnAppended(plan.weak, p.weak, i);
  }

  // 'before' and 'after' hold exactly the given pairs.
  ghost predicate Tables(total: nat, pairs: iset<(nat, nat)>, before: seq<set<nat>>, after: seq<set<nat>>) {
    && |before| == |after| == total
    && (forall a: nat, b: nat :: a < total && b < total ==> (b in after[a] <==> (a, b) in pairs))
    && (forall a: nat, b: nat :: a < total && b < total ==> (a in before[b] <==> (a, b) in pairs))
    && (forall a: nat, b: nat :: a < total && (b in after[a] || b in before[a]) ==> b < total)
  }

  ghost function PairSet(pairs: seq<(nat, nat)>): iset<(nat, nat)> {
    iset x | x in pairs
  }

  method FillTables(total: nat, pairs: seq<(nat, nat)>) returns (before: seq<set<nat>>, after: seq<set<nat>>)
    requires forall x :: x in pairs ==> x.0 < total && x.1 < total
    ensures Tables(total, PairSet(pairs), before, after)
  {
    before, after := seq(total, _ => {}), seq(total, _ => {});
    for k := 0 to |pairs|
      invariant |before| == |after| == total
      invariant Tables(total, PairSet(pairs[..k]), before, after)
    {
      var (a, b) := pairs[k];
      assert pairs[k] in pairs;
      assert pairs[..k + 1] == pairs[..k] + [pairs[k]];
      assert PairSet(pairs[..k + 1]) == PairSet(pairs[..k]) + iset{(a, b)};
      AddOne(total, PairSet(pairs[..k]), before, after, a, b);
      hide Tables, PairSet;
      before := before[b := before[b] + {a}];
      after := after[a := after[a] + {b}];
    }
    assert pairs[..|pairs|] == pairs;
  }

  lemma AddOne(total: nat, pairs: iset<(nat, nat)>, before: seq<set<nat>>, after: seq<set<nat>>, a: nat, b: nat)
    requires Tables(total, pairs, before, after) && a < total && b < total
    ensures Tables(total, pairs + iset{(a, b)}, before[b := before[b] + {a}], after[a := after[a] + {b}])
  {
  }

  // Among the first 'k' pairs is (a, b), in front of any pair (b, a).
  ghost predicate ComesFirst(pairs: seq<(nat, nat)>, k: nat, a: nat, b: nat)
    requires k <= |pairs|
  {
    exists i :: 0 <= i < k && pairs[i] == (a, b) && forall j :: 0 <= j < i ==> pairs[j] != (b, a)
  }

  // What is left of the weak relation 'pairs' after its first 'k' pairs have been inspected for
  // mutual wishes: of two mutual pairs the one that comes first is dropped.
  ghost predicate Untangled(pairs: seq<(nat, nat)>, k: nat, left: iset<(nat, nat)>)
    requires k <= |pairs|
  {
    forall a: nat, b: nat :: (a, b) in left <==> (a, b) in pairs && !((b, a) in pairs && ComesFirst(pairs, k, a, b))
  }

  lemma UntangleOne(pairs: seq<(nat, nat)>, k: nat, left: iset<(nat, nat)>, a: nat, b: nat)
    requires k < |pairs| && Untangled(pairs, k, left) && pairs[k] == (a, b) && a != b
    ensures Untangled(pairs, k + 1, if (b, a) in left then left - iset{(a, b)} else left)
  {
    assert pairs[k] in pairs;
    forall x: nat, y: nat | (x, y) != (a, b) ensures ComesFirst(pairs, k + 1, x, y) <==> ComesFirst(pairs, k, x, y) {
    }
    if (b, a) in left {
      if ComesFirst(pairs, k, a, b) {
        assert ComesFirst(pairs, k + 1, a, b);
      } else if forall j :: 0 <= j < k ==> pairs[j] != (b, a) {
        assert ComesFirst(pairs, k + 1, a, b);
      } else {
        var j := FirstOf(pairs, k, b, a);
        assert ComesFirst(pairs, k, b, a);
      }
    } else if (b, a) in pairs {
      assert ComesFirst(pairs, k, b, a);
    }
  }

  lemma FirstOf(pairs: seq<(nat, nat)>, k: nat, a: nat, b: nat) returns (i: nat)
    requires k <= |pairs| && exists j :: 0 <= j < k && pairs[j] == (a, b)
    ensures i < k && pairs[i] == (a, b) && forall j :: 0 <= j < i ==> pairs[j] != (a, b)
  {
    i :| 0 <= i < k && pairs[i] == (a, b);
    if exists j :: 0 <= j < i && pairs[j] == (a, b) {
      i := FirstOf(pairs, i, a, b);
    }
  }

  // reorder.go:223-232, deletions from the wrong sets included: those are of pairs nobody has.
  method RemoveMutual(total: nat, pairs: seq<(nat, nat)>, before0: seq<set<nat>>, after0: seq<set<nat>>)
    returns (before: seq<set<nat>>, after: seq<set<nat>>, ghost left: iset<(nat, nat)>)
    requires Tables(total, PairSet(pairs), before0, after0)
    requires forall x :: x in pairs ==> x.0 < total && x.1 < total && x.0 != x.1
    ensures Tables(total, left, before, after) && Untangled(pairs, |pairs|, left)
  {
    before, after, left := before0, after0, PairSet(pairs);
    for k := 0 to |pairs|
      invariant Tables(total, left, before, after) && Untangled(pairs, k, left)
    {
      var (a, b) := pairs[k];
      assert pairs[k] in pairs;
      UntangleOne(pairs, k, left, a, b);
      if b in before[a] {
        RemoveOne(total, left, before, after, a, b);
        before := before[b := before[b] - {a}];
        before := before[a := before[a] - {a}];
        after := after[a := after[a] - {b}];
        after := after[b := after[b] - {b}];
        left := left - iset{(a, b)};
      }
    }
  }

  lemma RemoveOne(total: nat, left: iset<(nat, nat)>, before: seq<set<nat>>, after: seq<set<nat>>, a: nat, b: nat)
    requires Tables(total, left, before, after) && a < total && b < total && a != b
    requires (a, a) !in left && (b, b) !in left
    ensures
      var before1 := before[b := before[b] - {a}];
      var before2 := before1[a := before1[a] - {a}];
      var after1 := after[a := after[a] - {b}];
      var after2 := after1[b := after1[b] - {b}];
      Tables(total, left - iset{(a, b)}, before2, after2)
  {
  }

  // Provider 'a' takes type 't', may not do without it, and 'b' is the node of 't'.
  ghost predicate NeedsType(items: seq<Item>, g: Graph, down: bool, t: TypeCode, a: nat, b: nat)
    requires a < |items|
  {
    var nums := if down then g.downTypes else g.upTypes;
    t in Taken(items[a], down) && !Optional(items[a], down, t) && t in nums && nums[t] == b
  }

  // The graph says what the annotations and flows say.
  ghost predicate BuiltFrom(items: seq<Item>, init: seq<TypeCode>, g: Graph) {
    && g.items == items && GraphOk(g) && Chained(g)
    && TypesNumbered(items, init, g)
    && StronglyBuilt(items, g)
    && WeaklyBuilt(items, g)
  }

  // Every type that somebody takes and somebody can supply has a node of its own.
  ghost predicate TypesNumbered(items: seq<Item>, init: seq<TypeCode>, g: Graph) {
    && (forall t :: t in g.downTypes <==>
          Available(items, init, true, t) && exists a: nat :: a < |items| && t in items[a].inputs)
    && (forall t :: t in g.upTypes <==> t != NO_TYPE && exists a: nat :: a < |items| && t in items[a].returned)
    && (forall t, t' :: t in g.downTypes && t' in g.downTypes && g.downTypes[t] == g.downTypes[t'] ==> t == t')
    && (forall t, t' :: t in g.upTypes && t' in g.upTypes && g.upTypes[t] == g.upTypes[t'] ==> t == t')
    && (forall t, t' :: t in g.downTypes && t' in g.upTypes ==> g.downTypes[t] != g.upTypes[t'])
  }

  ghost predicate StronglyBuilt(items: seq<Item>, g: Graph)
    requires |items| <= |g.after|
  {
    forall a: nat, b: nat :: a < |items| ==>
      (b in g.after[a] <==> OrderEdge(items, a, b) || exists down, t :: NeedsType(items, g, down, t, a, b))
  }

  // 'a' takes a type that 'b' sends without taking it.
  ghost predicate Wishes(items: seq<Item>, a: nat, b: nat) {
    a < |items| && exists down, t :: t in Taken(items[a], down) && PureSupplier(items, down, t, b)
  }

  // Of the wishes to come after somebody only mutual ones are dropped: that of the provider which is
  // earlier in the list.
  ghost predicate WeaklyBuilt(items: seq<Item>, g: Graph)
    requires |items| <= |g.weakAfter| == |g.weakBefore|
  {
    && (forall a: nat, b: nat :: a < |items| ==> (b in g.weakAfter[a] <==>
                                                    Wishes(items, a, b)
                                                    && !(Wishes(items, b, a) && a < b)))
    && (forall a: nat, b: nat :: a < |items| && b < |items| ==> (b in g.weakAfter[a] <==> a in g.weakBefore[b]))
  }

  // Some provider returns a type whose consumption is optional: its node has no weak relations to
  // write to, and the source crashes (reorder.go:180-187, 207-212, 218-222).
  ghost predicate Crashes(items: seq<Item>) {
    exists a: nat, t :: a < |items| && t in items[a].returned && t != NO_TYPE && t in items[a].consumptionOptional
  }

  // The strong pairs in terms of the final numbers.
  lemma StrongPairMeaning(items: seq<Item>, init: seq<TypeCode>, av: Avails, plan: Plan, g: Graph, a: nat, b: nat)
    requires AvailableSet(items, init, true, av.down) && AvailableSet(items, init, false, av.up)
    requires AllPlanned(items, av, plan, |items|)
    requires g.downTypes == plan.downTypes && g.upTypes == plan.upTypes
    requires a < |items|
    ensures StrongPair(items, av, plan, a, b) <==>
              OrderEdge(items, a, b) || exists down, t :: NeedsType(items, g, down, t, a, b)
  {
    if TakesEdge(items, av, plan, true, a, b) {
      var down :| Edge(items, items[a], down, Taken(items[a], down), av.Of(down), Numbers(plan, down), true, b);
      var t :| TakesAvailable(Taken(items[a], down), av.Of(down), t) && t in Numbers(plan, down)
               && Numbers(plan, down)[t] == b && !Optional(items[a], down, t);
      assert NeedsType(items, g, down, t, a, b);
    }
    if down, t :| NeedsType(items, g, down, t, a, b) {
      assert t in Numbers(plan, down);
      assert TakenBefore(items, av, |items|, down, t);
      assert TakesAvailable(Taken(items[a], down), av.Of(down), t);
      assert TypeEdge(items[a], down, Taken(items[a], down), av.Of(down), Numbers(plan, down), true, b);
      assert Edge(items, items[a], down, Taken(items[a], down), av.Of(down), Numbers(plan, down), true, b);
    }
  }

  // The weak pairs: wishes between providers and, where the source crashes, optional types.
  lemma WeakPairMeaning(items: seq<Item>, init: seq<TypeCode>, av: Avails, plan: Plan, a: nat, b: nat)
    requires AvailableSet(items, init, true, av.down) && AvailableSet(items, init, false, av.up)
    requires AllPlanned(items, av, plan, |items|)
    requires a < |items|
    ensures b < |items| ==> (TakesEdge(items, av, plan, false, a, b) <==> Wishes(items, a, b))
    ensures b >= |items| && TakesEdge(items, av, plan, false, a, b) ==> b < plan.counter && Crashes(items)
    ensures Wishes(items, a, b) ==> b < |items| && a != b
  {
  }

  lemma NothingBetween(f: seq<nat>, k: nat, m: nat)
    requires Increasing(f) && 0 < k < |f| && f[k - 1] < m < f[k]
    ensures m !in f
  {
  }

  lemma FixedAreChained(g: Graph)
    requires |g.items| <= |g.after|
    requires forall a: nat, b: nat :: a < |g.items| && OrderEdge(g.items, a, b) ==> b in g.after[a]
    ensures Chained(g)
  {
    var f := Fixed(g.items, |g.items|);
    FixedFacts(g.items, |g.items|);
    forall k | 0 < k < |f| ensures f[k] < |g.after| && f[k - 1] in g.after[f[k]] {
      assert f[k] in f && f[k - 1] in f;
      forall m: nat | f[k - 1] < m < f[k] ensures g.items[m].reorder {
        NothingBetween(f, k, m);
      }
      assert PreviousFixed(g.items, f[k], f[k - 1]);
    }
  }

  // The graph, unless the source crashes on the way.
  method BuildGraph(items: seq<Item>, init: seq<TypeCode>) returns (crashed: bool, g: Graph)
    ensures crashed <==> Crashes(items)
    ensures !crashed ==> BuiltFrom(items, init, g)
  {
    var plan;
    ghost var av;
    plan, av := PlanAll(items, init);
    var total, n := plan.counter, |items|;
    PairsInRange(items, init, av, plan);
    var before, after := FillTables(total, plan.strong);
    crashed := AnyBeyond(plan.weak, n);
    g := Graph(items, before, after, before, after, plan.downTypes, plan.upTypes);
    if !crashed {
      var weakBefore0, weakAfter0 := FillTables(total, plan.weak);
      ghost var left;
      var weakBefore, weakAfter;
      weakBefore, weakAfter, left := RemoveMutual(total, plan.weak, weakBefore0, weakAfter0);
      g := Graph(items, before, after, weakBefore, weakAfter, plan.downTypes, plan.upTypes);
      BuiltCorrectly(items, init, av, plan, g, left);
    }
  }

  method AnyBeyond(pairs: seq<(nat, nat)>, n: nat) returns (b: bool)
    ensures b <==> exists x :: x in pairs && x.1 >= n
  {
    for k := 0 to |pairs|
      invariant forall x :: x in pairs[..k] ==> x.1 < n
    {
      if pairs[k].1 >= n {
        assert pairs[k] in pairs;
        return true;
      }
      assert pairs[..k + 1] == pairs[..k] + [pairs[k]];
    }
    assert pairs[..|pairs|] == pairs;
    return false;
  }

  lemma PairsInRange(items: seq<Item>, init: seq<TypeCode>, av: Avails, plan: Plan)
    requires AvailableSet(items, init, true, av.down) && AvailableSet(items, init, false, av.up)
    requires AllPlanned(items, av, plan, |items|)
    ensures forall x :: x in plan.strong ==> x.0 < |items| && x.1 < plan.counter && x.1 != |items|
    ensures forall x :: x in plan.weak ==> x.0 < |items| && x.1 < plan.counter && x.0 != x.1
    ensures (exists x :: x in plan.weak && x.1 >= |items|) <==> Crashes(items)
  {
    forall x | x in plan.strong ensures x.0 < |items| && x.1 < plan.counter && x.1 != |items| {
      var (a, b) := x;
      assert StrongPair(items, av, plan, a, b);
      if TakesEdge(items, av, plan, true, a, b) {
        var down :| Edge(items, items[a], down, Taken(items[a], down), av.Of(down), Numbers(plan, down), true, b);
      }
    }
    forall x | x in plan.weak ensures x.0 < |items| && x.1 < plan.counter && x.0 != x.1 {
      WeakPairMeaning(items, init, av, plan, x.0, x.1);
      assert (x.0, x.1) == x;
    }
    if x :| x in plan.weak && x.1 >= |items| {
      WeakPairMeaning(items, init, av, plan, x.0, x.1);
      assert (x.0, x.1) == x;
    }
    if Crashes(items) {
      OptionalTypesCrash(items, init, av, plan);
    }
  }

  lemma OptionalTypesCrash(items: seq<Item>, init: seq<TypeCode>, av: Avails, plan: Plan)
    requires AvailableSet(items, init, false, av.up)
    requires AllPlanned(items, av, plan, |items|) && Crashes(items)
    ensures exists x :: x in plan.weak && x.1 >= |items|
  {
    var a: nat, t :| a < |items| && t in items[a].returned && t != NO_TYPE && t in items[a].consumptionOptional;
    assert Available(items, init, false, t);
    assert TakesAvailable(Taken(items[a], false), av.Of(false), t);
    assert TakenBefore(items, av, |items|, false, t);
    var b := Numbers(plan, false)[t];
    assert TypeEdge(items[a], false, Taken(items[a], false), av.Of(false), Numbers(plan, false), false, b);
    assert Edge(items, items[a], false, Taken(items[a], false), av.Of(false), Numbers(plan, false), false, b);
    assert TakesEdge(items, av, plan, false, a, b);
    assert (a, b) in plan.weak;
  }

  lemma BuiltCorrectly(items: seq<Item>, init: seq<TypeCode>, av: Avails, plan: Plan, g: Graph, left: iset<(nat, nat)>)
    requires AvailableSet(items, init, true, av.down) && AvailableSet(items, init, false, av.up)
    requires AllPlanned(items, av, plan, |items|) && InTurn(plan.weak, |items|) && !Crashes(items)
    requires g.items == items && g.downTypes == plan.downTypes && g.upTypes == plan.upTypes
    requires Tables(plan.counter, PairSet(plan.strong), g.before, g.after)
    requires Tables(plan.counter, left, g.weakBefore, g.weakAfter) && Untangled(plan.weak, |plan.weak|, left)
    ensures BuiltFrom(items, init, g)
  {
    PairsInRange(items, init, av, plan);
    StrongTables(items, init, av, plan, g);
    WeakTables(items, init, av, plan, g, left);
    NumberTables(items, init, av, plan, g);
    TablesMakeGraph(items, av, plan, g, left);
    FixedAreChained(g);
    hide GraphOk, Chained, TypesNumbered, StronglyBuilt, WeaklyBuilt, AllPlanned, Tables, Untangled, OrderEdge;
  }

  lemma StrongTables(items: seq<Item>, init: seq<TypeCode>, av: Avails, plan: Plan, g: Graph)
    requires AvailableSet(items, init, true, av.down) && AvailableSet(items, init, false, av.up)
    requires AllPlanned(items, av, plan, |items|)
    requires g.items == items && g.downTypes == plan.downTypes && g.upTypes == plan.upTypes
    requires Tables(plan.counter, PairSet(plan.strong), g.before, g.after)
    ensures StronglyBuilt(items, g)
    ensures forall a: nat, b: nat :: a < |items| && OrderEdge(items, a, b) ==> b in g.after[a]
  {
    PairsInRange(items, init, av, plan);
    forall a: nat, b: nat | a < |items|
      ensures b in g.after[a] <==> OrderEdge(items, a, b) || exists down, t :: NeedsType(items, g, down, t, a, b)
    {
      StrongPairMeaning(items, init, av, plan, g, a, b);
      assert (a, b) in plan.strong <==> StrongPair(items, av, plan, a, b);
      assert b in g.after[a] <==> (a, b) in PairSet(plan.strong);
    }
  }

  lemma WeakTables(items: seq<Item>, init: seq<TypeCode>, av: Avails, plan: Plan, g: Graph, left: iset<(nat, nat)>)
    requires AvailableSet(items, init, true, av.down) && AvailableSet(items, init, false, av.up)
    requires AllPlanned(items, av, plan, |items|) && InTurn(plan.weak, |items|) && !Crashes(items)
    requires Tables(plan.counter, left, g.weakBefore, g.weakAfter) && Untangled(plan.weak, |plan.weak|, left)
    ensures |items| <= |g.weakAfter| == |g.weakBefore| && WeaklyBuilt(items, g)
  {
    PairsInRange(items, init, av, plan);
    forall a: nat, b: nat | a < |items|
      ensures b in g.weakAfter[a] <==> Wishes(items, a, b) && !(Wishes(items, b, a) && a < b)
    {
      WeakPairs(items, init, av, plan, a, b);
      if b < |items| {
        WeakPairs(items, init, av, plan, b, a);
        if (a, b) in plan.weak && (b, a) in plan.weak {
          TheEarlierComesFirst(plan.weak, |items|, a, b);
        }
      }
      assert (a, b) in left ==> (a, b) in plan.weak;
    }
  }

  lemma WeakPairs(items: seq<Item>, init: seq<TypeCode>, av: Avails, plan: Plan, a: nat, b: nat)
    requires AvailableSet(items, init, true, av.down) && AvailableSet(items, init, false, av.up)
    requires AllPlanned(items, av, plan, |items|) && !Crashes(items) && a < |items|
    ensures (a, b) in plan.weak <==> Wishes(items, a, b)
    ensures Wishes(items, a, b) ==> b < |items| && a != b
  {
    WeakPairMeaning(items, init, av, plan, a, b);
  }

  lemma TheEarlierComesFirst(pairs: seq<(nat, nat)>, n: nat, a: nat, b: nat)
    requires InTurn(pairs, n) && a != b && (a, b) in pairs && (b, a) in pairs
    ensures ComesFirst(pairs, |pairs|, a, b) <==> a < b
  {
    var i :| 0 <= i < |pairs| && pairs[i] == (a, b);
    var j :| 0 <= j < |pairs| && pairs[j] == (b, a);
  }

  lemma NumberTables(items: seq<Item>, init: seq<TypeCode>, av: Avails, plan: Plan, g: Graph)
    requires AvailableSet(items, init, true, av.down) && AvailableSet(items, init, false, av.up)
    requires AllPlanned(items, av, plan, |items|)
    requires g.downTypes == plan.downTypes && g.upTypes == plan.upTypes
    ensures TypesNumbered(items, init, g)
  {
    forall t
      ensures t in g.downTypes <==>
                Available(items, init, true, t) && exists a: nat :: a < |items| && t in items[a].inputs
    {
      assert t in Numbers(plan, true) <==> TakenBefore(items, av, |items|, true, t);
      if Available(items, init, true, t) && exists a: nat :: a < |items| && t in items[a].inputs {
        var a: nat :| a < |items| && t in items[a].inputs;
        assert TakesAvailable(Taken(items[a], true), av.Of(true), t);
      }
    }
    forall t
      ensures t in g.upTypes <==> t != NO_TYPE && exists a: nat :: a < |items| && t in items[a].returned
    {
      assert t in Numbers(plan, false) <==> TakenBefore(items, av, |items|, false, t);
      if t != NO_TYPE && exists a: nat :: a < |items| && t in items[a].returned {
        var a: nat :| a < |items| && t in items[a].returned;
        assert TakesAvailable(Taken(items[a], false), av.Of(false), t);
      }
    }
  }

  lemma TablesMakeGraph(items: seq<Item>, av: Avails, plan: Plan, g: Graph, left: iset<(nat, nat)>)
    requires NumbersOk(|items|, plan) && g.items == items
    requires g.downTypes == plan.downTypes && g.upTypes == plan.upTypes
    requires forall x :: x in plan.strong ==> x.0 < |items| && x.1 < plan.counter && x.1 != |items|
    requires forall x :: x in plan.weak ==> x.0 < |items| && x.1 < plan.counter
    requires Tables(plan.counter, PairSet(plan.strong), g.before, g.after)
    requires Tables(plan.counter, left, g.weakBefore, g.weakAfter) && Untangled(plan.weak, |plan.weak|, left)
    ensures GraphOk(g)
  {
  }

  datatype Outcome = Unchanged | Crash | Order(order: seq<nat>, cannotInclude: set<nat>)

  // The type nodes that are free from the start, because the init function supplies their types.
  function InitNodes(g: Graph, init: seq<TypeCode>): seq<nat> {
    NodesOf(init, g.downTypes)
  }

  lemma InitNodesAreTypes(g: Graph, init: seq<TypeCode>)
    requires GraphOk(g)
    ensures forall x :: x in InitNodes(g, init) ==> IsTypeNode(g, x)
  {
  }

  // reorder(): the providers in their new order.  The ghost result is the graph that was sorted.
  method Reorder(items: seq<Item>, init: seq<TypeCode>) returns (r: Outcome, ghost g: Graph)
    ensures r == Unchanged <==> forall i :: 0 <= i < |items| ==> !items[i].reorder
    ensures r != Unchanged ==> (r == Crash <==> Crashes(items))
    ensures r.Order? ==>
              && BuiltFrom(items, init, g)
              && (forall x :: x in InitNodes(g, init) ==> IsTypeNode(g, x))
              && r.order == Result(g, Final(g, InitNodes(g, init)))
              && |r.order| == |items|
              && forall x: nat :: x in r.cannotInclude <==> x < |items| && x !in Final(g, InitNodes(g, init)).done
  {
    g := Graph([], [], [], [], [], map[], map[]);
    var someReorder := false;
    for i := 0 to |items|
      invariant someReorder <==> exists k :: 0 <= k < i && items[k].reorder
    {
      if items[i].reorder {
        someReorder := true;
      }
    }
    if !someReorder {
      return Unchanged, g;
    }
    var crashed, graph := BuildGraph(items, init);
    if crashed {
      return Crash, g;
    }
    g := graph;
    InitNodesAreTypes(g, init);
    InvHoldsInitially(g, InitNodes(g, init));
    ResultIsPermutation(g, InitNodes(g, init));
    FinalInv(g, InitNodes(g, init));
    hide *;
    var topo := new Topo(graph, InitNodes(graph, init));
    var cannotInclude := topo.Run();
    r := Order(topo.reorderedFuncs, cannotInclude);
  }

  // A released provider that takes a type somebody can supply comes after a released supplier of
  // it, unless the type is an input of the init function; and one that returns a type whose
  // consumption is not optional comes after a released receiver.
  lemma SuppliersComeFirst(items: seq<Item>, init: seq<TypeCode>, g: Graph, down: bool, t: TypeCode, x: nat)
    requires BuiltFrom(items, init, g)
    requires forall y :: y in InitNodes(g, init) ==> IsTypeNode(g, y)
    requires x < |items| && x in Final(g, InitNodes(g, init)).released
    requires t in Taken(items[x], down) && t != NO_TYPE && !Optional(items[x], down, t)
    requires down ==> Available(items, init, true, t)
    ensures
      var st := Final(g, InitNodes(g, init));
      || (down && t in init)
      || exists z :: z < |items| && z in st.released && t in Sent(items[z], down) && Precedes(Result(g, st), z, x)
  {
    var nums := if down then g.downTypes else g.upTypes;
    assert t in nums;
    var y := nums[t];
    assert NeedsType(items, g, down, t, x, y);
    StrongOrder(g, InitNodes(g, init), x, y);
    var st := Final(g, InitNodes(g, init));
    if y in InitNodes(g, init) {
      var t' :| t' in init && t' != NO_TYPE && t' in g.downTypes && g.downTypes[t'] == y;
      assert down && t' == t;
    } else {
      var z :| z < |items| && z in st.released && y in Gives(g, z) && Precedes(Result(g, st), z, x);
      GivesTheType(items, init, g, down, t, z);
    }
  }

  lemma GivesTheType(items: seq<Item>, init: seq<TypeCode>, g: Graph, down: bool, t: TypeCode, z: nat)
    requires g.items == items && TypesNumbered(items, init, g) && z < |items|
    requires t in if down then g.downTypes else g.upTypes
    requires (if down then g.downTypes else g.upTypes)[t] in Gives(g, z)
    ensures t in Sent(items[z], down)
  {
  }
}
