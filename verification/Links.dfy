/**
 The tables includeWorkingData keeps for every provider, and the exact sense in which they record a
 set of dependencies.
 */
module LinkTables {
  import opened Basics
  import opened FlowGraph

  datatype Key = Key(flow: Flow, tc: TypeCode)

  type Detail = map<Key, seq<nat>>

  // Pointers to providers are chain positions.
  datatype Links = Links(
    usesDetail: Detail,
    uses: seq<nat>,
    usesError: set<Key>,
    usedBy: seq<nat>,
    usedByDetail: Detail)

  const NO_LINKS := Links(map[], [], {}, [], map[])

  // Provider 'user' takes type 'tc' on flow 'flow' from provider 'dep'.
  datatype Edge = Edge(dep: nat, user: nat, flow: Flow, tc: TypeCode)

  function Append(m: Detail, k: Key, x: nat): Detail {
    m[k := (if k in m then m[k] else []) + [x]]
  }

  predicate At(m: Detail, k: Key, x: nat) {
    k in m && x in m[k]
  }

  ghost predicate NoEmptyList(m: Detail) {
    forall k :: k in m ==> m[k] != []
  }

  lemma AppendAt(m: Detail, k: Key, x: nat)
    ensures forall k', x' :: At(Append(m, k, x), k', x') <==> At(m, k', x') || (k' == k && x' == x)
    ensures NoEmptyList(m) ==> NoEmptyList(Append(m, k, x))
  {
  }

  ghost predicate Sends(es: iset<Edge>, dep: nat, user: nat, o: Flow, tc: TypeCode) {
    || (o == Outputs && (Edge(dep, user, Inputs, tc) in es || Edge(dep, user, Bypass, tc) in es))
    || (o == Returns && Edge(dep, user, Received, tc) in es)
  }

  ghost predicate Uses(es: iset<Edge>, user: nat, dep: nat) {
    exists e :: e in es && e.dep == dep && e.user == user
  }

  // The user must be looked at again when 'dep', which insists on being consumed, depends on it.
  ghost predicate ObligedBy(c: Chain, es: iset<Edge>, user: nat, dep: nat) {
    exists e :: e in es && e.dep == dep && e.user == user && dep < |c.funcs|
                && MustConsumeFlow(c.funcs[dep], Opposite(e.flow))
  }

  ghost predicate EdgesInRange(c: Chain, es: iset<Edge>) {
    forall e :: e in es ==>
      e.dep < |c.funcs| && e.user < |c.funcs| && e.flow in {Inputs, Bypass, Received}
  }

  // The tables record exactly the dependencies 'es' and the unmet needs 'unmet'.
  ghost predicate Records(c: Chain, d: seq<Links>, es: iset<Edge>, unmet: iset<(nat, Key)>) {
    && |d| == |c.funcs|
    && EdgesInRange(c, es)
    && (forall i :: 0 <= i < |d| ==> NoEmptyList(d[i].usesDetail))
    && (forall i: nat, k :: i < |d| ==> (k in d[i].usesError <==> (i, k) in unmet))
    && RecordsDetail(d, es)
    && RecordsUses(c, d, es)
  }

  ghost predicate RecordsDetail(d: seq<Links>, es: iset<Edge>) {
    && (forall i: nat, k, j :: i < |d| ==>
          (At(d[i].usesDetail, k, j) <==> Edge(j, i, k.flow, k.tc) in es))
    && (forall i: nat, k, j :: i < |d| ==>
          (At(d[i].usedByDetail, k, j) <==> Sends(es, i, j, k.flow, k.tc)))
  }

  ghost predicate RecordsUses(c: Chain, d: seq<Links>, es: iset<Edge>) {
    && (forall i: nat, j :: i < |d| ==> (j in d[i].uses <==> Uses(es, i, j)))
    && (forall i: nat, j :: i < |d| ==> (j in d[i].usedBy <==> Uses(es, j, i) || ObligedBy(c, es, i, j)))
  }

  // One dependency more, exactly as the innermost loop of requireParameters records it.
  function AddUse(d: seq<Links>, e: Edge): (r: seq<Links>)
    requires e.user < |d|
    ensures |r| == |d|
  {
    d[e.user := d[e.user].(usesDetail := Append(d[e.user].usesDetail, Key(e.flow, e.tc), e.dep),
                           uses := d[e.user].uses + [e.dep])]
  }

  function AddUsedBy(d: seq<Links>, e: Edge): (r: seq<Links>)
    requires e.dep < |d|
    ensures |r| == |d|
  {
    d[e.dep := d[e.dep].(usedBy := d[e.dep].usedBy + [e.user],
                         usedByDetail := Append(d[e.dep].usedByDetail, Key(Opposite(e.flow), e.tc), e.user))]
  }

  function AddObligation(c: Chain, d: seq<Links>, e: Edge): (r: seq<Links>)
    requires e.user < |d| && e.dep < |c.funcs|
    ensures |r| == |d|
  {
    if MustConsumeFlow(c.funcs[e.dep], Opposite(e.flow))
    then d[e.user := d[e.user].(usedBy := d[e.user].usedBy + [e.dep])]
    else d
  }

  // What the three steps add, list by list.
  lemma AddedTo(c: Chain, d: seq<Links>, e: Edge)
    requires e.dep < |d| && e.user < |d| == |c.funcs|
    ensures
      var d' := AddObligation(c, AddUsedBy(AddUse(d, e), e), e);
      && |d'| == |d|
      && forall i :: 0 <= i < |d| ==>
           && d'[i].usesError == d[i].usesError
           && d'[i].usesDetail == (if i == e.user then Append(d[i].usesDetail, Key(e.flow, e.tc), e.dep)
                                   else d[i].usesDetail)
           && d'[i].usedByDetail ==
                (if i == e.dep then Append(d[i].usedByDetail, Key(Opposite(e.flow), e.tc), e.user)
                 else d[i].usedByDetail)
           && d'[i].uses == d[i].uses + (if i == e.user then [e.dep] else [])
           && d'[i].usedBy ==
                d[i].usedBy + (if i == e.dep then [e.user] else [])
                + if i == e.user && MustConsumeFlow(c.funcs[e.dep], Opposite(e.flow)) then [e.dep] else []
  {
  }

  lemma AddingAnEdge(c: Chain, d: seq<Links>, es: iset<Edge>, unmet: iset<(nat, Key)>, e: Edge)
    requires Records(c, d, es, unmet)
    requires e.dep < |c.funcs| && e.user < |c.funcs| && e.flow in {Inputs, Bypass, Received}
    ensures Records(c, AddObligation(c, AddUsedBy(AddUse(d, e), e), e), es + iset{e}, unmet)
  {
    hide AddUse, AddUsedBy, AddObligation, RecordsDetail, RecordsUses, At;
    var d3 := AddObligation(c, AddUsedBy(AddUse(d, e), e), e);
    AddedTo(c, d, e);
    AppendAt(d[e.user].usesDetail, Key(e.flow, e.tc), e.dep);
    AddingAnEdgeToDetail(d, d3, es, e);
    AddingAnEdgeToUses(c, d, d3, es, e);
  }

  lemma AddingAnEdgeToDetail(d: seq<Links>, d': seq<Links>, es: iset<Edge>, e: Edge)
    requires e.dep < |d| && e.user < |d| && |d'| == |d| && RecordsDetail(d, es)
    requires e.flow in {Inputs, Bypass, Received}
    requires forall i :: 0 <= i < |d| ==>
      d'[i].usesDetail == if i == e.user then Append(d[i].usesDetail, Key(e.flow, e.tc), e.dep) else d[i].usesDetail
    requires forall i :: 0 <= i < |d| ==>
      d'[i].usedByDetail ==
        if i == e.dep then Append(d[i].usedByDetail, Key(Opposite(e.flow), e.tc), e.user) else d[i].usedByDetail
    ensures RecordsDetail(d', es + iset{e})
  {
    AppendAt(d[e.user].usesDetail, Key(e.flow, e.tc), e.dep);
    AppendAt(d[e.dep].usedByDetail, Key(Opposite(e.flow), e.tc), e.user);
    var es' := es + iset{e};
    forall i: nat, k, j | i < |d'|
      ensures At(d'[i].usesDetail, k, j) <==> Edge(j, i, k.flow, k.tc) in es'
    {
      assert At(d[i].usesDetail, k, j) <==> Edge(j, i, k.flow, k.tc) in es;
    }
    forall i: nat, k, j | i < |d'|
      ensures At(d'[i].usedByDetail, k, j) <==> Sends(es', i, j, k.flow, k.tc)
    {
      assert At(d[i].usedByDetail, k, j) <==> Sends(es, i, j, k.flow, k.tc);
    }
  }

  lemma AddingAnEdgeToUses(c: Chain, d: seq<Links>, d': seq<Links>, es: iset<Edge>, e: Edge)
    requires e.dep < |d| && e.user < |d| == |c.funcs| && |d'| == |d| && RecordsUses(c, d, es)
    requires forall i :: 0 <= i < |d| ==> d'[i].uses == d[i].uses + if i == e.user then [e.dep] else []
    requires forall i :: 0 <= i < |d| ==>
      d'[i].usedBy ==
        d[i].usedBy + (if i == e.dep then [e.user] else [])
        + if i == e.user && MustConsumeFlow(c.funcs[e.dep], Opposite(e.flow)) then [e.dep] else []
    ensures RecordsUses(c, d', es + iset{e})
  {
  }

  // The dependencies among the live providers, all of them.
  ghost predicate LiveEdge(c: Chain, live: set<nat>, e: Edge) {
    e.dep in live && e.user in live && Supplies(c, e.dep, e.user, e.flow, e.tc)
  }

  ghost function LiveEdges(c: Chain, live: set<nat>): iset<Edge> {
    iset e | LiveEdge(c, live, e)
  }

  ghost predicate UnmetNeed(c: Chain, live: set<nat>, i: nat, k: Key) {
    i in live && Needs(c, i, k.flow, k.tc) && !SourcedIn(c, live, i, k.flow, k.tc)
  }

  ghost function UnmetNeeds(c: Chain, live: set<nat>): iset<(nat, Key)> {
    iset x: (nat, Key) | UnmetNeed(c, live, x.0, x.1)
  }

  // The tables describe the live part of the chain completely and precisely.
  ghost predicate Linked(c: Chain, d: seq<Links>, live: set<nat>) {
    Records(c, d, LiveEdges(c, live), UnmetNeeds(c, live)) && InOrder(d)
  }

  // Whoever is ruled out: of the suppliers that are left the last in the list is the closest, and of those that
  // return the type the first is the farthest.
  ghost predicate Leads(list: seq<nat>, f: Flow) {
    forall blocked, x :: x in Usable(list, blocked) ==> x <= Pick(Usable(list, blocked), f != Received)
  }

  ghost predicate InOrder(d: seq<Links>) {
    forall i: nat, k :: i < |d| && k in d[i].usesDetail ==> Leads(d[i].usesDetail[k], k.flow)
  }

  // Suppliers have been added to one list.
  ghost predicate DetailAdded(d: seq<Links>, d': seq<Links>, user: nat, k: Key, more: seq<nat>)
    requires user < |d|
  {
    && |d'| == |d|
    && (forall i :: 0 <= i < |d| && i != user ==> d'[i].usesDetail == d[i].usesDetail)
    && d'[user].usesDetail == if more == [] then d[user].usesDetail
                              else d[user].usesDetail[k := ListAt(d[user].usesDetail, k) + more]
  }

  function ListAt(m: Detail, k: Key): seq<nat> {
    if k in m then m[k] else []
  }

  lemma OneAdded(c: Chain, d: seq<Links>, e: Edge)
    requires e.dep < |d| && e.user < |d| == |c.funcs|
    ensures DetailAdded(d, AddObligation(c, AddUsedBy(AddUse(d, e), e), e), e.user, Key(e.flow, e.tc), [e.dep])
  {
    AddedTo(c, d, e);
  }

  lemma AddedInTurn(d: seq<Links>, d': seq<Links>, d2: seq<Links>, user: nat, k: Key, more: seq<nat>, x: nat)
    requires user < |d| && DetailAdded(d, d', user, k, more) && DetailAdded(d', d2, user, k, [x])
    ensures DetailAdded(d, d2, user, k, more + [x])
  {
    assert ListAt(d'[user].usesDetail, k) == ListAt(d[user].usesDetail, k) + more;
    assert (ListAt(d[user].usesDetail, k) + more) + [x] == ListAt(d[user].usesDetail, k) + (more + [x]);
  }

  lemma {:induction false} UsableJoins(a: seq<nat>, b: seq<nat>, blocked: set<nat>)
    ensures Usable(a + b, blocked) == Usable(a, blocked) + Usable(b, blocked)
  {
    if a == [] {
      assert a + b == b;
    } else {
      assert (a + b)[0] == a[0] && (a + b)[1..] == a[1..] + b;
      UsableJoins(a[1..], b, blocked);
    }
  }

  ghost predicate Monotone(list: seq<nat>, ascending: bool) {
    forall k, l :: 0 <= k < l < |list| ==> if ascending then list[k] <= list[l] else list[l] <= list[k]
  }

  lemma {:induction false} UsableMonotone(list: seq<nat>, ascending: bool, blocked: set<nat>)
    requires Monotone(list, ascending)
    ensures Monotone(Usable(list, blocked), ascending)
  {
    if list != [] {
      var rest := list[1..];
      assert Monotone(rest, ascending);
      UsableMonotone(rest, ascending, blocked);
      var u := Usable(rest, blocked);
      forall k | 0 <= k < |u| ensures if ascending then list[0] <= u[k] else u[k] <= list[0] {
        assert u[k] in rest;
        var l :| 0 <= l < |rest| && rest[l] == u[k];
        assert list[l + 1] == u[k];
      }
      hide Usable;
    }
  }

  lemma MonotoneLeads(list: seq<nat>, f: Flow, blocked: set<nat>, x: nat)
    requires Monotone(list, f != Received) && x in Usable(list, blocked)
    ensures x <= Pick(Usable(list, blocked), f != Received)
  {
    UsableMonotone(list, f != Received, blocked);
    hide Usable;
    var u := Usable(list, blocked);
    var k :| 0 <= k < |u| && u[k] == x;
  }

  // The suppliers of a type are added as a whole, again if the type is listed again.
  lemma AddedLeads(list: seq<nat>, more: seq<nat>, f: Flow)
    requires Monotone(more, f != Received)
    requires list == [] || (Leads(list, f) && forall x :: x in list <==> x in more)
    ensures Leads(list + more, f)
  {
    hide Leads;
    LeadsAre(list, f);
    forall blocked, x | x in Usable(list + more, blocked)
      ensures x <= Pick(Usable(list + more, blocked), f != Received)
    {
      AddedLeadsFor(list, more, f, blocked, x);
    }
    LeadsIf(list + more, f);
  }

  lemma LeadsAre(list: seq<nat>, f: Flow)
    ensures Leads(list, f) ==>
              forall blocked, x :: x in Usable(list, blocked) ==> x <= Pick(Usable(list, blocked), f != Received)
  {
  }

  lemma LeadsIf(list: seq<nat>, f: Flow)
    requires forall blocked, x :: x in Usable(list, blocked) ==> x <= Pick(Usable(list, blocked), f != Received)
    ensures Leads(list, f)
  {
  }

  lemma AddedLeadsFor(list: seq<nat>, more: seq<nat>, f: Flow, blocked: set<nat>, x: nat)
    requires Monotone(more, f != Received) && x in Usable(list + more, blocked)
    requires list == [] || forall x :: x in list <==> x in more
    requires forall x :: x in Usable(list, blocked) ==> x <= Pick(Usable(list, blocked), f != Received)
    ensures x <= Pick(Usable(list + more, blocked), f != Received)
  {
    hide Monotone;
    UsableJoins(list, more, blocked);
    assert list != [] ==> forall y :: y in Usable(more, blocked) ==> y in Usable(list, blocked);
    hide Usable;
    var a, b := Usable(list, blocked), Usable(more, blocked);
    if list == [] {
      assert list + more == more;
      MonotoneLeads(more, f, blocked, x);
    } else {
      assert x in list && x in more && x !in blocked;
      assert x in a && x in b;
      MonotoneLeads(more, f, blocked, x);
      assert (a + b)[0] == a[0] && (a + b)[|a + b| - 1] == b[|b| - 1];
      hide Usable;
    }
  }

  lemma StaysInOrder(d: seq<Links>, d': seq<Links>, user: nat, k: Key, more: seq<nat>)
    requires user < |d| && DetailAdded(d, d', user, k, more) && InOrder(d) && Monotone(more, k.flow != Received)
    requires forall x :: At(d[user].usesDetail, k, x) ==> x in more
    requires k in d[user].usesDetail ==> forall x :: x in more ==> x in d[user].usesDetail[k]
    ensures InOrder(d')
  {
    hide Leads;
    var list := ListAt(d[user].usesDetail, k);
    assert forall x :: x in list <==> At(d[user].usesDetail, k, x);
    AddedLeads(list, more, k.flow);
  }

  // An interfaceMap restricted to exact matches: the providers of each type, in order of addition.
  type Available = map<TypeCode, seq<nat>>

  ghost predicate Offers(m: Available, tc: TypeCode, j: nat) {
    tc in m && j in m[tc]
  }

  // The senders of each type are listed in the order in which they have been passed.
  ghost predicate Ordered(m: Available, ascending: bool) {
    forall tc, k, l :: tc in m && 0 <= k < l < |m[tc]| ==>
        if ascending then m[tc][k] <= m[tc][l] else m[tc][l] <= m[tc][k]
  }

  lemma OneMoreOffer(m: Available, tc: TypeCode, j: nat)
    ensures
      var m' := m[tc := (if tc in m then m[tc] else []) + [j]];
      forall t, x: nat :: Offers(m', t, x) <==> Offers(m, t, x) || (x == j && t == tc)
  {
    var old' := if tc in m then m[tc] else [];
    var m' := m[tc := old' + [j]];
    forall t, x: nat ensures Offers(m', t, x) <==> Offers(m, t, x) || (x == j && t == tc) {
      assert x in old' + [j] <==> x in old' || x == j;
      assert t != tc ==> (t in m' <==> t in m) && (t in m ==> m'[t] == m[t]);
    }
  }

  // 'm' offers what 'available' does and 'j', for the types in 'types'.
  ghost predicate OffersToo(available: Available, j: nat, types: seq<TypeCode>, m: Available) {
    && (forall tc :: tc in m ==> m[tc] != [])
    && (forall tc, x: nat :: Offers(m, tc, x) <==> Offers(available, tc, x) || (x == j && tc != NO_TYPE && tc in types))
  }

  lemma NothingMore(available: Available, j: nat)
    requires forall tc :: tc in available ==> available[tc] != []
    ensures OffersToo(available, j, [], available)
  {
  }

  lemma OfferedToo(available: Available, j: nat, types: seq<TypeCode>, m: Available, tc: TypeCode)
    requires OffersToo(available, j, types, m)
    ensures tc == NO_TYPE ==> OffersToo(available, j, types + [tc], m)
    ensures tc != NO_TYPE ==> OffersToo(available, j, types + [tc], m[tc := (if tc in m then m[tc] else []) + [j]])
  {
    hide Offers;
    OneMoreOffer(m, tc, j);
    var types', m' := types + [tc], if tc == NO_TYPE then m else m[tc := (if tc in m then m[tc] else []) + [j]];
    forall t, x: nat ensures Offers(m', t, x) <==> Offers(available, t, x) || (x == j && t != NO_TYPE && t in types') {
      assert t in types' <==> t in types || t == tc;
      assert Offers(m', t, x) <==> Offers(m, t, x) || (tc != NO_TYPE && x == j && t == tc);
      assert Offers(m, t, x) <==> Offers(available, t, x) || (x == j && t != NO_TYPE && t in types);
    }
    assert forall t :: t in m' ==> m'[t] != [];
  }

  lemma AllOffered(c: Chain, live: set<nat>, available: Available, o: Flow, lo: nat, hi: nat, j: nat, m: Available)
    requires j < |c.funcs| && j in live && Holds(c, live, available, o, lo, hi)
    requires lo <= hi && (j == hi || j + 1 == lo) && OffersToo(available, j, FlowOf(c.funcs[j], o), m)
    ensures Holds(c, live, m, o, if j == hi then lo else j, if j == hi then hi + 1 else hi)
  {
    hide Offers;
  }

  // Nothing leads from or to a provider that has been given up, so it makes no difference whether they count.
  lemma LinkedAnyway(c: Chain, d: seq<Links>)
    requires Linked(c, d, Positions(c) - c.givenUp)
    ensures Linked(c, d, Positions(c))
  {
    var live, all := Positions(c) - c.givenUp, Positions(c);
    assert forall e :: LiveEdge(c, live, e) <==> LiveEdge(c, all, e);
    assert LiveEdges(c, live) == LiveEdges(c, all);
    forall i: nat, k ensures UnmetNeed(c, live, i, k) <==> UnmetNeed(c, all, i, k) {
      assert forall j :: Supplies(c, j, i, k.flow, k.tc) ==> (j in live <==> j in all);
      assert SourcedIn(c, live, i, k.flow, k.tc) <==> SourcedIn(c, all, i, k.flow, k.tc);
    }
    assert UnmetNeeds(c, live) == UnmetNeeds(c, all);
  }

  lemma GivenUpIsUnused(c: Chain, d: seq<Links>, live: set<nat>, x: nat)
    requires Linked(c, d, live) && x < |d| && x in c.givenUp
    ensures forall j :: j !in d[x].usedBy
  {
    var es := LiveEdges(c, live);
    forall j ensures !Uses(es, j, x) && !ObligedBy(c, es, x, j) {
      assert forall e :: e in es ==> e.dep != x && e.user != x;
    }
  }

  // The map holds exactly what the live providers in the range [lo, hi) send on flow 'o'.
  ghost predicate Holds(c: Chain, live: set<nat>, m: Available, o: Flow, lo: nat, hi: nat) {
    && (forall tc :: tc in m ==> m[tc] != [])
    && (forall tc, j: nat :: Offers(m, tc, j) <==>
          j in live && lo <= j < hi && j < |c.funcs| && tc != NO_TYPE && tc in FlowOf(c.funcs[j], o))
  }

  // A type that is listed without anybody who sends it.
  ghost predicate EmptyFor(m: Available, tc: TypeCode) {
    tc != NO_TYPE && tc in m && m[tc] == []
  }

  // requireParameters comes across a type that is listed so, in the course of the two passes.
  ghost predicate ListedEmpty(c: Chain, live: set<nat>) {
    exists m: Available, o: Flow, lo: nat, hi: nat, tc :: Holds(c, live, m, o, lo, hi) && EmptyFor(m, tc)
  }

  // It never does.
  lemma NeverListedEmpty(c: Chain)
    ensures forall live :: !ListedEmpty(c, live)
  {
  }

  // What requireParameters adds for the first 'k' types of one flow of one provider.
  ghost function NewEdges(c: Chain, user: nat, f: Flow, m: Available, k: nat): iset<Edge>
    requires user < |c.funcs| && k <= |FlowOf(c.funcs[user], f)|
  {
    iset e: Edge | e.user == user && e.flow == f && e.tc != NO_TYPE
              && e.tc in FlowOf(c.funcs[user], f)[..k] && Offers(m, e.tc, e.dep)
  }

  ghost function NewUnmet(c: Chain, user: nat, f: Flow, m: Available, k: nat): iset<(nat, Key)>
    requires user < |c.funcs| && k <= |FlowOf(c.funcs[user], f)|
  {
    iset x: (nat, Key) | x.0 == user && x.1.flow == f && x.1.tc != NO_TYPE
              && x.1.tc in FlowOf(c.funcs[user], f)[..k] && x.1.tc !in m
  }

  ghost function EdgesFrom(user: nat, f: Flow, tc: TypeCode, deps: seq<nat>): iset<Edge> {
    iset e: Edge | e.user == user && e.flow == f && e.tc == tc && e.dep in deps
  }

  lemma NoEdgesFrom(es: iset<Edge>, user: nat, f: Flow, tc: TypeCode)
    ensures es + EdgesFrom(user, f, tc, []) == es
  {
  }

  lemma OneMoreEdge(es: iset<Edge>, user: nat, f: Flow, tc: TypeCode, deps: seq<nat>, j: nat)
    requires j < |deps|
    ensures es + EdgesFrom(user, f, tc, deps[..j + 1]) ==
              es + EdgesFrom(user, f, tc, deps[..j]) + iset{Edge(deps[j], user, f, tc)}
  {
    assert deps[..j + 1] == deps[..j] + [deps[j]];
  }

  lemma NextRequirement(c: Chain, user: nat, f: Flow, m: Available, k: nat, es: iset<Edge>, unmet: iset<(nat, Key)>)
    requires user < |c.funcs| && k < |FlowOf(c.funcs[user], f)|
    ensures
      var tc := FlowOf(c.funcs[user], f)[k];
      && es + NewEdges(c, user, f, m, k + 1) ==
           (if tc != NO_TYPE && tc in m then (es + NewEdges(c, user, f, m, k)) + EdgesFrom(user, f, tc, m[tc])
            else es + NewEdges(c, user, f, m, k))
      && unmet + NewUnmet(c, user, f, m, k + 1) ==
           (if tc != NO_TYPE && tc !in m then (unmet + NewUnmet(c, user, f, m, k)) + iset{(user, Key(f, tc))}
            else unmet + NewUnmet(c, user, f, m, k))
  {
  }

  lemma AddUnmet(c: Chain, d: seq<Links>, es: iset<Edge>, unmet: iset<(nat, Key)>, user: nat, k: Key)
    requires user < |c.funcs| && Records(c, d, es, unmet)
    ensures Records(c, d[user := d[user].(usesError := d[user].usesError + {k})], es, unmet + iset{(user, k)})
  {
  }

  // The part of the dependencies known when the downward pass stands at position 'i' and the upward
  // pass has come down to position 'u'.
  ghost predicate Reached(c: Chain, f: Flow, user: nat, i: nat, u: nat) {
    match f
    case Inputs => user < i
    case Bypass => c.invoke < i
    case Received => u <= user
    case _ => false
  }

  ghost function EdgesSoFar(c: Chain, live: set<nat>, i: nat, u: nat): iset<Edge> {
    iset e | LiveEdge(c, live, e) && Reached(c, e.flow, e.user, i, u)
  }

  ghost function UnmetSoFar(c: Chain, live: set<nat>, i: nat, u: nat): iset<(nat, Key)> {
    iset x: (nat, Key) | UnmetNeed(c, live, x.0, x.1) && Reached(c, x.1.flow, x.0, i, u)
  }

  ghost function FlowEdges(c: Chain, live: set<nat>, user: nat, f: Flow): iset<Edge> {
    iset e | LiveEdge(c, live, e) && e.user == user && e.flow == f
  }

  ghost function FlowUnmet(c: Chain, live: set<nat>, user: nat, f: Flow): iset<(nat, Key)> {
    iset x: (nat, Key) | UnmetNeed(c, live, x.0, x.1) && x.0 == user && x.1.flow == f
  }

  // With an accurate map, one call of requireParameters adds all live dependencies of that flow.
  lemma NewEdgesAreLive(c: Chain, live: set<nat>, user: nat, f: Flow, m: Available, lo: nat, hi: nat)
    requires user < |c.funcs| && user in live
    requires Holds(c, live, m, Opposite(f), lo, hi)
    requires f == Inputs ==> lo == 0 && hi == user
    requires f == Bypass ==> c.init == Some(user) && lo == 0 && hi == c.invoke
    requires f == Received ==> lo == user + 1 && hi == |c.funcs|
    requires f in {Inputs, Bypass, Received} && live !! c.givenUp
    ensures NewEdges(c, user, f, m, |FlowOf(c.funcs[user], f)|) == FlowEdges(c, live, user, f)
    ensures NewUnmet(c, user, f, m, |FlowOf(c.funcs[user], f)|) == FlowUnmet(c, live, user, f)
  {
    var flow := FlowOf(c.funcs[user], f);
    assert flow[..|flow|] == flow;
    forall tc, j: nat
      ensures tc in flow && Offers(m, tc, j) <==> j in live && Supplies(c, j, user, f, tc)
    {
    }
    forall tc | tc in flow && tc != NO_TYPE ensures tc in m <==> SourcedIn(c, live, user, f, tc) {
      if tc in m {
        var j := m[tc][0];
        assert Offers(m, tc, j);
      }
    }
  }

  // How the two passes extend what is recorded.
  lemma EdgeIsLive(c: Chain, live: set<nat>, e: Edge)
    requires LiveEdge(c, live, e)
    ensures e.user in live && e.user < |c.funcs| && (e.flow == Inputs || e.flow == Bypass || e.flow == Received)
    ensures e.flow == Bypass ==> c.init == Some(e.user)
  {
  }

  lemma NeedIsLive(c: Chain, live: set<nat>, x: (nat, Key))
    requires UnmetNeed(c, live, x.0, x.1)
    ensures x.0 in live && x.0 < |c.funcs| && (x.1.flow == Inputs || x.1.flow == Bypass || x.1.flow == Received)
    ensures x.1.flow == Bypass ==> c.init == Some(x.0)
  {
  }

  lemma DownStep(c: Chain, live: set<nat>, i: nat)
    requires WellFormed(c) && i < |c.funcs| && c.invoke in live && (c.init.Some? ==> c.init.value in live)
    ensures EdgesSoFar(c, live, i + 1, |c.funcs|) ==
              EdgesSoFar(c, live, i, |c.funcs|)
              + (if i == c.invoke && c.init.Some? then FlowEdges(c, live, c.init.value, Bypass) else iset{})
              + (if i in live then FlowEdges(c, live, i, Inputs) else iset{})
    ensures UnmetSoFar(c, live, i + 1, |c.funcs|) ==
              UnmetSoFar(c, live, i, |c.funcs|)
              + (if i == c.invoke && c.init.Some? then FlowUnmet(c, live, c.init.value, Bypass) else iset{})
              + (if i in live then FlowUnmet(c, live, i, Inputs) else iset{})
  {
    hide LiveEdge, UnmetNeed;
    forall e ensures e in EdgesSoFar(c, live, i + 1, |c.funcs|) <==>
      || e in EdgesSoFar(c, live, i, |c.funcs|)
      || (i == c.invoke && c.init.Some? && e in FlowEdges(c, live, c.init.value, Bypass))
      || (i in live && e in FlowEdges(c, live, i, Inputs))
    {
      if LiveEdge(c, live, e) {
        EdgeIsLive(c, live, e);
      }
    }
    forall x: (nat, Key) ensures x in UnmetSoFar(c, live, i + 1, |c.funcs|) <==>
      || x in UnmetSoFar(c, live, i, |c.funcs|)
      || (i == c.invoke && c.init.Some? && x in FlowUnmet(c, live, c.init.value, Bypass))
      || (i in live && x in FlowUnmet(c, live, i, Inputs))
    {
      if UnmetNeed(c, live, x.0, x.1) {
        NeedIsLive(c, live, x);
      }
    }
  }

  lemma UpStep(c: Chain, live: set<nat>, u: nat)
    requires WellFormed(c) && u < |c.funcs|
    ensures EdgesSoFar(c, live, |c.funcs|, u) ==
              EdgesSoFar(c, live, |c.funcs|, u + 1)
              + (if u in live then FlowEdges(c, live, u, Received) else iset{})
    ensures UnmetSoFar(c, live, |c.funcs|, u) ==
              UnmetSoFar(c, live, |c.funcs|, u + 1)
              + (if u in live then FlowUnmet(c, live, u, Received) else iset{})
  {
  }

  lemma PassesStartAndEnd(c: Chain, live: set<nat>)
    requires WellFormed(c)
    ensures EdgesSoFar(c, live, 0, |c.funcs|) == iset{}
    ensures UnmetSoFar(c, live, 0, |c.funcs|) == iset{}
    ensures EdgesSoFar(c, live, |c.funcs|, 0) == LiveEdges(c, live)
    ensures UnmetSoFar(c, live, |c.funcs|, 0) == UnmetNeeds(c, live)
  {
  }

  // Nothing has been recorded for one flow of one provider so far.
  ghost predicate NotYet(es: iset<Edge>, user: nat, f: Flow) {
    forall e :: e in es ==> !(e.user == user && e.flow == f)
  }

  lemma NotYetDown(c: Chain, live: set<nat>, i: nat)
    requires WellFormed(c)
    ensures NotYet(EdgesSoFar(c, live, i, |c.funcs|), i, Inputs)
    ensures c.init.Some? ==>
              NotYet(EdgesSoFar(c, live, i, |c.funcs|) + FlowEdges(c, live, c.init.value, Bypass), i, Inputs)
    ensures i <= c.invoke && c.init.Some? ==> NotYet(EdgesSoFar(c, live, i, |c.funcs|), c.init.value, Bypass)
  {
  }

  lemma NotYetUp(c: Chain, live: set<nat>, u: nat)
    ensures NotYet(EdgesSoFar(c, live, |c.funcs|, u + 1), u, Received)
  {
  }

  // The suppliers of one type have been recorded all or not at all.
  ghost predicate NoneOrAll(es: iset<Edge>, user: nat, f: Flow, tc: TypeCode, available: Available) {
    || (forall x :: Edge(x, user, f, tc) !in es)
    || (forall x: nat :: Edge(x, user, f, tc) in es <==> Offers(available, tc, x))
  }

  lemma AddedBefore(c: Chain, user: nat, f: Flow, m: Available, k: nat, es: iset<Edge>)
    requires user < |c.funcs| && k < |FlowOf(c.funcs[user], f)| && NotYet(es, user, f)
    ensures NoneOrAll(es + NewEdges(c, user, f, m, k), user, f, FlowOf(c.funcs[user], f)[k], m)
  {
  }

  lemma AddedFits(c: Chain, d: seq<Links>, es: iset<Edge>, unmet: iset<(nat, Key)>, user: nat, f: Flow, tc: TypeCode,
                  available: Available)
    requires Records(c, d, es, unmet) && user < |c.funcs| && tc in available
    requires Ordered(available, f != Received) && NoneOrAll(es, user, f, tc, available)
    ensures user < |d| && Monotone(available[tc], f != Received)
    ensures forall x :: At(d[user].usesDetail, Key(f, tc), x) ==> x in available[tc]
    ensures Key(f, tc) in d[user].usesDetail ==>
              forall x :: x in available[tc] ==> x in d[user].usesDetail[Key(f, tc)]
  {
    var k := Key(f, tc);
    assert forall x :: At(d[user].usesDetail, k, x) <==> Edge(x, user, k.flow, k.tc) in es;
    assert forall x: nat :: Offers(available, tc, x) <==> x in available[tc];
    if k in d[user].usesDetail {
      assert d[user].usesDetail[k] != [];
      assert At(d[user].usesDetail, k, d[user].usesDetail[k][0]);
    }
  }

  lemma RecordsLength(c: Chain, d: seq<Links>, es: iset<Edge>, unmet: iset<(nat, Key)>)
    requires Records(c, d, es, unmet)
    ensures |d| == |c.funcs|
  {
  }

  lemma NoneAdded(d: seq<Links>, user: nat, k: Key)
    requires user < |d|
    ensures DetailAdded(d, d, user, k, [])
  {
  }

  lemma SameDetail(d: seq<Links>, user: nat, errors: set<Key>)
    requires user < |d| && InOrder(d)
    ensures InOrder(d[user := d[user].(usesError := errors)])
  {
    hide Leads;
  }

  lemma NothingInOrder(n: nat)
    ensures InOrder(seq(n, _ => NO_LINKS))
  {
  }

  lemma NothingRecorded(c: Chain)
    ensures Records(c, seq(|c.funcs|, _ => NO_LINKS), iset{}, iset{})
  {
  }

  // A provider that takes no part leaves the map accurate.
  lemma HoldsSkip(c: Chain, live: set<nat>, m: Available, o: Flow, lo: nat, hi: nat)
    requires Holds(c, live, m, o, lo, hi) && lo <= hi
    ensures hi !in live ==> Holds(c, live, m, o, lo, hi + 1)
    ensures 0 < lo && lo - 1 !in live ==> Holds(c, live, m, o, lo - 1, hi)
  {
  }

  ghost predicate SomeIn(list: seq<nat>, s: set<nat>) {
    exists p :: p in list && p in s
  }

  // What checkFlows inspects for one provider.
  ghost predicate ChecksOut(c: Chain, d: seq<Links>, s: set<nat>, i: nat)
    requires i < |c.funcs| == |d|
  {
    && d[i].usesError == {}
    && (forall k :: k in d[i].usesDetail ==> SomeIn(d[i].usesDetail[k], s))
    && ConsumersCheckOut(c, d, s, i, Returns)
    && ConsumersCheckOut(c, d, s, i, Outputs)
  }

  ghost predicate ConsumersCheckOut(c: Chain, d: seq<Links>, s: set<nat>, i: nat, o: Flow)
    requires i < |c.funcs| == |d|
  {
    forall tc :: tc in FlowOf(c.funcs[i], o) && MustBeConsumed(c.funcs[i], o, tc) ==>
      Key(o, tc) in d[i].usedByDetail && SomeIn(d[i].usedByDetail[Key(o, tc)], s)
  }

  lemma SourcesCheckOut(c: Chain, d: seq<Links>, live: set<nat>, s: set<nat>, i: nat)
    requires Linked(c, d, live) && s <= live && i in s && i < |c.funcs|
    ensures (d[i].usesError == {} && forall k :: k in d[i].usesDetail ==> SomeIn(d[i].usesDetail[k], s))
            <==> forall f, tc :: Needs(c, i, f, tc) ==> SourcedIn(c, s, i, f, tc)
  {
    var es := LiveEdges(c, live);
    if d[i].usesError == {} && forall k :: k in d[i].usesDetail ==> SomeIn(d[i].usesDetail[k], s) {
      forall f, tc | Needs(c, i, f, tc) ensures SourcedIn(c, s, i, f, tc) {
        assert (i, Key(f, tc)) !in UnmetNeeds(c, live);
        var j :| j in live && Supplies(c, j, i, f, tc);
        assert Edge(j, i, f, tc) in es;
        assert At(d[i].usesDetail, Key(f, tc), j);
        var p :| p in d[i].usesDetail[Key(f, tc)] && p in s;
        assert At(d[i].usesDetail, Key(f, tc), p);
        assert Edge(p, i, f, tc) in es;
      }
    }
    if forall f, tc :: Needs(c, i, f, tc) ==> SourcedIn(c, s, i, f, tc) {
      forall k ensures k !in d[i].usesError {
        assert Needs(c, i, k.flow, k.tc) ==> SourcedIn(c, s, i, k.flow, k.tc);
        assert (i, k) !in UnmetNeeds(c, live);
      }
      forall k | k in d[i].usesDetail ensures SomeIn(d[i].usesDetail[k], s) {
        var j := d[i].usesDetail[k][0];
        assert At(d[i].usesDetail, k, j);
        assert Edge(j, i, k.flow, k.tc) in es;
        assert SourcedIn(c, s, i, k.flow, k.tc);
        var p :| p in s && Supplies(c, p, i, k.flow, k.tc);
        assert Edge(p, i, k.flow, k.tc) in es;
        assert At(d[i].usesDetail, k, p);
      }
    }
  }

  lemma ConsumptionChecksOut(c: Chain, d: seq<Links>, live: set<nat>, s: set<nat>, i: nat, o: Flow, tc: TypeCode)
    requires Linked(c, d, live) && s <= live && i in s && i < |c.funcs|
    requires MustBeConsumed(c.funcs[i], o, tc)
    ensures ConsumedIn(c, s, i, o, tc) <==>
              Key(o, tc) in d[i].usedByDetail && SomeIn(d[i].usedByDetail[Key(o, tc)], s)
  {
    var es := LiveEdges(c, live);
    var k := Key(o, tc);
    if ConsumedIn(c, s, i, o, tc) {
      var p, f :| p in s && Opposite(f) == o && Supplies(c, i, p, f, tc);
      assert Edge(i, p, f, tc) in es;
      assert Sends(es, i, p, o, tc);
      assert At(d[i].usedByDetail, k, p);
    }
    if k in d[i].usedByDetail && SomeIn(d[i].usedByDetail[k], s) {
      var p :| p in d[i].usedByDetail[k] && p in s;
      assert At(d[i].usedByDetail, k, p);
      assert Sends(es, i, p, o, tc);
    }
  }

  // Inspecting the tables decides local consistency.
  lemma ChecksOutIsConsistent(c: Chain, d: seq<Links>, live: set<nat>, s: set<nat>, i: nat)
    requires Linked(c, d, live) && s <= live && i in s && i < |c.funcs|
    ensures ChecksOut(c, d, s, i) <==> LocallyConsistent(c, s, i)
  {
    SourcesCheckOut(c, d, live, s, i);
    forall o, tc | MustBeConsumed(c.funcs[i], o, tc)
      ensures ConsumedIn(c, s, i, o, tc) <==>
                Key(o, tc) in d[i].usedByDetail && SomeIn(d[i].usedByDetail[Key(o, tc)], s)
    {
      ConsumptionChecksOut(c, d, live, s, i, o, tc);
    }
    assert forall o, tc :: MustBeConsumed(c.funcs[i], o, tc) ==>
        o in {Returns, Outputs} && tc in FlowOf(c.funcs[i], o);
  }

  // The re-check lists are complete: whoever stops being consistent when 'gone' leaves is in its
  // usedBy list.
  lemma UsedByIsComplete(c: Chain, d: seq<Links>, live: set<nat>, s: set<nat>, gone: nat, x: nat)
    requires Linked(c, d, live) && s <= live && gone in s && x in s && x != gone
    requires gone < |c.funcs| && x < |c.funcs|
    requires LocallyConsistent(c, s, x) && !LocallyConsistent(c, s - {gone}, x)
    ensures x in d[gone].usedBy
  {
    var es := LiveEdges(c, live);
    if f, tc :| Needs(c, x, f, tc) && !SourcedIn(c, s - {gone}, x, f, tc) {
      var j :| j in s && Supplies(c, j, x, f, tc);
      assert j == gone;
      assert Edge(gone, x, f, tc) in es;
      assert Uses(es, x, gone);
    } else {
      var o, tc :| MustBeConsumed(c.funcs[x], o, tc) && !ConsumedIn(c, s - {gone}, x, o, tc);
      assert ConsumedIn(c, s, x, o, tc);
      var k, f :| k in s && Opposite(f) == o && Supplies(c, x, k, f, tc);
      assert k == gone;
      assert Edge(x, gone, f, tc) in es;
      assert ObligedBy(c, es, gone, x);
    }
  }

  lemma UsedByInRange(c: Chain, d: seq<Links>, live: set<nat>, i: nat)
    requires Linked(c, d, live) && i < |c.funcs|
    ensures forall x :: x in d[i].usedBy ==> x < |c.funcs|
    ensures forall x :: x in d[i].uses ==> x < |c.funcs|
  {
  }

  // Links are visible from both ends.
  lemma UsedByIsMutual(c: Chain, d: seq<Links>, live: set<nat>, x: nat, y: nat)
    requires Linked(c, d, live) && x < |c.funcs| && y < |c.funcs|
    requires y in d[x].usedBy
    ensures x in d[y].uses || x in d[y].usedBy
  {
  }

  // Everybody in 's' is protected or has a user (or an obliged supplier) in 's'.
  ghost predicate SelfSustaining(c: Chain, d: seq<Links>, wanted: set<nat>, s: set<nat>) {
    forall x :: x in s ==> x < |c.funcs| == |d| && (Protected(c, wanted, x) || SomeIn(d[x].usedBy, s))
  }

  // Who has been given up stays only if protected: nobody uses it.
  lemma KeptAreProtected(c: Chain, d: seq<Links>, live: set<nat>, wanted: set<nat>, s: set<nat>)
    requires Linked(c, d, live) && SelfSustaining(c, d, wanted, s)
    ensures forall x :: x in c.givenUp && x in s ==> x < |c.funcs| && Protected(c, wanted, x)
  {
    hide Linked;
    forall x | x in c.givenUp && x in s ensures x < |c.funcs| && Protected(c, wanted, x) {
      GivenUpIsUnused(c, d, live, x);
    }
  }

  // The invariant of eliminateUnused: whoever may be unused is still to be checked.
  ghost predicate AllUsed(c: Chain, d: seq<Links>, wanted: set<nat>, s: set<nat>, check: seq<nat>) {
    && |d| == |c.funcs|
    && (forall x :: x in check ==> x < |c.funcs|)
    && (forall x :: x in s ==> x < |c.funcs|)
    && (forall x :: x in s ==> Protected(c, wanted, x) || SomeIn(d[x].usedBy, s) || x in check)
  }

  // Looking at 'fm' turned 's' into 's1' and queued everybody who may have lost its last user.
  ghost predicate Rechecked(c: Chain, d: seq<Links>, wanted: set<nat>, s: set<nat>, s1: set<nat>, fm: nat,
                            more: seq<nat>)
  {
    && |d| == |c.funcs| && fm < |d|
    && (forall x :: x in more ==> x < |c.funcs|)
    && (fm in s1 ==> Protected(c, wanted, fm) || SomeIn(d[fm].usedBy, s1))
    && (forall x :: x in s1 && x < |d| && x != fm && SomeIn(d[x].usedBy, s) ==> SomeIn(d[x].usedBy, s1) || x in more)
  }

  lemma AllUsedStep(c: Chain, d: seq<Links>, wanted: set<nat>, s: set<nat>, s1: set<nat>, check: seq<nat>,
                    more: seq<nat>)
    requires check != [] && AllUsed(c, d, wanted, s, check) && s1 <= s
    requires Rechecked(c, d, wanted, s, s1, check[0], more)
    ensures AllUsed(c, d, wanted, s1, check[1..] + more)
  {
    assert check == [check[0]] + check[1..];
    assert forall x :: x in check <==> x == check[0] || x in check[1..];
  }

  lemma NobodyLeftToCheck(c: Chain, d: seq<Links>, wanted: set<nat>, s: set<nat>, check: seq<nat>)
    requires AllUsed(c, d, wanted, s, check) && check == []
    ensures SelfSustaining(c, d, wanted, s)
  {
  }

  // Which of several possible suppliers proposeEliminations settles on.
  function Usable(list: seq<nat>, blocked: set<nat>): (u: seq<nat>)
    ensures forall x :: x in u <==> x in list && x !in blocked
  {
    if list == [] then [] else (if list[0] in blocked then [] else [list[0]]) + Usable(list[1..], blocked)
  }

  function Pick(usable: seq<nat>, useLast: bool): (p: nat)
    requires usable != []
    ensures p in usable
  {
    if useLast then usable[|usable| - 1] else usable[0]
  }

  datatype Direction = Direction(flows: set<Flow>, useLast: bool)

  const DOWN := Direction({Inputs, Bypass}, true)
  const UP := Direction({Received}, false)

  ghost predicate Picks(d: seq<Links>, blocked: set<nat>, dir: Direction, i: nat, x: nat)
    requires i < |d|
  {
    exists k :: k in d[i].usesDetail && k.flow in dir.flows
                && Usable(d[i].usesDetail[k], blocked) != []
                   && Pick(Usable(d[i].usesDetail[k], blocked), dir.useLast) == x
  }

  // Whoever is in 's' finds its preferred supplier in 's'.
  ghost predicate ClosedUnderPicks(d: seq<Links>, blocked: set<nat>, dir: Direction, s: set<nat>) {
    forall i, x :: i in s && i < |d| && Picks(d, blocked, dir, i, x) ==> x in s
  }

  // 's' is the least set that holds 'roots' and every preferred supplier of its members.
  ghost predicate LeastClosed(d: seq<Links>, blocked: set<nat>, dir: Direction, roots: set<nat>, s: set<nat>) {
    && roots <= s
    && ClosedUnderPicks(d, blocked, dir, s)
    && (forall t :: roots <= t && ClosedUnderPicks(d, blocked, dir, t) ==> s <= t)
  }

  lemma PicksInRange(c: Chain, d: seq<Links>, live: set<nat>, blocked: set<nat>, dir: Direction, i: nat, x: nat)
    requires Linked(c, d, live) && i < |d| && Picks(d, blocked, dir, i, x)
    ensures x < |c.funcs|
  {
    var k :| k in d[i].usesDetail && k.flow in dir.flows
             && Usable(d[i].usesDetail[k], blocked) != []
                && Pick(Usable(d[i].usesDetail[k], blocked), dir.useLast) == x;
    assert At(d[i].usesDetail, k, x);
    assert Edge(x, i, k.flow, k.tc) in LiveEdges(c, live);
  }

  lemma LinkedLength(c: Chain, d: seq<Links>, live: set<nat>)
    requires Linked(c, d, live)
    ensures |d| == |c.funcs|
  {
  }

  lemma ConsistentInRange(c: Chain, s: set<nat>)
    requires Consistent(c, s)
    ensures s <= Positions(c)
  {
  }

  // On the way to the least closed set: 'toKeep' is still to be added to 'keep'.
  ghost predicate Growing(c: Chain, d: seq<Links>, blocked: set<nat>, dir: Direction, roots: set<nat>,
                          keep: set<nat>, toKeep: seq<nat>) {
    && |d| == |c.funcs| && keep <= Positions(c)
    && (forall x :: x in toKeep ==> x < |c.funcs|)
    && (forall x :: x in roots ==> x in keep || x in toKeep)
    && (forall i, x :: i in keep && Picks(d, blocked, dir, i, x) ==> x in keep || x in toKeep)
    && (forall t :: roots <= t && ClosedUnderPicks(d, blocked, dir, t) ==> keep <= t && forall x :: x in toKeep ==>
          x in t)
  }

  lemma GrowingStarts(c: Chain, d: seq<Links>, blocked: set<nat>, dir: Direction, roots: set<nat>)
    requires |d| == |c.funcs| && roots <= Positions(c)
    ensures Growing(c, d, blocked, dir, roots, {}, Ascending(|c.funcs|, roots))
  {
    hide Picks;
  }

  lemma GrowingSkips(c: Chain, d: seq<Links>, blocked: set<nat>, dir: Direction, roots: set<nat>, keep: set<nat>,
                     toKeep: seq<nat>)
    requires Growing(c, d, blocked, dir, roots, keep, toKeep) && toKeep != [] && toKeep[0] in keep
    ensures Growing(c, d, blocked, dir, roots, keep, toKeep[1..])
  {
    hide Picks, ClosedUnderPicks;
    assert toKeep == [toKeep[0]] + toKeep[1..];
    assert forall x :: x in toKeep <==> x == toKeep[0] || x in toKeep[1..];
  }

  lemma GrowingAdds(c: Chain, d: seq<Links>, live: set<nat>, blocked: set<nat>, dir: Direction, roots: set<nat>,
                    keep: set<nat>, toKeep: seq<nat>, more: seq<nat>)
    requires Growing(c, d, blocked, dir, roots, keep, toKeep) && toKeep != [] && Linked(c, d, live)
    requires toKeep[0] < |d| && forall x :: x in more ==> Picks(d, blocked, dir, toKeep[0], x)
    requires forall x :: Picks(d, blocked, dir, toKeep[0], x) ==> x in keep + {toKeep[0]} || x in more
    ensures Growing(c, d, blocked, dir, roots, keep + {toKeep[0]}, toKeep[1..] + more)
  {
    hide Picks, Linked;
    assert toKeep == [toKeep[0]] + toKeep[1..];
    assert forall x :: x in toKeep <==> x == toKeep[0] || x in toKeep[1..];
    forall x | x in more ensures x < |c.funcs| {
      PicksInRange(c, d, live, blocked, dir, toKeep[0], x);
    }
  }

  lemma GrownIsLeast(c: Chain, d: seq<Links>, blocked: set<nat>, dir: Direction, roots: set<nat>, keep: set<nat>,
                     toKeep: seq<nat>)
    requires Growing(c, d, blocked, dir, roots, keep, toKeep) && toKeep == []
    ensures keep <= Positions(c) && LeastClosed(d, blocked, dir, roots, keep)
  {
    assert forall i, x :: i in keep && i < |d| && Picks(d, blocked, dir, i, x) ==> x in keep;
  }

  lemma NextToGrow(c: Chain, d: seq<Links>, blocked: set<nat>, dir: Direction, roots: set<nat>, keep: set<nat>,
                   toKeep: seq<nat>)
    requires Growing(c, d, blocked, dir, roots, keep, toKeep)
    ensures |d| == |c.funcs| && (toKeep != [] ==> toKeep[0] < |d| && toKeep[0] in Positions(c))
  {
    assert toKeep != [] ==> toKeep[0] in toKeep;
  }

  lemma UsedAtFirst(c: Chain, d: seq<Links>, wanted: set<nat>, s: set<nat>)
    requires |d| == |c.funcs| && s <= Positions(c)
    ensures AllUsed(c, d, wanted, s, Identity(|c.funcs|))
  {
    forall x: nat | x in s ensures x in Identity(|c.funcs|) {
      assert Identity(|c.funcs|)[x] == x;
    }
  }

  lemma HeldAreFuncs(c: Chain, live: set<nat>, m: Available, o: Flow, lo: nat, hi: nat)
    requires Holds(c, live, m, o, lo, hi)
    ensures forall tc, j: nat :: Offers(m, tc, j) ==> j < |c.funcs|
  {
  }

  lemma NothingHeld(c: Chain, live: set<nat>, o: Flow, at: nat)
    ensures Holds(c, live, map[], o, at, at)
  {
  }

  predicate Lists(members: map<nat, seq<nat>>, l: nat, m: nat) {
    l in members && m in members[l]
  }

  // The members of every cluster are listed with the first of them.
  ghost predicate ClustersFormed(c: Chain, members: map<nat, seq<nat>>, excluded: set<nat>) {
    && (forall l :: l in members ==> l < |c.funcs| && l in members[l] && Distinct(members[l]))
    && (forall l: nat, m: nat :: Lists(members, l, m) ==>
          l <= m < |c.funcs| && m !in excluded && c.funcs[m].cluster == c.funcs[l].cluster
              && c.funcs[l].cluster != 0)
    && (forall l, l' :: l in members && l' in members && l != l' ==> c.funcs[l].cluster != c.funcs[l'].cluster)
    && (forall m: nat :: m < |c.funcs| && m !in excluded && c.funcs[m].cluster != 0 ==>
          exists l: nat :: Lists(members, l, m))
  }

  // The same while the first 'i' providers have been looked at.
  ghost predicate ClusterIndex(c: Chain, leaders: map<int, nat>, members: map<nat, seq<nat>>, excluded: set<nat>,
                               i: nat)
  {
    && i <= |c.funcs|
    && (forall k :: k in leaders ==>
          k != 0 && leaders[k] < i && leaders[k] in members
          && c.funcs[leaders[k]].cluster == k)
    && (forall l :: l in members ==>
          l < i && l in members[l] && c.funcs[l].cluster in leaders && leaders[c.funcs[l].cluster] == l
          && Distinct(members[l]))
    && (forall l: nat, m: nat :: Lists(members, l, m) ==>
          l <= m < i && m !in excluded && c.funcs[m].cluster == c.funcs[l].cluster)
    && (forall m: nat :: m < i && m !in excluded && c.funcs[m].cluster != 0 ==>
          c.funcs[m].cluster in leaders && Lists(members, leaders[c.funcs[m].cluster], m))
  }

  lemma JoinCluster(c: Chain, leaders: map<int, nat>, members: map<nat, seq<nat>>, excluded: set<nat>, i: nat)
    requires ClusterIndex(c, leaders, members, excluded, i) && i < |c.funcs|
    requires i !in excluded && c.funcs[i].cluster in leaders
    ensures leaders[c.funcs[i].cluster] in members
    ensures
      var l := leaders[c.funcs[i].cluster];
      ClusterIndex(c, leaders, members[l := members[l] + [i]], excluded, i + 1)
  {
    var l := leaders[c.funcs[i].cluster];
    var members' := members[l := members[l] + [i]];
    forall m: nat | m in members[l] ensures m < i {
      assert Lists(members, l, m);
    }
    assert Distinct(members[l] + [i]);
    assert forall l': nat, m: nat :: Lists(members', l', m) <==> Lists(members, l', m) || (l' == l && m == i);
  }

  lemma LeadCluster(c: Chain, leaders: map<int, nat>, members: map<nat, seq<nat>>, excluded: set<nat>, i: nat)
    requires ClusterIndex(c, leaders, members, excluded, i) && i < |c.funcs|
    requires i !in excluded && c.funcs[i].cluster != 0 && c.funcs[i].cluster !in leaders
    ensures ClusterIndex(c, leaders[c.funcs[i].cluster := i], members[i := [i]], excluded, i + 1)
  {
    var members' := members[i := [i]];
    forall l: nat, m: nat ensures Lists(members', l, m) <==> Lists(members, l, m) || (l == i && m == i) {
      assert i !in members;
    }
    assert Distinct(members'[i]);
  }

  lemma NoCluster(c: Chain, leaders: map<int, nat>, members: map<nat, seq<nat>>, excluded: set<nat>, i: nat)
    requires ClusterIndex(c, leaders, members, excluded, i) && i < |c.funcs|
    requires i in excluded || c.funcs[i].cluster == 0
    ensures ClusterIndex(c, leaders, members, excluded, i + 1)
  {
  }

  lemma ClustersComplete(c: Chain, leaders: map<int, nat>, members: map<nat, seq<nat>>, excluded: set<nat>)
    requires ClusterIndex(c, leaders, members, excluded, |c.funcs|)
    ensures ClustersFormed(c, members, excluded)
  {
  }

  // Protected providers survive in the largest self-sustaining part.
  lemma ProtectedStay(c: Chain, d: seq<Links>, wanted: set<nat>, before: set<nat>, after: set<nat>, x: nat)
    requires SelfSustaining(c, d, wanted, after) && after <= before && |d| == |c.funcs|
    requires forall s :: SelfSustaining(c, d, wanted, s) && s <= before ==> s <= after
    requires x < |c.funcs| && x in before && Protected(c, wanted, x)
    ensures x in after
  {
    forall y | y in after && SomeIn(d[y].usedBy, after) ensures SomeIn(d[y].usedBy, after + {x}) {
      var p :| p in d[y].usedBy && p in after;
      assert p in after + {x};
    }
    assert SelfSustaining(c, d, wanted, after + {x});
  }
}
