/**
 What the inclusion solver is meant to decide, stated without any algorithm: which provider can
 supply which type to which other provider, when a set of providers is self-consistent, and the
 greatest self-consistent subset of a set of candidates.
 */
module FlowGraph {
  import opened Basics

  datatype Flow = Returns | Outputs | Inputs | Received | Bypass

  // The annotations and flows of one provider as characterize.go leaves them.  'hasOutputFlow' is
  // false when the class of the provider has no output list at all (a nil list, not an empty one).
  datatype Provider = Provider(
    isInvoke: bool,
    required: bool,
    desired: bool,
    shun: bool,
    cluster: int,
    mustConsume: Option<set<TypeCode>>,
    consumptionOptional: Option<set<TypeCode>>,
    hasOutputFlow: bool,
    outputs: seq<TypeCode>,
    inputs: seq<TypeCode>,
    returned: seq<TypeCode>,
    received: seq<TypeCode>,
    bypass: seq<TypeCode>)

  // A chain of providers; 'init' is the position of the init function, if there is one.  The flows of
  // the providers that reordering has given up are ignored until that is forgotten.
  datatype Chain = Chain(funcs: seq<Provider>, init: Option<nat>, invoke: nat, givenUp: set<nat>)

  function NobodyGivenUp(c: Chain): Chain {
    c.(givenUp := {})
  }

  ghost predicate WellFormed(c: Chain) {
    && c.invoke < |c.funcs|
    && c.funcs[c.invoke].required
    && (forall i | 0 <= i < |c.funcs| :: c.funcs[i].isInvoke <==> i == c.invoke)
    && (c.init.Some? ==> c.init.value < |c.funcs| && c.funcs[c.init.value].required)
    && c.invoke !in c.givenUp && (c.init.Some? ==> c.init.value !in c.givenUp)
  }

  function Positions(c: Chain): set<nat> {
    UpTo(|c.funcs|)
  }

  function FlowOf(p: Provider, f: Flow): seq<TypeCode> {
    match f
    case Returns => p.returned
    case Outputs => p.outputs
    case Inputs => p.inputs
    case Received => p.received
    case Bypass => p.bypass
  }

  // Values received on 'f' are sent by the suppliers on this flow.
  function Opposite(f: Flow): Flow {
    if f == Received then Returns else Outputs
  }

  // Provider 'j' can supply type 'tc' to flow 'f' of provider 'i'.
  ghost predicate Supplies(c: Chain, j: nat, i: nat, f: Flow, tc: TypeCode) {
    && j < |c.funcs| && i < |c.funcs| && tc != NO_TYPE && j !in c.givenUp && i !in c.givenUp
    && match f
       case Inputs => j < i && tc in c.funcs[j].outputs && tc in c.funcs[i].inputs
       case Bypass => c.init == Some(i) && j < c.invoke && tc in c.funcs[j].outputs && tc in c.funcs[i].bypass
       case Received => i < j && tc in c.funcs[j].returned && tc in c.funcs[i].received
       case _ => false
  }

  ghost predicate Needs(c: Chain, i: nat, f: Flow, tc: TypeCode) {
    && i < |c.funcs| && tc != NO_TYPE && i !in c.givenUp
    && match f
       case Inputs => tc in c.funcs[i].inputs
       case Bypass => c.init == Some(i) && tc in c.funcs[i].bypass
       case Received => tc in c.funcs[i].received
       case _ => false
  }

  // The provider's consumption rules apply to flow 'f' (include.go keeps this as mustConsumeFlow).
  predicate MustConsumeFlow(p: Provider, f: Flow) {
    match f
    case Outputs => p.mustConsume.Some?
    case Returns => p.consumptionOptional.None?
    case _ => false
  }

  // What provider 'i' sends of type 'tc' on flow 'o' must reach somebody.
  predicate MustBeConsumed(p: Provider, o: Flow, tc: TypeCode) {
    && tc != UNUSED
    && match o
       case Outputs => p.mustConsume.Some? && tc in p.mustConsume.value && tc in p.outputs
       case Returns => p.consumptionOptional.None? && tc in p.returned
       case _ => false
  }

  ghost predicate SourcedIn(c: Chain, s: set<nat>, i: nat, f: Flow, tc: TypeCode) {
    exists j :: j in s && Supplies(c, j, i, f, tc)
  }

  ghost predicate ConsumedIn(c: Chain, s: set<nat>, i: nat, o: Flow, tc: TypeCode) {
    exists k, f :: k in s && Opposite(f) == o && Supplies(c, i, k, f, tc)
  }

  ghost predicate LocallyConsistent(c: Chain, s: set<nat>, i: nat)
    requires i < |c.funcs|
  {
    && (forall f, tc :: Needs(c, i, f, tc) ==> SourcedIn(c, s, i, f, tc))
    && (forall o, tc :: MustBeConsumed(c.funcs[i], o, tc) ==> ConsumedIn(c, s, i, o, tc))
  }

  // Everybody in 's' finds its inputs and its obligatory consumers inside 's'.
  ghost predicate Consistent(c: Chain, s: set<nat>) {
    && (forall i :: i in s ==> i < |c.funcs|)
    && (forall i :: i in s ==> LocallyConsistent(c, s, i))
  }

  ghost function Greatest(c: Chain, candidates: set<nat>): set<nat> {
    set i | i in candidates && InConsistentSubset(c, candidates, i)
  }

  ghost predicate InConsistentSubset(c: Chain, candidates: set<nat>, i: nat) {
    exists s :: Consistent(c, s) && s <= candidates && i in s
  }

  // A set of candidates is valid when its greatest consistent subset keeps whatever may not go.
  ghost predicate Valid(c: Chain, candidates: set<nat>, wanted: set<nat>, canRemoveDesired: bool) {
    && (forall i: nat :: i < |c.funcs| && c.funcs[i].required ==> i in Greatest(c, candidates))
    && (!canRemoveDesired ==>
          forall i :: i in candidates && i < |c.funcs| && (c.funcs[i].desired || i in wanted) ==>
            i in Greatest(c, candidates))
  }

  // Who may not be dropped for want of users.
  predicate Protected(c: Chain, wanted: set<nat>, x: nat)
    requires x < |c.funcs|
  {
    c.funcs[x].required || c.funcs[x].desired || x in wanted || c.funcs[x].cluster != 0
  }

  // The members of a set below 'n', in ascending order.
  function Ascending(n: nat, s: set<nat>): (list: seq<nat>)
    ensures forall x: nat :: x in list <==> x < n && x in s
    ensures forall i :: 0 <= i < |list| ==> list[i] < n
    ensures forall i, j :: 0 <= i < j < |list| ==> list[i] < list[j]
  {
    if n == 0 then [] else Ascending(n - 1, s) + if n - 1 in s then [n - 1] else []
  }

  lemma LocallyConsistentMonotone(c: Chain, s: set<nat>, t: set<nat>, i: nat)
    requires i < |c.funcs| && s <= t && LocallyConsistent(c, s, i)
    ensures LocallyConsistent(c, t, i)
  {
    forall f, tc | Needs(c, i, f, tc) ensures SourcedIn(c, t, i, f, tc) {
      assert SourcedIn(c, s, i, f, tc);
    }
    forall o, tc | MustBeConsumed(c.funcs[i], o, tc) ensures ConsumedIn(c, t, i, o, tc) {
      assert ConsumedIn(c, s, i, o, tc);
    }
  }

  // The greatest consistent subset is itself consistent, and contains every consistent subset.
  lemma GreatestIsGreatest(c: Chain, candidates: set<nat>)
    ensures Greatest(c, candidates) <= candidates
    ensures Consistent(c, Greatest(c, candidates))
    ensures forall s :: Consistent(c, s) && s <= candidates ==> s <= Greatest(c, candidates)
  {
    var g := Greatest(c, candidates);
    forall s | Consistent(c, s) && s <= candidates ensures s <= g {
      forall i | i in s ensures i in g {
        assert InConsistentSubset(c, candidates, i);
      }
    }
    forall i | i in g ensures i < |c.funcs| && LocallyConsistent(c, g, i) {
      var s :| Consistent(c, s) && s <= candidates && i in s;
      LocallyConsistentMonotone(c, s, g, i);
    }
  }

  lemma ConsistentIsOwnGreatest(c: Chain, s: set<nat>)
    requires Consistent(c, s)
    ensures Greatest(c, s) == s
  {
    GreatestIsGreatest(c, s);
  }

  lemma GreatestMonotone(c: Chain, small: set<nat>, large: set<nat>)
    requires small <= large
    ensures Greatest(c, small) <= Greatest(c, large)
  {
    GreatestIsGreatest(c, small);
    GreatestIsGreatest(c, large);
  }

  // Whatever makes a set of candidates invalid makes every smaller one invalid too, as long as no
  // desired or wanted candidate is among those taken away.
  lemma InvalidityIsInherited(c: Chain, small: set<nat>, large: set<nat>, wanted: set<nat>, canRemoveDesired: bool)
    requires small <= large
    requires forall i :: i in large && i < |c.funcs| && (c.funcs[i].desired || i in wanted) ==> i in small
    requires !Valid(c, large, wanted, canRemoveDesired)
    ensures !Valid(c, small, wanted, canRemoveDesired)
  {
    GreatestMonotone(c, small, large);
  }

  // Candidates are valid exactly if one self-consistent set of them holds whoever may not go.
  lemma ValidExactlyIf(c: Chain, candidates: set<nat>, wanted: set<nat>, canRemoveDesired: bool)
    ensures Valid(c, candidates, wanted, canRemoveDesired) <==>
              exists s :: Consistent(c, s) && s <= candidates
                          && (forall i: nat :: i < |c.funcs| && c.funcs[i].required ==> i in s)
                          && (!canRemoveDesired ==>
                                forall i :: i in candidates && i < |c.funcs| && (c.funcs[i].desired || i in wanted) ==>
                                  i in s)
  {
    hide Consistent, Greatest;
    GreatestIsGreatest(c, candidates);
    if Valid(c, candidates, wanted, canRemoveDesired) {
      assert Consistent(c, Greatest(c, candidates));
    }
  }

  // What self-consistent means, type by type.  What goes down comes from before, also for the results of the init
  // function, which must be there before the invoke function; what comes up comes from behind.  Somebody must take
  // what must be consumed.  Providers that have been given up neither take nor supply anything.
  lemma ConsistentExactlyIf(c: Chain, s: set<nat>)
    ensures Consistent(c, s) <==> forall i :: i in s ==>
              && i < |c.funcs|
              && (i !in c.givenUp ==>
                    && (forall t :: t in c.funcs[i].inputs && t != NO_TYPE ==>
                          exists j :: j in s && j < i && j !in c.givenUp && t in c.funcs[j].outputs)
                    && (forall t :: c.init == Some(i) && t in c.funcs[i].bypass && t != NO_TYPE ==>
                          exists j :: j in s && j < c.invoke && j < |c.funcs| && j !in c.givenUp
                                      && t in c.funcs[j].outputs)
                    && (forall t :: t in c.funcs[i].received && t != NO_TYPE ==>
                          exists j :: j in s && i < j < |c.funcs| && j !in c.givenUp && t in c.funcs[j].returned))
              && (forall t :: c.funcs[i].mustConsume.Some? && t in c.funcs[i].mustConsume.value
                              && t in c.funcs[i].outputs && t != UNUSED ==>
                    ConsumedBelow(c, s, i, t))
              && (forall t :: c.funcs[i].consumptionOptional.None? && t in c.funcs[i].returned && t != UNUSED ==>
                    ConsumedAbove(c, s, i, t))
  {
    hide *;
    forall i | i in s && i < |c.funcs| ensures LocallyConsistent(c, s, i) <==>
        && SuppliedTypes(c, s, i)
        && (forall t :: c.funcs[i].mustConsume.Some? && t in c.funcs[i].mustConsume.value
                        && t in c.funcs[i].outputs && t != UNUSED ==>
              ConsumedBelow(c, s, i, t))
        && (forall t :: c.funcs[i].consumptionOptional.None? && t in c.funcs[i].returned && t != UNUSED ==>
              ConsumedAbove(c, s, i, t))
    {
      LocallyExactlyIf(c, s, i);
    }
    ConsistentIs(c, s);
    SuppliedTypesAre(c, s);
  }

  // Some provider further down, or the init function, takes what 'i' sends.
  ghost predicate ConsumedBelow(c: Chain, s: set<nat>, i: nat, t: TypeCode) {
    t != NO_TYPE && i !in c.givenUp
    && exists k :: k in s && k < |c.funcs| && k !in c.givenUp
                   && ((i < k && t in c.funcs[k].inputs)
                       || (c.init == Some(k) && i < c.invoke && t in c.funcs[k].bypass))
  }

  // Some provider further up receives what 'i' returns.
  ghost predicate ConsumedAbove(c: Chain, s: set<nat>, i: nat, t: TypeCode) {
    t != NO_TYPE && i !in c.givenUp
    && exists k :: k in s && k < i && k < |c.funcs| && k !in c.givenUp && t in c.funcs[k].received
  }

  ghost predicate SuppliedTypes(c: Chain, s: set<nat>, i: nat)
    requires i < |c.funcs|
  {
    i !in c.givenUp ==>
      && (forall t :: t in c.funcs[i].inputs && t != NO_TYPE ==>
            exists j :: j in s && j < i && j !in c.givenUp && t in c.funcs[j].outputs)
      && (forall t :: c.init == Some(i) && t in c.funcs[i].bypass && t != NO_TYPE ==>
            exists j :: j in s && j < c.invoke && j < |c.funcs| && j !in c.givenUp && t in c.funcs[j].outputs)
      && (forall t :: t in c.funcs[i].received && t != NO_TYPE ==>
            exists j :: j in s && i < j < |c.funcs| && j !in c.givenUp && t in c.funcs[j].returned)
  }

  lemma SuppliedTypesAre(c: Chain, s: set<nat>)
    ensures forall i: nat :: i < |c.funcs| ==>
              (SuppliedTypes(c, s, i) <==>
                 (i !in c.givenUp ==>
                    && (forall t :: t in c.funcs[i].inputs && t != NO_TYPE ==>
                          exists j :: j in s && j < i && j !in c.givenUp && t in c.funcs[j].outputs)
                    && (forall t :: c.init == Some(i) && t in c.funcs[i].bypass && t != NO_TYPE ==>
                          exists j :: j in s && j < c.invoke && j < |c.funcs| && j !in c.givenUp
                                      && t in c.funcs[j].outputs)
                    && (forall t :: t in c.funcs[i].received && t != NO_TYPE ==>
                          exists j :: j in s && i < j < |c.funcs| && j !in c.givenUp && t in c.funcs[j].returned)))
  {
  }

  lemma ConsistentIs(c: Chain, s: set<nat>)
    ensures Consistent(c, s) <==> forall i :: i in s ==> i < |c.funcs| && LocallyConsistent(c, s, i)
  {
    hide LocallyConsistent;
  }

  lemma LocallyExactlyIf(c: Chain, s: set<nat>, i: nat)
    requires i < |c.funcs|
    ensures LocallyConsistent(c, s, i) <==>
              && SuppliedTypes(c, s, i)
              && (forall t :: c.funcs[i].mustConsume.Some? && t in c.funcs[i].mustConsume.value
                              && t in c.funcs[i].outputs && t != UNUSED ==>
                    ConsumedBelow(c, s, i, t))
              && (forall t :: c.funcs[i].consumptionOptional.None? && t in c.funcs[i].returned && t != UNUSED ==>
                    ConsumedAbove(c, s, i, t))
  {
    forall t ensures ConsumedIn(c, s, i, Outputs, t) <==> t in c.funcs[i].outputs && ConsumedBelow(c, s, i, t) {
      BelowMeans(c, s, i, t);
    }
    forall t ensures ConsumedIn(c, s, i, Returns, t) <==> t in c.funcs[i].returned && ConsumedAbove(c, s, i, t) {
      AboveMeans(c, s, i, t);
    }
    forall o, t ensures MustBeConsumed(c.funcs[i], o, t) ==> o == Outputs || o == Returns {
    }
    NeedsMean(c, s, i);
    hide ConsumedIn, ConsumedBelow, ConsumedAbove, SourcedIn, Needs, SuppliedTypes;
  }

  lemma BelowMeans(c: Chain, s: set<nat>, i: nat, t: TypeCode)
    requires i < |c.funcs|
    ensures ConsumedIn(c, s, i, Outputs, t) <==> t in c.funcs[i].outputs && ConsumedBelow(c, s, i, t)
  {
    if t in c.funcs[i].outputs && ConsumedBelow(c, s, i, t) {
      var k :| k in s && k < |c.funcs| && k !in c.givenUp
               && ((i < k && t in c.funcs[k].inputs) || (c.init == Some(k) && i < c.invoke && t in c.funcs[k].bypass));
      assert Supplies(c, i, k, Inputs, t) || Supplies(c, i, k, Bypass, t);
      assert Opposite(Inputs) == Outputs && Opposite(Bypass) == Outputs;
    }
  }

  lemma AboveMeans(c: Chain, s: set<nat>, i: nat, t: TypeCode)
    requires i < |c.funcs|
    ensures ConsumedIn(c, s, i, Returns, t) <==> t in c.funcs[i].returned && ConsumedAbove(c, s, i, t)
  {
    if t in c.funcs[i].returned && ConsumedAbove(c, s, i, t) {
      var k :| k in s && k < i && k < |c.funcs| && k !in c.givenUp && t in c.funcs[k].received;
      assert Supplies(c, i, k, Received, t);
      assert Opposite(Received) == Returns;
    }
  }

  lemma NeedsMean(c: Chain, s: set<nat>, i: nat)
    requires i < |c.funcs|
    ensures SuppliedTypes(c, s, i) <==> forall f, t :: Needs(c, i, f, t) ==> SourcedIn(c, s, i, f, t)
  {
    if forall f, t :: Needs(c, i, f, t) ==> SourcedIn(c, s, i, f, t) {
      forall t | i !in c.givenUp && t in c.funcs[i].inputs && t != NO_TYPE
        ensures exists j :: j in s && j < i && j !in c.givenUp && t in c.funcs[j].outputs
      {
        assert Needs(c, i, Inputs, t);
      }
      forall t | i !in c.givenUp && c.init == Some(i) && t in c.funcs[i].bypass && t != NO_TYPE
        ensures exists j :: j in s && j < c.invoke && j < |c.funcs| && j !in c.givenUp && t in c.funcs[j].outputs
      {
        assert Needs(c, i, Bypass, t);
      }
      forall t | i !in c.givenUp && t in c.funcs[i].received && t != NO_TYPE
        ensures exists j :: j in s && i < j < |c.funcs| && j !in c.givenUp && t in c.funcs[j].returned
      {
        assert Needs(c, i, Received, t);
      }
    }
    if SuppliedTypes(c, s, i) {
      forall f, t | Needs(c, i, f, t) ensures SourcedIn(c, s, i, f, t) {
        var j := SupplierOf(c, s, i, f, t);
        assert Supplies(c, j, i, f, t);
      }
    }
  }

  lemma SupplierOf(c: Chain, s: set<nat>, i: nat, f: Flow, t: TypeCode) returns (j: nat)
    requires i < |c.funcs| && SuppliedTypes(c, s, i) && Needs(c, i, f, t)
    ensures j in s && Supplies(c, j, i, f, t)
  {
    match f
    case Inputs => j :| j in s && j < i && j !in c.givenUp && t in c.funcs[j].outputs;
    case Bypass =>
      j :| j in s && j < c.invoke && j < |c.funcs| && j !in c.givenUp && t in c.funcs[j].outputs;
    case Received => j :| j in s && i < j < |c.funcs| && j !in c.givenUp && t in c.funcs[j].returned;
  }

  lemma ValidOnlyLooksAtCandidates(c: Chain, candidates: set<nat>, wanted: set<nat>, wanted': set<nat>)
    requires forall i :: i in candidates ==> (i in wanted <==> i in wanted')
    ensures Valid(c, candidates, wanted, false) <==> Valid(c, candidates, wanted', false)
  {
  }

  // Among providers none of which has been given up it does not matter who has.
  lemma GivenUpAside(c: Chain, s: set<nat>)
    requires s !! c.givenUp
    ensures Consistent(NobodyGivenUp(c), s) <==> Consistent(c, s)
  {
    var c' := NobodyGivenUp(c);
    forall i | i in s && i < |c.funcs| ensures LocallyConsistent(c', s, i) <==> LocallyConsistent(c, s, i) {
      assert forall f, tc :: Needs(c', i, f, tc) <==> Needs(c, i, f, tc);
      forall f, tc ensures SourcedIn(c', s, i, f, tc) <==> SourcedIn(c, s, i, f, tc) {
        assert forall j :: j in s ==> (Supplies(c', j, i, f, tc) <==> Supplies(c, j, i, f, tc));
      }
      forall o, tc ensures ConsumedIn(c', s, i, o, tc) <==> ConsumedIn(c, s, i, o, tc) {
        assert forall k, f :: k in s ==> (Supplies(c', i, k, f, tc) <==> Supplies(c, i, k, f, tc));
      }
    }
  }

  lemma ValidWithoutGivenUp(c: Chain, candidates: set<nat>, wanted: set<nat>, canRemoveDesired: bool)
    requires candidates !! c.givenUp
    ensures Greatest(NobodyGivenUp(c), candidates) == Greatest(c, candidates)
    ensures Valid(NobodyGivenUp(c), candidates, wanted, canRemoveDesired) <==>
              Valid(c, candidates, wanted, canRemoveDesired)
  {
    hide Consistent;
    var c' := NobodyGivenUp(c);
    forall i ensures InConsistentSubset(c', candidates, i) <==> InConsistentSubset(c, candidates, i) {
      forall s | s <= candidates ensures Consistent(c', s) <==> Consistent(c, s) {
        GivenUpAside(c, s);
      }
    }
  }

  lemma ValidCanRemove(c: Chain, candidates: set<nat>, wanted: set<nat>)
    requires Valid(c, candidates, wanted, false)
    ensures Valid(c, candidates, wanted, true)
  {
  }

  ghost function Members(list: seq<nat>): set<nat> {
    set x | x in list
  }

  const WANTED: TypeCode := 4

  function Simple(isInvoke: bool, required: bool, inputs: seq<TypeCode>, outputs: seq<TypeCode>): Provider {
    Provider(isInvoke, required, false, false, 0, None, None, true, outputs, inputs, [], [], [])
  }

  // A required provider that has been given up and lacks an input: the first validation does not notice,
  // the last one does.
  const LACKING: Chain := Chain([Simple(false, true, [WANTED], []), Simple(true, true, [], [])], None, 1, {0})

  lemma NoticedTooLate()
    ensures WellFormed(LACKING) && Positions(LACKING) == {0, 1}
    ensures Valid(LACKING, {0, 1}, {}, true) && !Valid(NobodyGivenUp(LACKING), {0, 1}, {}, true)
  {
    assert UpTo(2) == {0, 1};
    assert Consistent(LACKING, {0, 1});
    ConsistentIsOwnGreatest(LACKING, {0, 1});
    Unsourced(NobodyGivenUp(LACKING), {0, 1}, 0, Inputs, WANTED);
  }

  // Nobody can supply the type.
  lemma Unsourced(c: Chain, candidates: set<nat>, i: nat, f: Flow, tc: TypeCode)
    requires Needs(c, i, f, tc) && forall j :: !Supplies(c, j, i, f, tc)
    ensures i !in Greatest(c, candidates)
  {
    GreatestIsGreatest(c, candidates);
    assert !SourcedIn(c, Greatest(c, candidates), i, f, tc);
  }

  // A supplier that has been given up is missed, although nothing is wrong with it.
  const MISSED: Chain := Chain(
    [Simple(false, false, [], [WANTED]), Simple(false, true, [WANTED], []), Simple(true, true, [], [])],
    None, 2, {0})

  lemma SupplierMissed()
    ensures WellFormed(MISSED) && Positions(MISSED) == {0, 1, 2}
    ensures !Valid(MISSED, {0, 1, 2}, {}, true) && Valid(NobodyGivenUp(MISSED), {0, 1, 2}, {}, true)
  {
    assert UpTo(3) == {0, 1, 2};
    Unsourced(MISSED, {0, 1, 2}, 1, Inputs, WANTED);
    EverybodySupplied();
    ConsistentIsOwnGreatest(NobodyGivenUp(MISSED), {0, 1, 2});
  }

  lemma EverybodySupplied()
    ensures Consistent(NobodyGivenUp(MISSED), {0, 1, 2})
  {
    var c, s := NobodyGivenUp(MISSED), {0, 1, 2};
    assert Supplies(c, 0, 1, Inputs, WANTED);
    assert SourcedIn(c, s, 1, Inputs, WANTED);
    forall i | i in s ensures LocallyConsistent(c, s, i) {
      assert forall f, tc :: Needs(c, i, f, tc) ==> i == 1 && f == Inputs && tc == WANTED;
    }
  }
}
