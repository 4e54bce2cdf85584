/**
 include.go: which providers of a chain stay in it.  The boolean fields of the providers are kept as
 sets of chain positions, the includeWorkingData records in the sequence 'd'.
 */
module Include {
  import opened Basics
  import opened FlowGraph
  import opened LinkTables
  import opened Elimination
  import opened Preferences

  // The results of computeDependenciesAndInclusion: an error for an invalid chain, and the two
  // errors that the code itself calls internal.
  datatype Outcome = Accepted | Invalid | Internal | UhOh | UhOh2

  class Includer {
    // The chain; 'givenUp' are the marks reordering has left, until they are forgotten.
    var c: Chain
    var included: set<nat>
    var cannotInclude: set<nat>
    var excluded: set<nat>
    var wanted: set<nat>
    var wantedInCluster: set<nat>
    var clusterMembers: map<nat, seq<nat>>
    var d: seq<Links>

    constructor (c: Chain)
      ensures this.c == c
      ensures included == {} && cannotInclude == {} && excluded == {}
      ensures wanted == {} && wantedInCluster == {} && clusterMembers == map[]
    {
      this.c := c;
      included, cannotInclude, excluded := {}, {}, {};
      wanted, wantedInCluster, clusterMembers := {}, {}, map[];
      d := [];
    }

    method AddDependency(e: Edge, ghost es: iset<Edge>, ghost unmet: iset<(nat, Key)>)
      requires Records(c, d, es, unmet)
      requires e.dep < |c.funcs| && e.user < |c.funcs| && e.flow in {Inputs, Bypass, Received}
      modifies this`d
      ensures Records(c, d, es + iset{e}, unmet)
      ensures DetailAdded(old(d), d, e.user, Key(e.flow, e.tc), [e.dep])
    {
      AddingAnEdge(c, d, es, unmet, e);
      OneAdded(c, d, e);
      d := AddUse(d, e);
      d := AddUsedBy(d, e);
      d := AddObligation(c, d, e);
    }

    // The innermost loop of requireParameters: one type, every provider it can come from.
    method AddDependencies(user: nat, f: Flow, tc: TypeCode, dependsOn: seq<nat>,
                           ghost es: iset<Edge>, ghost unmet: iset<(nat, Key)>)
      requires user < |c.funcs| && f in {Inputs, Bypass, Received}
      requires forall j :: j in dependsOn ==> j < |c.funcs|
      requires Records(c, d, es, unmet)
      modifies this`d
      ensures Records(c, d, es + EdgesFrom(user, f, tc, dependsOn), unmet)
      ensures user < |old(d)| && DetailAdded(old(d), d, user, Key(f, tc), dependsOn)
    {
      RecordsLength(c, d, es, unmet);
      NoneAdded(d, user, Key(f, tc));
      hide Records, DetailAdded, EdgesFrom;
      NoEdgesFrom(es, user, f, tc);
      assert dependsOn[..0] == [];
      for j := 0 to |dependsOn|
        invariant Records(c, d, es + EdgesFrom(user, f, tc, dependsOn[..j]), unmet)
        invariant DetailAdded(old(d), d, user, Key(f, tc), dependsOn[..j])
      {
        RecordsLength(c, d, es + EdgesFrom(user, f, tc, dependsOn[..j]), unmet);
        ghost var d1 := d;
        ghost var before := es + EdgesFrom(user, f, tc, dependsOn[..j]);
        assert dependsOn[j] in dependsOn;
        AddDependency(Edge(dependsOn[j], user, f, tc), before, unmet);
        AddedInTurn(old(d), d1, d, user, Key(f, tc), dependsOn[..j], dependsOn[j]);
        assert dependsOn[..j + 1] == dependsOn[..j] + [dependsOn[j]];
        OneMoreEdge(es, user, f, tc, dependsOn, j);
      }
      assert dependsOn[..|dependsOn|] == dependsOn;
    }

    // One round of the loop of requireParameters: a type either has suppliers or is recorded as unmet.  It is
    // an internal error if it is listed without suppliers.
    method RequireType(user: nat, tc: TypeCode, available: Available, f: Flow,
                       ghost es: iset<Edge>, ghost unmet: iset<(nat, Key)>) returns (ok: bool)
      requires user < |c.funcs| && f in {Inputs, Bypass, Received}
      requires forall t, j: nat :: Offers(available, t, j) ==> j < |c.funcs|
      requires Records(c, d, es, unmet) && InOrder(d)
      requires Ordered(available, f != Received) && NoneOrAll(es, user, f, tc, available)
      modifies this`d
      ensures ok <==> !EmptyFor(available, tc)
      ensures ok ==> InOrder(d)
      ensures ok ==>
                Records(c, d, if tc != NO_TYPE && tc in available then es + EdgesFrom(user, f, tc, available[tc])
                        else es,
                        if tc != NO_TYPE && tc !in available then unmet + iset{(user, Key(f, tc))} else unmet)
    {
      if tc == NO_TYPE {
      } else if tc !in available {
        AddUnmet(c, d, es, unmet, user, Key(f, tc));
        SameDetail(d, user, d[user].usesError + {Key(f, tc)});
        d := d[user := d[user].(usesError := d[user].usesError + {Key(f, tc)})];
      } else if available[tc] == [] {
        return false;
      } else {
        assert forall j :: j in available[tc] ==> Offers(available, tc, j);
        ghost var d0 := d;
        AddedFits(c, d, es, unmet, user, f, tc, available);
        AddDependencies(user, f, tc, available[tc], es, unmet);
        StaysInOrder(d0, d, user, Key(f, tc), available[tc]);
      }
      return true;
    }

    method RequireParameters(user: nat, available: Available, f: Flow,
                             ghost es: iset<Edge>, ghost unmet: iset<(nat, Key)>) returns (ok: bool)
      requires user < |c.funcs| && f in {Inputs, Bypass, Received}
      requires forall tc, j: nat :: Offers(available, tc, j) ==> j < |c.funcs|
      requires Records(c, d, es, unmet) && InOrder(d)
      requires Ordered(available, f != Received) && NotYet(es, user, f)
      modifies this`d
      ensures ok <==> forall tc :: tc in FlowOf(c.funcs[user], f) ==> !EmptyFor(available, tc)
      ensures ok ==> InOrder(d)
      ensures ok ==> Records(c, d, es + NewEdges(c, user, f, available, |FlowOf(c.funcs[user], f)|),
                             unmet + NewUnmet(c, user, f, available, |FlowOf(c.funcs[user], f)|))
    {
      hide Records, EmptyFor, InOrder, Ordered, NoneOrAll, NotYet;
      var flow := FlowOf(c.funcs[user], f);
      assert es + NewEdges(c, user, f, available, 0) == es;
      assert unmet + NewUnmet(c, user, f, available, 0) == unmet;
      for k := 0 to |flow|
        invariant Records(c, d, es + NewEdges(c, user, f, available, k), unmet + NewUnmet(c, user, f, available, k))
        invariant InOrder(d)
        invariant forall l :: 0 <= l < k ==> !EmptyFor(available, flow[l])
      {
        ghost var es0 := es + NewEdges(c, user, f, available, k);
        ghost var unmet0 := unmet + NewUnmet(c, user, f, available, k);
        NextRequirement(c, user, f, available, k, es, unmet);
        AddedBefore(c, user, f, available, k, es);
        ok := RequireType(user, flow[k], available, f, es0, unmet0);
        if !ok {
          return;
        }
      }
      return true;
    }

    // Adds one provider's sends to the map of what is available.
    method ProvideParameters(j: nat, available: Available, o: Flow, ghost live: set<nat>, ghost lo: nat, ghost hi: nat)
      returns (m: Available)
      requires j < |c.funcs| && j in live
      requires Holds(c, live, available, o, lo, hi)
      requires lo <= hi && (j == hi || j + 1 == lo) && Ordered(available, j == hi)
      ensures Holds(c, live, m, o, if j == hi then lo else j, if j == hi then hi + 1 else hi)
      ensures Ordered(m, j == hi)
    {
      hide OffersToo;
      m := available;
      forall tc, k: nat | tc in m && k < |m[tc]| ensures lo <= m[tc][k] < hi {
        var x: nat := m[tc][k];
        assert Offers(m, tc, x);
      }
      NothingMore(available, j);
      hide Holds, Offers;
      var flow := FlowOf(c.funcs[j], o);
      for k := 0 to |flow|
        invariant OffersToo(available, j, flow[..k], m)
        invariant Ordered(m, j == hi)
        invariant forall tc, k: nat :: tc in m && k < |m[tc]| ==> m[tc][k] == j || lo <= m[tc][k] < hi
      {
        var tc := flow[k];
        assert flow[..k + 1] == flow[..k] + [tc];
        OfferedToo(available, j, flow[..k], m, tc);
        if tc != NO_TYPE {
          m := m[tc := (if tc in m then m[tc] else []) + [j]];
        }
      }
      assert flow[..|flow|] == flow;
      AllOffered(c, live, available, o, lo, hi, j, m);
    }
  
    // One flow of one provider, looked up in an accurate map.
    method RequireFlow(user: nat, available: Available, f: Flow, ghost live: set<nat>, ghost lo: nat, ghost hi: nat,
                       ghost es: iset<Edge>, ghost unmet: iset<(nat, Key)>) returns (ok: bool)
      requires user < |c.funcs| && user in live
      requires Holds(c, live, available, Opposite(f), lo, hi)
      requires f == Inputs ==> lo == 0 && hi == user
      requires f == Bypass ==> c.init == Some(user) && lo == 0 && hi == c.invoke
      requires f == Received ==> lo == user + 1 && hi == |c.funcs|
      requires f in {Inputs, Bypass, Received} && live !! c.givenUp
      requires Records(c, d, es, unmet) && InOrder(d) && Ordered(available, f != Received) && NotYet(es, user, f)
      modifies this`d
      ensures !ok ==> ListedEmpty(c, live)
      ensures ok ==> Records(c, d, es + FlowEdges(c, live, user, f), unmet + FlowUnmet(c, live, user, f)) && InOrder(d)
    {
      hide Records, Holds, EmptyFor, InOrder, Ordered, NotYet;
      NewEdgesAreLive(c, live, user, f, available, lo, hi);
      HeldAreFuncs(c, live, available, Opposite(f), lo, hi);
      ok := RequireParameters(user, available, f, es, unmet);
      if !ok {
        ghost var tc :| EmptyFor(available, tc);
        assert Holds(c, live, available, Opposite(f), lo, hi) && EmptyFor(available, tc);
      }
    }

    // Computes which provider can get what from where, down the chain and then back up.
    method ProvidesReturns(ghost live: set<nat>) returns (ok: bool)
      requires WellFormed(c)
      requires forall i: nat :: i < |c.funcs| ==> (i in live <==> i !in cannotInclude)
      requires c.invoke in live && (c.init.Some? ==> c.init.value in live) && live !! c.givenUp
      modifies this`d
      ensures if ok then Linked(c, d, live) else ListedEmpty(c, live)
    {
      hide Records, Holds, InOrder, NotYet, ListedEmpty, EdgesSoFar, UnmetSoFar, FlowEdges, FlowUnmet;
      var n := |c.funcs|;
      d := seq(n, _ => NO_LINKS);
      PassesStartAndEnd(c, live);
      NothingRecorded(c);
      NothingInOrder(n);
      var provide: Available := map[];
      NothingHeld(c, live, Outputs, 0);
      for i := 0 to n
        invariant Holds(c, live, provide, Outputs, 0, i) && Ordered(provide, true)
        invariant Records(c, d, EdgesSoFar(c, live, i, n), UnmetSoFar(c, live, i, n)) && InOrder(d)
      {
        DownStep(c, live, i);
        NotYetDown(c, live, i);
        ghost var es, unmet := EdgesSoFar(c, live, i, n), UnmetSoFar(c, live, i, n);
        if i in cannotInclude {
          assert es + iset{} + iset{} == es && unmet + iset{} + iset{} == unmet;
          HoldsSkip(c, live, provide, Outputs, 0, i);
        } else {
          if c.funcs[i].isInvoke && c.init.Some? {
            ok := RequireFlow(c.init.value, provide, Bypass, live, 0, i, es, unmet);
            if !ok {
              return;
            }
            es, unmet := es + FlowEdges(c, live, c.init.value, Bypass),
                unmet + FlowUnmet(c, live, c.init.value, Bypass);
          } else {
            assert es + iset{} == es && unmet + iset{} == unmet;
          }
          ok := RequireFlow(i, provide, Inputs, live, 0, i, es, unmet);
          if !ok {
            return;
          }
          provide := ProvideParameters(i, provide, Outputs, live, 0, i);
        }
      }
      var returned: Available := map[];
      NothingHeld(c, live, Returns, n);
      for u := n downto 0
        invariant Holds(c, live, returned, Returns, u, n) && Ordered(returned, false)
        invariant Records(c, d, EdgesSoFar(c, live, n, u), UnmetSoFar(c, live, n, u)) && InOrder(d)
      {
        UpStep(c, live, u);
        NotYetUp(c, live, u);
        ghost var es, unmet := EdgesSoFar(c, live, n, u + 1), UnmetSoFar(c, live, n, u + 1);
        if u in cannotInclude {
          assert es + iset{} == es && unmet + iset{} == unmet;
          HoldsSkip(c, live, returned, Returns, u + 1, n);
        } else {
          ok := RequireFlow(u, returned, Received, live, u + 1, n, es, unmet);
          if !ok {
            return;
          }
          returned := ProvideParameters(u, returned, Returns, live, u + 1, n);
        }
      }
      return true;
    }
  
    method AnyIncluded(list: seq<nat>) returns (found: bool)
      ensures found <==> SomeIn(list, included)
    {
      for k := 0 to |list|
        invariant forall p :: p in list[..k] ==> p !in included
      {
        if list[k] in included {
          return true;
        }
        assert list[..k + 1] == list[..k] + [list[k]];
      }
      assert list[..|list|] == list;
      return false;
    }

    method SourcesAvailable(sources: Detail) returns (ok: bool)
      ensures ok <==> forall k :: k in sources ==> SomeIn(sources[k], included)
    {
      var todo := sources.Keys;
      while todo != {}
        invariant todo <= sources.Keys
        invariant forall k :: k in sources && k !in todo ==> SomeIn(sources[k], included)
      {
        var k :| k in todo;
        var found := AnyIncluded(sources[k]);
        if !found {
          return false;
        }
        todo := todo - {k};
      }
      return true;
    }

    method ConsumersAvailable(i: nat, o: Flow) returns (ok: bool)
      requires i < |c.funcs| == |d|
      ensures ok <==> ConsumersCheckOut(c, d, included, i, o)
    {
      var sent := FlowOf(c.funcs[i], o);
      if !MustConsumeFlow(c.funcs[i], o) {
        return true;
      }
      for k := 0 to |sent|
        invariant forall tc :: tc in sent[..k] && MustBeConsumed(c.funcs[i], o, tc) ==>
            Key(o, tc) in d[i].usedByDetail && SomeIn(d[i].usedByDetail[Key(o, tc)], included)
      {
        var tc := sent[k];
        assert sent[..k + 1] == sent[..k] + [tc];
        if MustBeConsumed(c.funcs[i], o, tc) {
          if Key(o, tc) !in d[i].usedByDetail {
            return false;
          }
          var found := AnyIncluded(d[i].usedByDetail[Key(o, tc)]);
          if !found {
            return false;
          }
        }
      }
      assert sent[..|sent|] == sent;
      return true;
    }

    // The body of checkFlows for a provider not yet ruled out.
    method CheckProvider(i: nat, ghost live: set<nat>) returns (ok: bool)
      requires i < |c.funcs| && Linked(c, d, live) && included <= live && i in included
      ensures ok <==> LocallyConsistent(c, included, i)
    {
      ChecksOutIsConsistent(c, d, live, included, i);
      hide Linked, LocallyConsistent;
      if d[i].usesError != {} {
        return false;
      }
      ok := SourcesAvailable(d[i].usesDetail);
      if ok {
        ok := ConsumersAvailable(i, Returns);
        if ok {
          ok := ConsumersAvailable(i, Outputs);
        }
      }
    }
  
    // What every visit of checkFlows keeps: nothing of the greatest consistent subset is ruled out,
    // and nothing that may not go has gone.
    ghost predicate Narrowing(candidates: set<nat>, canRemoveDesired: bool)
      reads this`c, this`included, this`cannotInclude, this`wanted
    {
      && included <= candidates
      && Greatest(c, candidates) !! cannotInclude
      && (forall i: nat :: i < |c.funcs| && i !in included ==> i in cannotInclude)
      && (forall i :: i in candidates && i < |c.funcs| && i !in included ==>
            && !c.funcs[i].required
            && (canRemoveDesired || !(c.funcs[i].desired || i in wanted)))
    }

    ghost predicate Settled(i: nat)
      reads this`c, this`included, this`cannotInclude
    {
      i < |c.funcs| && i !in cannotInclude && LocallyConsistent(c, included, i)
    }

    ghost function Undecided(): nat
      reads this`c, this`included, this`cannotInclude
    {
      |included| + |included - cannotInclude|
    }

    ghost predicate CanCheck(live: set<nat>, candidates: set<nat>)
      reads this`c, this`d, this`excluded
    {
      && Linked(c, d, live)
      && candidates <= live
      && (forall i: nat :: i < |c.funcs| ==> (i in candidates <==> i !in excluded))
      && (forall i :: i in candidates ==> i < |c.funcs|)
    }

    // One provider of the todo list.  'more' is what the visit queues for another look.
    method Visit(fm: nat, canRemoveDesired: bool, ghost live: set<nat>, ghost candidates: set<nat>)
      returns (ok: bool, more: seq<nat>)
      requires fm < |c.funcs| && CanCheck(live, candidates) && Narrowing(candidates, canRemoveDesired)
      modifies this`included, this`cannotInclude
      ensures !ok ==> !Valid(c, candidates, wanted, canRemoveDesired)
      ensures ok ==> Narrowing(candidates, canRemoveDesired)
      ensures included <= old(included) && old(cannotInclude) <= cannotInclude
      ensures forall x :: x in more ==> x < |c.funcs|
      ensures ok ==> forall x :: x in included && (x == fm || old(Settled(x))) ==> Settled(x) || x in more
      ensures ok ==> Undecided() <= old(Undecided()) && (more != [] ==> Undecided() < old(Undecided()))
    {
      if fm in cannotInclude {
        hide *;
        ok, more := LeaveOut(fm, canRemoveDesired, live, candidates);
      } else {
        ok, more := true, [];
        var fine := CheckProvider(fm, live);
        hide Linked, LocallyConsistent, Valid;
        if !fine {
          RulingOut(candidates, canRemoveDesired, fm);
          ghost var before := cannotInclude;
          cannotInclude := cannotInclude + {fm};
          more := [fm];
          assert included - cannotInclude == (included - before) - {fm};
        }
      }
    }

    // The provider has been ruled out: that is fatal if it may not go, and otherwise everybody who
    // may have relied on it is queued.
    method LeaveOut(fm: nat, canRemoveDesired: bool, ghost live: set<nat>, ghost candidates: set<nat>)
      returns (ok: bool, more: seq<nat>)
      requires fm < |c.funcs| && CanCheck(live, candidates) && Narrowing(candidates, canRemoveDesired)
      requires fm in cannotInclude
      modifies this`included, this`cannotInclude
      ensures !ok ==> !Valid(c, candidates, wanted, canRemoveDesired)
      ensures ok ==> Narrowing(candidates, canRemoveDesired)
      ensures included <= old(included) && old(cannotInclude) <= cannotInclude
      ensures forall x :: x in more ==> x < |c.funcs|
      ensures ok ==> forall x :: x in included && (x == fm || old(Settled(x))) ==> Settled(x) || x in more
      ensures ok ==> Undecided() <= old(Undecided()) && (more != [] ==> Undecided() < old(Undecided()))
    {
      ok, more := true, [];
      if c.funcs[fm].required {
        return false, [];
      }
      if (fm in wanted || c.funcs[fm].desired) && !canRemoveDesired && fm !in excluded {
        return false, [];
      }
      if fm in included {
        Leaving(live, candidates, fm);
        UsedByInRange(c, d, live, fm);
        hide Linked, LocallyConsistent, Valid;
        ghost var before := included;
        included := included - {fm};
        more := d[fm].usedBy;
        assert before - cannotInclude == included - cannotInclude;
      }
    }

    lemma Leaving(live: set<nat>, candidates: set<nat>, gone: nat)
      requires CanCheck(live, candidates) && included <= candidates && gone in included
      ensures forall x :: x in included && x != gone && Settled(x) ==>
                LocallyConsistent(c, included - {gone}, x) || x in d[gone].usedBy
    {
      forall x | x in included && x != gone && Settled(x) && !LocallyConsistent(c, included - {gone}, x)
        ensures x in d[gone].usedBy
      {
        UsedByIsComplete(c, d, live, included, gone, x);
      }
    }

    lemma RulingOut(candidates: set<nat>, canRemoveDesired: bool, i: nat)
      requires Narrowing(candidates, canRemoveDesired)
      requires i < |c.funcs| && !LocallyConsistent(c, included, i)
      ensures i !in Greatest(c, candidates)
    {
    }

    // One pass over the todo list.
    method CheckPass(todo: seq<nat>, canRemoveDesired: bool, ghost live: set<nat>, ghost candidates: set<nat>)
      returns (ok: bool, redo: seq<nat>)
      requires CanCheck(live, candidates) && Narrowing(candidates, canRemoveDesired)
      requires forall x :: x in todo ==> x < |c.funcs|
      requires forall x :: x in included ==> Settled(x) || x in todo
      modifies this`included, this`cannotInclude
      ensures included <= old(included)
      ensures !ok ==> !Valid(c, candidates, wanted, canRemoveDesired)
      ensures ok ==> Narrowing(candidates, canRemoveDesired)
      ensures forall x :: x in redo ==> x < |c.funcs|
      ensures ok ==> forall x :: x in included ==> Settled(x) || x in redo
      ensures ok ==> Undecided() <= old(Undecided()) && (redo != [] ==> Undecided() < old(Undecided()))
    {
      hide *;
      var seen: set<nat> := {};
      redo := [];
      for k := 0 to |todo|
        invariant Narrowing(candidates, canRemoveDesired) && CanCheck(live, candidates)
        invariant included <= old(included)
        invariant forall x :: x in redo ==> x < |c.funcs|
        invariant forall x :: x in included ==> Settled(x) || x in redo || (x in todo[k..] && x !in seen)
        invariant Undecided() <= old(Undecided()) && (redo != [] ==> Undecided() < old(Undecided()))
      {
        var fm := todo[k];
        assert fm in todo;
        assert todo[k..] == [fm] + todo[k + 1..];
        if fm !in seen {
          seen := seen + {fm};
          var fine, more := Visit(fm, canRemoveDesired, live, candidates);
          if !fine {
            return false, [];
          }
          redo := redo + more;
        }
      }
      return true, redo;
    }

    // Narrows the candidates down to their greatest consistent subset.
    method CheckFlows(start: seq<nat>, canRemoveDesired: bool, ghost live: set<nat>, ghost candidates: set<nat>)
      returns (ok: bool)
      requires CanCheck(live, candidates) && Narrowing(candidates, canRemoveDesired)
      requires forall i :: i in start <==> i in candidates
      requires forall i: nat :: i < |c.funcs| && c.funcs[i].required ==> i in candidates
      modifies this`included, this`cannotInclude
      ensures included <= old(included)
      ensures ok <==> Valid(c, candidates, wanted, canRemoveDesired)
      ensures ok ==> included == Greatest(c, candidates)
      ensures ok ==> forall i: nat :: i < |c.funcs| ==> (i in cannotInclude <==> i !in included)
    {
      assert included <= candidates;
      assert forall x :: x in start ==> x < |c.funcs|;
      hide *;
      var todo: seq<nat> := start;
      while |todo| > 0
        invariant Narrowing(candidates, canRemoveDesired) && CanCheck(live, candidates)
        invariant included <= old(included)
        invariant forall x :: x in todo ==> x < |c.funcs|
        invariant forall x :: x in included ==> Settled(x) || x in todo
        decreases Undecided(), |todo|
      {
        ok, todo := CheckPass(todo, canRemoveDesired, live, candidates);
        if !ok {
          return;
        }
      }
      AllSettled(candidates, canRemoveDesired);
      return true;
    }

    lemma AllSettled(candidates: set<nat>, canRemoveDesired: bool)
      requires Narrowing(candidates, canRemoveDesired)
      requires forall i :: i in candidates ==> i < |c.funcs|
      requires forall i: nat :: i < |c.funcs| && c.funcs[i].required ==> i in candidates
      requires forall x :: x in included ==> Settled(x)
      ensures Valid(c, candidates, wanted, canRemoveDesired)
      ensures included == Greatest(c, candidates)
      ensures forall i: nat :: i < |c.funcs| ==> (i in cannotInclude <==> i !in included)
    {
    }
  
    // The providers not excluded for good.
    ghost function Remaining(): set<nat>
      reads this`c, this`excluded
    {
      Positions(c) - excluded
    }

    // Decides whether the chain without the excluded providers is valid and, if it is, marks the
    // greatest consistent subset as included.
    method ValidateChain(canRemoveDesired: bool, ghost live: set<nat>) returns (ok: bool)
      requires Linked(c, d, live) && Remaining() <= live && included <= Positions(c)
      modifies this`included, this`cannotInclude
      ensures included <= Positions(c)
      ensures ok <==> Valid(c, Remaining(), wanted, canRemoveDesired)
      ensures ok ==> included == Greatest(c, Remaining())
      ensures ok ==> forall i: nat :: i < |c.funcs| ==> (i in cannotInclude <==> i !in included)
    {
      var n := |c.funcs|;
      var remaining: seq<nat> := [];
      for i := 0 to n
        invariant included <= Positions(c)
        invariant forall x: nat :: x in remaining <==> x < i && x !in excluded
        invariant forall x: nat :: x < i ==>
                    (x in included <==> x !in excluded)
                    && (x in cannotInclude <==> x in excluded)
        invariant forall x: nat :: x < i && c.funcs[x].required ==> x !in excluded
      {
        if i !in excluded {
          included := included + {i};
          cannotInclude := cannotInclude - {i};
          remaining := remaining + [i];
        } else {
          if c.funcs[i].required {
            return false;
          }
          cannotInclude := cannotInclude + {i};
          included := included - {i};
        }
      }
      assert included == Remaining();
      assert Greatest(c, Remaining()) <= Remaining();
      ok := CheckFlows(remaining, canRemoveDesired, live, Remaining());
    }

    // Drops providers nobody uses, until everybody left is used: what stays is the largest
    // self-sustaining part of what was included, and it is still consistent.
    method EliminateUnused(ghost live: set<nat>)
      requires Linked(c, d, live) && included <= live
      requires Consistent(c, included)
      requires included !! excluded
      modifies this`included, this`cannotInclude, this`excluded
      ensures included <= old(included)
      ensures Consistent(c, included)
      ensures SelfSustaining(c, d, wanted, included)
      ensures forall s :: SelfSustaining(c, d, wanted, s) && s <= old(included) ==> s <= included
      ensures excluded == old(excluded) + (old(included) - included)
      ensures cannotInclude == old(cannotInclude) + (old(included) - included)
    {
      hide *;
      var check: seq<nat> := Identity(|c.funcs|);
      ConsistentInRange(c, included);
      LinkedLength(c, d, live);
      UsedAtFirst(c, d, wanted, included);
      while |check| > 0
        invariant included <= old(included) && included !! excluded
        invariant Consistent(c, included)
        invariant AllUsed(c, d, wanted, included, check)
        invariant forall s :: SelfSustaining(c, d, wanted, s) && s <= old(included) ==> s <= included
        invariant excluded == old(excluded) + (old(included) - included)
        invariant cannotInclude == old(cannotInclude) + (old(included) - included)
        decreases |included|, |check|
      {
        var fm := NextToCheck(check);
        ghost var before, check0 := included, check;
        var more := DropIfUnused(fm, live);
        check := check[1..] + more;
        AllUsedStep(c, d, wanted, before, included, check0, more);
      }
      NobodyLeftToCheck(c, d, wanted, included, check);
    }

    method NextToCheck(check: seq<nat>) returns (fm: nat)
      requires check != [] && AllUsed(c, d, wanted, included, check)
      ensures fm == check[0] && fm < |c.funcs|
    {
      fm := check[0];
      assert fm in check;
    }

    // One provider of the list of eliminateUnused; 'more' are those it used, to be looked at again.
    method DropIfUnused(fm: nat, ghost live: set<nat>) returns (more: seq<nat>)
      requires Linked(c, d, live) && included <= live && fm < |c.funcs|
      requires Consistent(c, included)
      requires included !! excluded
      modifies this`included, this`cannotInclude, this`excluded
      ensures Consistent(c, included) && included !! excluded
      ensures included == old(included) || (included == old(included) - {fm} && fm in old(included))
      ensures included == old(included) ==> more == []
      ensures excluded == old(excluded) + (old(included) - included)
      ensures cannotInclude == old(cannotInclude) + (old(included) - included)
      ensures Rechecked(c, d, wanted, old(included), included, fm, more)
      ensures forall s :: SelfSustaining(c, d, wanted, s) && s <= old(included) ==> s <= included
    {
      if Protected(c, wanted, fm) || fm !in included || fm in excluded {
        return [];
      }
      var used := AnyIncluded(d[fm].usedBy);
      if used {
        return [];
      }
      Dropping(live, fm);
      UsedByInRange(c, d, live, fm);
      hide Linked, Consistent;
      included := included - {fm};
      cannotInclude := cannotInclude + {fm};
      excluded := excluded + {fm};
      more := d[fm].uses;
    }

    lemma Dropping(live: set<nat>, gone: nat)
      requires Linked(c, d, live) && included <= live
      requires Consistent(c, included)
      requires gone in included && !Protected(c, wanted, gone) && !SomeIn(d[gone].usedBy, included)
      ensures Consistent(c, included - {gone})
      ensures forall x :: x in included && x != gone && SomeIn(d[x].usedBy, included) ==>
                SomeIn(d[x].usedBy, included - {gone}) || x in d[gone].uses
      ensures forall s :: SelfSustaining(c, d, wanted, s) && s <= included ==> s <= included - {gone}
    {
      forall x | x in included && x != gone ensures LocallyConsistent(c, included - {gone}, x) {
        if !LocallyConsistent(c, included - {gone}, x) {
          UsedByIsComplete(c, d, live, included, gone, x);
        }
      }
      forall x | x in included && x != gone && SomeIn(d[x].usedBy, included) && x !in d[gone].uses
        ensures SomeIn(d[x].usedBy, included - {gone})
      {
        if gone in d[x].usedBy {
          UsedByIsMutual(c, d, live, x, gone);
        }
      }
    }
  
    // Tries to do without some providers; they stay excluded exactly if the rest remains valid.
    method TryWithout(without: seq<nat>, ghost live: set<nat>)
      requires Linked(c, d, live) && Remaining() <= live && included <= Positions(c)
      requires without != [] && wantedInCluster <= wanted
      requires forall w :: w in without ==> w < |c.funcs| && w !in excluded
      modifies this`included, this`cannotInclude, this`excluded, this`wanted
      ensures wanted == old(wanted) && included <= Positions(c)
      ensures excluded ==
        if !(|without| == 1 && without[0] in wanted && without[0] in wantedInCluster)
           && Valid(c, old(Remaining()) - Members(without), wanted, false)
        then old(excluded) + Members(without) else old(excluded)
    {
      if |without| == 1 && without[0] in wanted && without[0] in wantedInCluster {
        return;
      }
      MarkAll(without);
      assert Remaining() == old(Remaining()) - Members(without);
      var ok := ValidateChain(false, live);
      ValidOnlyLooksAtCandidates(c, Remaining(), wanted, old(wanted));
      Restore(without, ok);
      assert ok ==> excluded == old(excluded) + Members(without);
      assert !ok ==> excluded == old(excluded);
    }

    method MarkAll(without: seq<nat>)
      modifies this`excluded, this`wanted
      ensures excluded == old(excluded) + Members(without)
      ensures wanted == if |without| > 1 then old(wanted) - Members(without) * wantedInCluster else old(wanted)
    {
      for k := 0 to |without|
        invariant excluded == old(excluded) + Members(without[..k])
        invariant wanted == if |without| > 1 then old(wanted) - Members(without[..k]) * wantedInCluster else old(wanted)
      {
        assert without[..k + 1] == without[..k] + [without[k]];
        excluded := excluded + {without[k]};
        if |without| > 1 {
          if without[k] in wantedInCluster {
            wanted := wanted - {without[k]};
          }
        }
      }
      assert without[..|without|] == without;
    }

    method Restore(without: seq<nat>, ok: bool)
      modifies this`excluded, this`wanted
      ensures excluded == if ok then old(excluded) + Members(without) else old(excluded) - Members(without)
      ensures wanted == if |without| > 1 then old(wanted) + Members(without) * wantedInCluster else old(wanted)
    {
      for k := 0 to |without|
        invariant excluded ==
          if ok then old(excluded) + Members(without[..k]) else old(excluded) - Members(without[..k])
        invariant wanted == if |without| > 1 then old(wanted) + Members(without[..k]) * wantedInCluster else old(wanted)
      {
        assert without[..k + 1] == without[..k] + [without[k]];
        if ok {
          excluded := excluded + {without[k]};
        } else {
          excluded := excluded - {without[k]};
        }
        if |without| > 1 {
          if without[k] in wantedInCluster {
            wanted := wanted + {without[k]};
          }
        }
      }
      assert without[..|without|] == without;
    }

    predicate MustKeep(i: nat)
      requires i < |c.funcs|
      reads this`c, this`excluded, this`wanted, this`wantedInCluster
    {
      i !in excluded && (c.funcs[i].required || c.funcs[i].desired || (i in wanted && i !in wantedInCluster))
    }

    ghost function Roots(): set<nat>
      reads this`c, this`excluded, this`wanted, this`wantedInCluster
    {
      set i | i in Positions(c) && MustKeep(i)
    }

    // The preferred suppliers of one provider that are not kept already.
    method PreferredSuppliers(i: nat, dir: Direction, keep: set<nat>) returns (more: seq<nat>)
      requires i < |d|
      ensures forall x :: x in more ==> Picks(d, cannotInclude + excluded, dir, i, x)
      ensures forall x :: Picks(d, cannotInclude + excluded, dir, i, x) ==> x in keep || x in more
    {
      more := [];
      var detail := d[i].usesDetail;
      var blocked := cannotInclude + excluded;
      var todo := detail.Keys;
      while todo != {}
        invariant todo <= detail.Keys
        invariant forall x :: x in more ==> Picks(d, blocked, dir, i, x)
        invariant forall k :: k in detail && k !in todo && k.flow in dir.flows && Usable(detail[k], blocked) != [] ==>
            Pick(Usable(detail[k], blocked), dir.useLast) in keep
            || Pick(Usable(detail[k], blocked), dir.useLast) in more
      {
        var k :| k in todo;
        todo := todo - {k};
        var deps := Usable(detail[k], blocked);
        if k.flow in dir.flows && |deps| > 0 {
          var p := Pick(deps, dir.useLast);
          assert Picks(d, blocked, dir, i, p);
          if p !in keep {
            more := more + [p];
          }
        }
      }
    }

    // One direction of proposeEliminations.
    method KeepFrom(dir: Direction, ghost live: set<nat>) returns (keep: set<nat>)
      requires Linked(c, d, live)
      ensures keep <= Positions(c)
      ensures LeastClosed(d, cannotInclude + excluded, dir, Roots(), keep)
    {
      hide Picks, LeastClosed, ClosedUnderPicks, Growing, Linked;
      ghost var blocked := cannotInclude + excluded;
      var toKeep: seq<nat> := [];
      keep := {};
      for i := 0 to |c.funcs|
        invariant toKeep == Ascending(i, Roots())
      {
        if MustKeep(i) {
          toKeep := toKeep + [i];
        }
      }
      LinkedLength(c, d, live);
      GrowingStarts(c, d, blocked, dir, Roots());
      while |toKeep| > 0
        invariant Growing(c, d, blocked, dir, Roots(), keep, toKeep)
        decreases Positions(c) - keep, |toKeep|
      {
        NextToGrow(c, d, blocked, dir, Roots(), keep, toKeep);
        var fm := toKeep[0];
        ghost var toKeep0 := toKeep;
        toKeep := toKeep[1..];
        if fm !in keep {
          ghost var keep0 := keep;
          keep := keep + {fm};
          var more := PreferredSuppliers(fm, dir, keep);
          GrowingAdds(c, d, live, blocked, dir, Roots(), keep0, toKeep0, more);
          toKeep := toKeep + more;
          assert Positions(c) - keep < Positions(c) - keep0 by {
            assert fm in Positions(c) - keep0;
          }
        } else {
          GrowingSkips(c, d, blocked, dir, Roots(), keep, toKeep0);
        }
      }
      GrownIsLeast(c, d, blocked, dir, Roots(), keep, toKeep);
    }

    // The shunned providers, then those that nobody who must stay would draw on.
    method ProposeEliminations() returns (proposal: seq<nat>)
      requires Linked(c, d, Positions(c)) && Marked()
      ensures proposal == Proposal(c, Remaining())
    {
      hide Linked, LeastClosed, Needed, Marked, Ascending;
      var keepDown := KeepFrom(DOWN, Positions(c));
      var keepUp := KeepFrom(UP, Positions(c));
      KeptIsNeeded(keepDown, false);
      KeptIsNeeded(keepUp, true);
      proposal := AppendIf([], Shunned(c));
      proposal := AppendIf(proposal, Positions(c) - (keepDown + keepUp) - Shunned(c));
    }

    // What has been marked once the first cut is over.
    ghost predicate Marked()
      reads this
    {
      && wanted == Automatics(c) && wantedInCluster == Automatics(c) * Clustered()
      && forall i: nat :: i < |c.funcs| ==> (i in cannotInclude <==> i in excluded)
    }

    lemma KeptIsNeeded(keep: set<nat>, up: bool)
      requires Linked(c, d, Positions(c)) && Marked() && keep <= Positions(c)
      requires LeastClosed(d, cannotInclude + excluded, Way(up), Roots(), keep)
      ensures keep == Needed(c, Remaining(), up)
    {
      hide Linked, LeastClosed, Needed;
      assert Remaining() == Positions(c) - (cannotInclude + excluded);
      assert Roots() == set i | i in Positions(c) && MustStay(c, Remaining(), i);
      LeastIsNeeded(c, d, cannotInclude + excluded, Remaining(), up, Roots(), keep);
    }

    method AppendIf(list: seq<nat>, chosen: set<nat>) returns (r: seq<nat>)
      ensures r == list + Ascending(|c.funcs|, chosen)
    {
      r := list;
      for i := 0 to |c.funcs|
        invariant r == list + Ascending(i, chosen)
      {
        if i in chosen {
          r := r + [i];
        }
      }
    }

    function Clustered(): set<nat>
      reads this`c
    {
      set i | i in Positions(c) && c.funcs[i].cluster != 0
    }

    method MarkWanted()
      requires wanted == {} && wantedInCluster == {}
      modifies this`wanted, this`wantedInCluster
      ensures wanted == Automatics(c)
      ensures wantedInCluster == Automatics(c) * Clustered()
    {
      for i := 0 to |c.funcs|
        invariant wanted == Automatics(c) * UpTo(i)
        invariant wantedInCluster == Automatics(c) * Clustered() * UpTo(i)
      {
        if Automatic(c.funcs[i]) {
          if c.funcs[i].cluster != 0 {
            wantedInCluster := wantedInCluster + {i};
          }
          wanted := wanted + {i};
        }
      }
    }

    method ExcludeImpossible()
      requires forall i: nat :: i < |c.funcs| ==> (i in cannotInclude <==> i !in included)
      requires excluded == {} && included <= Positions(c)
      modifies this`included, this`excluded
      ensures included == old(included) && excluded == Positions(c) - included
    {
      for i := 0 to |c.funcs|
        invariant included == old(included)
        invariant excluded == UpTo(i) - included
      {
        if i in cannotInclude {
          excluded := excluded + {i};
          included := included - {i};
        }
      }
    }

    method FormClusters()
      requires clusterMembers == map[] && wantedInCluster <= wanted
      modifies this`clusterMembers, this`wantedInCluster
      ensures ClustersFormed(c, clusterMembers, excluded)
      ensures old(wantedInCluster) <= wantedInCluster <= old(wantedInCluster) + wanted * Clustered()
    {
      var clusterLeaders: map<int, nat> := map[];
      assert ClusterIndex(c, clusterLeaders, clusterMembers, excluded, 0);
      hide *;
      for i := 0 to |c.funcs|
        invariant ClusterIndex(c, clusterLeaders, clusterMembers, excluded, i)
        invariant old(wantedInCluster) <= wantedInCluster <= old(wantedInCluster) + wanted * Clustered()
      {
        if c.funcs[i].cluster != 0 && i !in excluded {
          IsClustered(i);
          clusterLeaders := AssignCluster(i, clusterLeaders);
          MarkWantedInCluster(i);
        } else {
          NoCluster(c, clusterLeaders, clusterMembers, excluded, i);
        }
      }
      ClustersComplete(c, clusterLeaders, clusterMembers, excluded);
    }

    method AssignCluster(i: nat, clusterLeaders: map<int, nat>) returns (leaders: map<int, nat>)
      requires ClusterIndex(c, clusterLeaders, clusterMembers, excluded, i)
      requires i < |c.funcs| && i !in excluded && c.funcs[i].cluster != 0
      modifies this`clusterMembers
      ensures ClusterIndex(c, leaders, clusterMembers, excluded, i + 1)
    {
      hide *;
      var k := c.funcs[i].cluster;
      leaders := clusterLeaders;
      if k in leaders {
        JoinCluster(c, leaders, clusterMembers, excluded, i);
        var leader := leaders[k];
        clusterMembers := clusterMembers[leader := clusterMembers[leader] + [i]];
      } else {
        LeadCluster(c, leaders, clusterMembers, excluded, i);
        leaders := leaders[k := i];
        clusterMembers := clusterMembers[i := [i]];
      }
    }

    method MarkWantedInCluster(i: nat)
      requires i < |c.funcs|
      modifies this`wantedInCluster
      ensures wantedInCluster ==
        old(wantedInCluster) + if !c.funcs[i].required && !c.funcs[i].desired && i in wanted then {i} else {}
    {
      if !c.funcs[i].required && !c.funcs[i].desired && i in wanted {
        wantedInCluster := wantedInCluster + {i};
      }
    }

    lemma IsClustered(i: nat)
      requires i < |c.funcs| && c.funcs[i].cluster != 0
      ensures i in Clustered()
    {
    }
  
    // A cluster is excluded as a whole or not at all.
    ghost predicate ClustersWhole()
      reads this`c, this`clusterMembers, this`excluded
    {
      forall l :: l in clusterMembers ==>
        Members(clusterMembers[l]) <= excluded || Members(clusterMembers[l]) !! excluded
    }

    // One round of the elimination loop: a provider, or the cluster it leads, goes if it can.
    method TryProposal(fm: nat, ghost live: set<nat>, ghost formedWith: set<nat>)
      requires Linked(c, d, live) && Remaining() <= live && included <= Positions(c)
      requires fm < |c.funcs| && wanted == Automatics(c) && wantedInCluster == Automatics(c) * Clustered()
      requires ClustersFormed(c, clusterMembers, formedWith) && ClustersWhole()
      requires formedWith == Positions(c) - Greatest(c, Positions(c)) && formedWith <= excluded
      requires Valid(c, Remaining(), wanted, false)
      modifies this`included, this`cannotInclude, this`excluded, this`wanted
      ensures wanted == old(wanted) && included <= Positions(c) && ClustersWhole() && old(excluded) <= excluded
      ensures Valid(c, Remaining(), wanted, false)
      ensures Remaining() == Tried(c, old(Remaining()), fm)
    {
      hide Linked, Valid, ClustersFormed, Greatest, ClusterOf;
      if fm in excluded {
        return;
      }
      if c.funcs[fm].cluster != 0 {
        ListedClusters(c, clusterMembers, formedWith, fm);
        if fm in clusterMembers {
          ClusterIsUntouched(fm, formedWith);
          TryWithout(clusterMembers[fm], live);
          ClustersStayWhole(old(excluded), fm, formedWith);
          assert Positions(c) - (old(excluded) + Members(clusterMembers[fm]))
              == old(Remaining()) - Members(clusterMembers[fm]);
        } else {
          assert old(Remaining()) - {} == old(Remaining());
        }
      } else {
        assert Members([fm]) == {fm};
        TryWithout([fm], live);
        SingleKeepsClusters(old(excluded), fm, formedWith);
        assert Positions(c) - (old(excluded) + {fm}) == old(Remaining()) - {fm};
      }
    }

    lemma ClusterIsUntouched(l: nat, formedWith: set<nat>)
      requires ClustersFormed(c, clusterMembers, formedWith) && ClustersWhole()
      requires l in clusterMembers && l !in excluded
      requires Valid(c, Remaining(), wanted, false)
      ensures clusterMembers[l] != []
      ensures forall m :: m in clusterMembers[l] ==> m < |c.funcs| && m !in excluded
    {
      assert Lists(clusterMembers, l, l);
      assert l in Members(clusterMembers[l]);
      forall m | m in clusterMembers[l] ensures m < |c.funcs| && m !in excluded {
        assert Lists(clusterMembers, l, m);
        assert m in Members(clusterMembers[l]);
      }
    }

    lemma ClustersStayWhole(before: set<nat>, l: nat, formedWith: set<nat>)
      requires ClustersFormed(c, clusterMembers, formedWith) && l in clusterMembers
      requires forall k :: k in clusterMembers ==>
                 Members(clusterMembers[k]) <= before || Members(clusterMembers[k]) !! before
      requires excluded == before || excluded == before + Members(clusterMembers[l])
      ensures ClustersWhole()
    {
      forall k, m | k in clusterMembers && k != l && m in clusterMembers[k] ensures m !in clusterMembers[l] {
        assert Lists(clusterMembers, k, m);
        assert !Lists(clusterMembers, l, m);
      }
    }

    lemma SingleKeepsClusters(before: set<nat>, i: nat, formedWith: set<nat>)
      requires ClustersFormed(c, clusterMembers, formedWith) && i < |c.funcs| && c.funcs[i].cluster == 0
      requires forall k :: k in clusterMembers ==>
                 Members(clusterMembers[k]) <= before || Members(clusterMembers[k]) !! before
      requires excluded == before || excluded == before + {i}
      ensures ClustersWhole()
    {
      forall k | k in clusterMembers ensures i !in clusterMembers[k] {
        assert !Lists(clusterMembers, k, i);
      }
    }
  
    // The elimination loop never makes the chain invalid, and what it comes to is what it should.
    method TryProposals(proposal: seq<nat>, ghost live: set<nat>, ghost formedWith: set<nat>)
      requires Linked(c, d, live) && Remaining() <= live && included <= Positions(c)
      requires forall k :: 0 <= k < |proposal| ==> proposal[k] < |c.funcs|
      requires wanted == Automatics(c) && wantedInCluster == Automatics(c) * Clustered()
      requires ClustersFormed(c, clusterMembers, formedWith) && ClustersWhole()
      requires formedWith == Positions(c) - Greatest(c, Positions(c)) && formedWith <= excluded
      requires Valid(c, Remaining(), wanted, false)
      modifies this`included, this`cannotInclude, this`excluded, this`wanted
      ensures wanted == old(wanted) && included <= Positions(c) && old(excluded) <= excluded
      ensures Valid(c, Remaining(), wanted, false)
      ensures Remaining() == AllTried(c, old(Remaining()), proposal)
    {
      hide Linked, Valid, ClustersFormed, ClustersWhole, Tried, Greatest;
      assert proposal[..0] == [];
      for k := 0 to |proposal|
        invariant wanted == old(wanted) && included <= Positions(c) && ClustersWhole()
        invariant old(excluded) <= excluded
        invariant Valid(c, Remaining(), wanted, false)
        invariant Remaining() == AllTried(c, old(Remaining()), proposal[..k])
      {
        TryProposal(proposal[k], live, formedWith);
        assert proposal[..k + 1][..k] == proposal[..k] && proposal[..k + 1][k] == proposal[k];
      }
      assert proposal[..|proposal|] == proposal;
    }

    // Everything excluded so far could be excluded without harm.
    ghost predicate Sound(live: set<nat>)
      reads this
    {
      && WellFormed(c) && Linked(c, d, live) && Remaining() <= live && included <= Positions(c)
      && wanted == Automatics(c) && wantedInCluster == Automatics(c) * Clustered()
      && Valid(c, Remaining(), wanted, false)
    }

    // Validation of the whole chain and the elimination of what obviously cannot stay.
    method FirstCut() returns (ok: bool, internal: bool)
      requires WellFormed(c) && included <= Positions(c) && cannotInclude == c.givenUp
      requires excluded == {} && wanted == {} && wantedInCluster == {} && clusterMembers == map[]
      modifies this
      ensures c == old(c)
      ensures internal ==> ListedEmpty(c, Positions(c) - c.givenUp)
      ensures !internal ==> (ok <==> Valid(c, Positions(c), Automatics(c), true))
      ensures internal ==> !ok
      ensures ok ==> Sound(Positions(c)) && ClustersWhole()
      ensures ok ==> Marked() && Remaining() == Bound(c)
      ensures ok ==> Positions(c) - Greatest(c, Positions(c)) <= excluded
      ensures ok ==> ClustersFormed(c, clusterMembers, Positions(c) - Greatest(c, Positions(c)))
      ensures ok ==> forall x :: x in c.givenUp && x in Remaining() ==> Protected(c, wanted, x)
    {
      hide ListedEmpty, Linked, ClustersFormed, Consistent, Greatest, SelfSustaining;
      MarkWanted();
      ghost var live := Positions(c);
      ok := ProvidesReturns(live - c.givenUp);
      internal := !ok;
      if internal {
        return;
      }
      LinkedAnyway(c, d);
      assert Remaining() == live;
      ok := ValidateChain(true, live);
      if ok {
        ExcludeOthers();
      }
    }

    // The providers that cannot be kept, and then those nobody uses.
    method ExcludeOthers()
      requires WellFormed(c) && Linked(c, d, Positions(c)) && Valid(c, Positions(c), wanted, true)
      requires excluded == {} && clusterMembers == map[] && included == Greatest(c, Positions(c))
      requires wanted == Automatics(c) && wantedInCluster == Automatics(c) * Clustered()
      requires forall i: nat :: i < |c.funcs| ==> (i in cannotInclude <==> i !in included)
      modifies this`included, this`cannotInclude, this`excluded, this`clusterMembers, this`wantedInCluster
      ensures Sound(Positions(c)) && ClustersWhole()
      ensures Marked() && Remaining() == Bound(c)
      ensures Positions(c) - Greatest(c, Positions(c)) <= excluded
      ensures ClustersFormed(c, clusterMembers, Positions(c) - Greatest(c, Positions(c)))
      ensures forall x :: x in c.givenUp && x in Remaining() ==> Protected(c, wanted, x)
    {
      hide ListedEmpty, Linked, ClustersFormed, Consistent, Greatest, SelfSustaining;
      ghost var live := Positions(c);
      GreatestIsGreatest(c, live);
      ExcludeImpossible();
      FormClusters();
      ghost var formedWith, before := excluded, included;
      EliminateUnused(live);
      assert Remaining() == included;
      LargestIsBound(c, d, included);
      KeptAreProtected(c, d, live, wanted, included);
      LinkedLength(c, d, live);
      forall x | x in before && Protected(c, wanted, x) ensures x in included {
        ProtectedStay(c, d, wanted, before, included, x);
      }
      ConsistentIsOwnGreatest(c, included);
      ClustersUntouched(before, formedWith);
    }

    lemma ClustersUntouched(before: set<nat>, formedWith: set<nat>)
      requires ClustersFormed(c, clusterMembers, formedWith)
      requires formedWith == Positions(c) - before && excluded == formedWith + (before - included)
      requires included <= before <= Positions(c)
      requires forall x :: x in before && Protected(c, wanted, x) ==> x in included
      ensures ClustersWhole()
    {
      forall l, m | l in clusterMembers && m in clusterMembers[l] ensures m !in excluded {
        assert Lists(clusterMembers, l, m);
      }
    }

    // Decides which providers stay in the chain.  The result is an error exactly if the chain as a
    // whole is invalid, or what is left of it once nobody counts as given up any more; the second cannot
    // happen if nobody who may not go has been given up.  What has not been excluded is what the eliminations
    // have to come to, and what is included is the greatest consistent part of it, which loses nobody who may
    // not go.
    method ComputeDependenciesAndInclusion() returns (outcome: Outcome)
      requires WellFormed(c) && included <= Positions(c) && cannotInclude == c.givenUp
      requires excluded == {} && wanted == {} && wantedInCluster == {} && clusterMembers == map[]
      modifies this
      ensures outcome !in {Internal, UhOh} && c == if outcome == Invalid then old(c) else NobodyGivenUp(old(c))
      ensures outcome == Invalid <==> !Valid(old(c), Positions(c), Automatics(c), true)
      ensures outcome == UhOh2 <==> outcome != Invalid && !Valid(c, Remaining(), Automatics(c), true)
      ensures outcome != Invalid ==> Valid(old(c), Remaining(), Automatics(c), false)
      ensures outcome == Accepted ==>
                Consistent(c, included) && included == Greatest(c, Remaining()) && Linked(c, d, Remaining())
      ensures outcome != Invalid ==>
                forall x :: x in old(c.givenUp) && x in Remaining() ==> Protected(c, Automatics(c), x)
      ensures outcome != Invalid && Remaining() !! old(c.givenUp) ==>
                outcome == Accepted && Valid(c, Remaining(), Automatics(c), false)
      ensures (forall x :: x in old(c.givenUp) && x < |old(c.funcs)| ==>
                 !Protected(old(c), Automatics(old(c)), x)) ==>
                outcome == Accepted || outcome == Invalid
      ensures outcome == Accepted ==> forall i: nat :: i < |c.funcs| && c.funcs[i].required ==> i in included
      ensures outcome == Accepted && Remaining() !! old(c.givenUp) ==>
                forall i: nat :: i in Remaining() && i < |c.funcs| && (c.funcs[i].desired || Automatic(c.funcs[i])) ==>
                  i in included
      ensures outcome != Invalid ==> Remaining() == Remainder(old(c))
      ensures outcome != Invalid
              && (forall i: nat :: i < |c.funcs| ==>
                    c.funcs[i].cluster == 0 && (c.funcs[i].shun ==> !c.funcs[i].desired && !Automatic(c.funcs[i]))) ==>
                forall p :: p in Remaining() && Superfluous(old(c), Bound(old(c)), p) ==>
                  !Valid(old(c), Remaining() - {p}, Automatics(c), false)
    {
      hide ListedEmpty, Linked, ClustersFormed, Valid, Greatest, Consistent, WellFormed, LeastClosed, Superfluous,
           Bound;
      outcome := Invalid;
      ghost var auto := Automatics(c);
      var ok, internal := FirstCut();
      assert Automatics(c) == auto;
      if internal {
        outcome := Internal;
      } else if ok {
        PlainOnes(c);
        var candidates := ProposeEliminations();
        TryProposals(candidates, Positions(c), Positions(c) - Greatest(c, Positions(c)));
        if Remaining() !! c.givenUp {
          ValidWithoutGivenUp(c, Remaining(), wanted, false);
          ValidCanRemove(NobodyGivenUp(c), Remaining(), wanted);
        }
        ok, internal := Finish();
        assert Automatics(c) == auto;
        outcome := if internal then UhOh else if ok then Accepted else UhOh2;
        if ok {
          GreatestIsGreatest(c, Remaining());
          ValidKeeps(c, Remaining());
        }
      }
      NeverListedEmpty(old(c));
      NeverListedEmpty(c);
    }

    lemma ValidKeeps(c: Chain, s: set<nat>)
      ensures Valid(c, s, Automatics(c), true) ==>
                forall i: nat :: i < |c.funcs| && c.funcs[i].required ==> i in Greatest(c, s)
      ensures Valid(c, s, Automatics(c), false) ==>
                forall i: nat :: i in s && i < |c.funcs| && (c.funcs[i].desired || Automatic(c.funcs[i])) ==>
                  i in Greatest(c, s)
    {
      hide Greatest;
    }

    lemma PlainOnes(c: Chain)
      ensures (forall i: nat :: i < |c.funcs| ==>
                 c.funcs[i].cluster == 0 && (c.funcs[i].shun ==> !c.funcs[i].desired && !Automatic(c.funcs[i]))) ==>
                forall p :: p in Remainder(c) && Superfluous(c, Bound(c), p) ==>
                  !Valid(c, Remainder(c) - {p}, Automatics(c), false)
    {
      if forall i: nat :: i < |c.funcs| ==>
          c.funcs[i].cluster == 0 && (c.funcs[i].shun ==> !c.funcs[i].desired && !Automatic(c.funcs[i]))
      {
        PlainIndispensable(c);
      }
    }

    // The last steps: forget the excluded providers, work out the flows again and validate.  Nobody counts
    // as given up any more.
    method Finish() returns (ok: bool, internal: bool)
      requires Sound(Positions(c))
      modifies this`c, this`included, this`cannotInclude, this`d
      ensures c == NobodyGivenUp(old(c))
      ensures internal ==> !ok && ListedEmpty(c, Remaining())
      ensures !internal ==> (ok <==> Valid(c, Remaining(), wanted, true))
      ensures ok ==> included == Greatest(c, Remaining())
      ensures !internal ==> Linked(c, d, Remaining())
    {
      for i := 0 to |c.funcs|
        invariant included == old(included) && c == old(c)
        invariant forall x: nat :: x < i ==> (x in cannotInclude <==> x in excluded)
      {
        if i !in excluded {
          cannotInclude := cannotInclude - {i};
        } else {
          cannotInclude := cannotInclude + {i};
        }
      }
      assert c.invoke in Greatest(c, Remaining());
      assert c.init.Some? ==> c.init.value in Greatest(c, Remaining());
      c := NobodyGivenUp(c);
      ghost var live := Remaining();
      ok := ProvidesReturns(live);
      internal := !ok;
      if internal {
        return;
      }
      ok := ValidateChain(true, live);
    }
  }
}
