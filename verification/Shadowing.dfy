/**
 shadowing.go: the check that no provider returns a type over the head of somebody who has returned it
 further down, and what the check means for the runs of the chain.
 */
module Shadowing {
  import opened Basics
  import opened Interp
  import opened Reads

  predicate Exempt(f: Func, allowed: set<TypeCode>, t: TypeCode) {
    ((f.kind.Fallible? || f.kind.StaticFallible?) && (t == ERROR || t == TERMINAL_ERROR)) || t in allowed
  }

  // Somebody from position 'i' on returns the type without having received it.
  ghost predicate Originates(funcs: seq<Func>, i: nat, t: TypeCode) {
    exists j: nat :: i <= j < |funcs| && t in funcs[j].returned && t !in funcs[j].received
  }

  // The k-th type that provider 'i' returns has been returned before.
  ghost predicate Shadows(funcs: seq<Func>, i: nat, k: nat)
    requires i < |funcs| && k < |funcs[i].returned|
  {
    var t := funcs[i].returned[k];
    t !in funcs[i].received && (Originates(funcs, i + 1, t) || t in funcs[i].returned[..k])
  }

  ghost predicate ShadowsAllowed(funcs: seq<Func>, allowed: seq<set<TypeCode>>, i: nat)
    requires i < |funcs| == |allowed|
  {
    forall k: nat :: k < |funcs[i].returned| && Shadows(funcs, i, k) ==>
        Exempt(funcs[i], allowed[i], funcs[i].returned[k])
  }

  method CheckForShadowing(funcs: seq<Func>, allowed: seq<set<TypeCode>>) returns (ok: bool)
    requires |allowed| == |funcs|
    ensures ok <==> forall i: nat :: i < |funcs| ==> ShadowsAllowed(funcs, allowed, i)
    ensures ok <==> forall i: nat, k: nat :: i < |funcs| && k < |funcs[i].returned| && Shadows(funcs, i, k) ==>
              var f, t := funcs[i], funcs[i].returned[k];
              || t in allowed[i]
              || ((f.kind.Fallible? || f.kind.StaticFallible?) && (t == ERROR || t == TERMINAL_ERROR))
  {
    AllowedMeans(funcs, allowed);
    hide ShadowsAllowed, Shadows, Originates;
    var returnedValues: map<TypeCode, nat> := map[];
    for i := |funcs| downto 0
      invariant forall t :: t in returnedValues <==> Originates(funcs, i, t)
      invariant forall j: nat :: i <= j < |funcs| ==> ShadowsAllowed(funcs, allowed, j)
    {
      ok, returnedValues := CheckOne(funcs, allowed, i, returnedValues);
      if !ok {
        return;
      }
    }
    ok := true;
  }

  lemma AllowedMeans(funcs: seq<Func>, allowed: seq<set<TypeCode>>)
    requires |allowed| == |funcs|
    ensures forall i: nat :: i < |funcs| ==>
              (ShadowsAllowed(funcs, allowed, i) <==>
                 forall k: nat :: k < |funcs[i].returned| && Shadows(funcs, i, k) ==>
                   var f, t := funcs[i], funcs[i].returned[k];
                   || t in allowed[i]
                   || ((f.kind.Fallible? || f.kind.StaticFallible?) && (t == ERROR || t == TERMINAL_ERROR)))
    ensures forall t :: !Originates(funcs, |funcs|, t)
  {
    hide Shadows;
  }

  method CheckOne(funcs: seq<Func>, allowed: seq<set<TypeCode>>, i: nat, before: map<TypeCode, nat>)
    returns (ok: bool, returnedValues: map<TypeCode, nat>)
    requires i < |funcs| == |allowed| && forall t :: t in before <==> Originates(funcs, i + 1, t)
    ensures ok <==> ShadowsAllowed(funcs, allowed, i)
    ensures ok ==> forall t :: t in returnedValues <==> Originates(funcs, i, t)
  {
    returnedValues := before;
    var f := funcs[i];
    for k := 0 to |f.returned|
      invariant forall t :: t in returnedValues <==> t in before || (t in f.returned[..k] && t !in f.received)
      invariant forall l: nat :: l < k && Shadows(funcs, i, l) ==> Exempt(f, allowed[i], f.returned[l])
    {
      var t := f.returned[k];
      assert f.returned[..k + 1] == f.returned[..k] + [t];
      if t !in f.received {
        if t !in returnedValues {
          returnedValues := returnedValues[t := i];
        } else {
          assert Shadows(funcs, i, k);
          if (f.kind.Fallible? || f.kind.StaticFallible?) && (t == ERROR || t == TERMINAL_ERROR) {
            returnedValues := returnedValues[t := i];
          } else if t !in allowed[i] {
            return false, returnedValues;
          }
        }
      }
    }
    assert f.returned[..|f.returned|] == f.returned;
    OriginatesHere(funcs, i);
    ok := true;
  }

  lemma OriginatesHere(funcs: seq<Func>, i: nat)
    requires i < |funcs|
    ensures forall t :: Originates(funcs, i, t) <==>
              Originates(funcs, i + 1, t) || (t in funcs[i].returned && t !in funcs[i].received)
  {
  }

  // Received types are returned further down.
  ghost predicate Sourced(chain: seq<Func>) {
    forall i: nat, t :: i < |chain| && t in chain[i].received ==> Returned(chain, i + 1, t)
  }

  ghost predicate Returned(chain: seq<Func>, i: nat, t: TypeCode) {
    exists j: nat :: i <= j < |chain| && t in chain[j].returned
  }

  // So whatever is returned originates somewhere.
  lemma {:induction false} ReturnedOriginates(chain: seq<Func>, i: nat, t: TypeCode)
    requires Sourced(chain) && i <= |chain| && Returned(chain, i, t)
    ensures Originates(chain, i, t)
    decreases |chain| - i
  {
    var j: nat :| i <= j < |chain| && t in chain[j].returned;
    if t in chain[j].received {
      ReturnedOriginates(chain, j + 1, t);
      var l: nat :| j + 1 <= l < |chain| && t in chain[l].returned && t !in chain[l].received;
      assert Originates(chain, i, t);
    }
  }

  // The types for which a value somebody has returned comes up from position 'i', in a run in which
  // wrappers call inner() at most once.
  function ValuesUp(w: World, chain: seq<Func>, i: nat, down: Flow, tr: Trace): set<TypeCode>
    requires RunChain(chain) && i < |chain|
    decreases |chain| - i
  {
    var p := chain[i];
    var tr1 := tr + [Call(p.id, GetAll(w, down, p.inputs))];
    if p.kind.Final? then TypesIn(p.returned)
    else if p.kind.Wrapper? then
      TypesIn(p.returned)
      + (if CallsInner(w, p, tr1) then
           var args := InnerArgs(w, p.id, tr1, |p.outputs|);
           ValuesUp(w, chain, i + 1, Interp.Bind(down, p.outputs, args), tr1 + [Inner(p.id, args)])
         else {})
    else if Fails(w, p, tr1) then {ERROR}
    else ValuesUp(w, chain, i + 1, Interp.Bind(down, p.outputs, Sent(w, p, tr1)), tr1)
  }

  function TypesIn(types: seq<TypeCode>): set<TypeCode> {
    set t | t in types
  }

  predicate CallsInner(w: World, p: Func, tr1: Trace) {
    w.maxCalls(p.id, tr1) > 0 && w.wants(p.id, tr1)
  }

  // In such a run no wrapper returns a type over the head of somebody further down without having
  // received it.
  ghost predicate NothingLost(w: World, chain: seq<Func>, i: nat, down: Flow, tr: Trace)
    requires RunChain(chain) && i < |chain|
    decreases |chain| - i
  {
    var p := chain[i];
    var tr1 := tr + [Call(p.id, GetAll(w, down, p.inputs))];
    if p.kind.Final? then true
    else if p.kind.Wrapper? then
      CallsInner(w, p, tr1) ==>
        var args := InnerArgs(w, p.id, tr1, |p.outputs|);
        var down1, tr2 := Interp.Bind(down, p.outputs, args), tr1 + [Inner(p.id, args)];
        && NothingLost(w, chain, i + 1, down1, tr2)
        && forall t :: t in ValuesUp(w, chain, i + 1, down1, tr2) && t in p.returned ==> t in p.received
    else
      Fails(w, p, tr1) || NothingLost(w, chain, i + 1, Interp.Bind(down, p.outputs, Sent(w, p, tr1)), tr1)
  }

  // The run chain as characterize.go leaves it, without wrappers marked Parallel.
  ghost predicate Shaped(chain: seq<Func>) {
    && RunChain(chain) && Sourced(chain) && DistinctIds(chain)
    && (forall i: nat :: i < |chain| ==> chain[i].kind != Wrapper(true))
    && (forall i: nat :: i < |chain| && IsInjector(chain[i]) ==>
          chain[i].received == [] && chain[i].returned == if chain[i].kind.Fallible? then [ERROR] else [])
  }

  // What comes up besides is zero: there is nothing to lose.
  lemma {:induction false} OnlyZerosBesides(w: World, chain: seq<Func>, i: nat, down: Flow, tr: Trace, t: TypeCode)
    requires Shaped(chain) && i < |chain| && SingleCalls(w, chain)
    ensures
      var up := RunFrom(Ideal, w, chain, i, down, tr).up;
      if t in ValuesUp(w, chain, i, down, tr) then t in up else Get(w, up, t) == w.zero(t)
    decreases |chain| - i
  {
    var p := chain[i];
    var tr1 := tr + [Call(p.id, GetAll(w, down, p.inputs))];
    if p.kind.Final? {
      BindElsewhere(map[], p.returned, Results(w, p.id, tr1, |p.returned|), t);
    } else if p.kind.Wrapper? {
      var calls, args := OneInner(w, chain, i, down, tr1);
      var values := Results(w, p.id, calls.trace, |p.returned|);
      BindElsewhere(Zeroed(w, map[], p.skips), p.returned, values, t);
      BindElsewhere(calls.last, p.returned, values, t);
      if CallsInner(w, p, tr1) {
        OnlyZerosBesides(w, chain, i + 1, Interp.Bind(down, p.outputs, args), tr1 + [Inner(p.id, args)], t);
      }
    } else if !Fails(w, p, tr1) {
      OnlyZerosBesides(w, chain, i + 1, Interp.Bind(down, p.outputs, Sent(w, p, tr1)), tr1, t);
    }
  }

  lemma BindElsewhere(m: Flow, types: seq<TypeCode>, values: seq<Value>, t: TypeCode)
    requires |types| == |values|
    ensures t in types ==> t in Interp.Bind(m, types, values)
    ensures t !in types ==>
              (t in Interp.Bind(m, types, values) <==> t in m)
              && (t in m ==> Interp.Bind(m, types, values)[t] == m[t])
  {
    if types != [] {
      BindElsewhere(m, types[..|types| - 1], values[..|types| - 1], t);
      assert types == types[..|types| - 1] + [types[|types| - 1]];
    }
  }

  // What comes up has been returned by somebody.
  lemma {:induction false} ValuesAreReturned(w: World, chain: seq<Func>, i: nat, down: Flow, tr: Trace, t: TypeCode)
    requires Shaped(chain) && i < |chain| && t in ValuesUp(w, chain, i, down, tr)
    ensures Returned(chain, i, t)
    decreases |chain| - i
  {
    var p := chain[i];
    var tr1 := tr + [Call(p.id, GetAll(w, down, p.inputs))];
    if t !in p.returned && !p.kind.Final? {
      if p.kind.Wrapper? {
        var args := InnerArgs(w, p.id, tr1, |p.outputs|);
        ValuesAreReturned(w, chain, i + 1, Interp.Bind(down, p.outputs, args), tr1 + [Inner(p.id, args)], t);
      } else if !Fails(w, p, tr1) {
        ValuesAreReturned(w, chain, i + 1, Interp.Bind(down, p.outputs, Sent(w, p, tr1)), tr1, t);
      }
    }
  }

  // The one inner call a wrapper may make.
  lemma OneInner(w: World, chain: seq<Func>, i: nat, down: Flow, tr1: Trace) returns (calls: Calls, args: seq<Value>)
    requires RunChain(chain) && i + 1 < |chain| && chain[i].kind == Wrapper(false) && SingleCalls(w, chain)
    ensures calls == RunInner(Ideal, w, chain, i, down, Calls(0, map[], map[], tr1), w.maxCalls(chain[i].id, tr1))
    ensures args == InnerArgs(w, chain[i].id, tr1, |chain[i].outputs|)
    ensures
      if CallsInner(w, chain[i], tr1) then
        && calls.count == 1
        && calls.last == RunFrom(Ideal, w, chain, i + 1, Interp.Bind(down, chain[i].outputs, args),
                                 tr1 + [Inner(chain[i].id, args)]).up
      else calls.count == 0
  {
    var start := Calls(0, map[], map[], tr1);
    args := InnerArgs(w, chain[i].id, tr1, |chain[i].outputs|);
    calls := RunInner(Ideal, w, chain, i, down, start, w.maxCalls(chain[i].id, tr1));
    if CallsInner(w, chain[i], tr1) {
      var next := OneCall(Ideal, w, chain, i, down, start);
      assert RunInner(Ideal, w, chain, i, down, next, 0) == next;
    }
  }

  function NoAllowances(n: nat): (r: seq<set<TypeCode>>)
    ensures |r| == n
  {
    seq(n, _ => {})
  }

  ghost predicate Accepted(chain: seq<Func>) {
    forall i: nat :: i < |chain| ==> ShadowsAllowed(chain, NoAllowances(|chain|), i)
  }

  // Nobody returns a type twice that it has not received.
  ghost predicate NobodyReturnsTwice(chain: seq<Func>) {
    forall i: nat, k, l ::
      i < |chain| && 0 <= k < l < |chain[i].returned| && chain[i].returned[k] == chain[i].returned[l] ==>
        chain[i].returned[l] in chain[i].received
  }

  lemma {:induction false} AcceptedLosesNothing(w: World, chain: seq<Func>, i: nat, down: Flow, tr: Trace)
    requires Shaped(chain) && i < |chain| && Accepted(chain)
    ensures NothingLost(w, chain, i, down, tr)
    decreases |chain| - i
  {
    var p := chain[i];
    var tr1 := tr + [Call(p.id, GetAll(w, down, p.inputs))];
    if p.kind.Wrapper? {
      if CallsInner(w, p, tr1) {
        var args := InnerArgs(w, p.id, tr1, |p.outputs|);
        var down1, tr2 := Interp.Bind(down, p.outputs, args), tr1 + [Inner(p.id, args)];
        AcceptedLosesNothing(w, chain, i + 1, down1, tr2);
        forall t | t in ValuesUp(w, chain, i + 1, down1, tr2) && t in p.returned ensures t in p.received {
          ValuesAreReturned(w, chain, i + 1, down1, tr2, t);
          ReturnedOriginates(chain, i + 1, t);
          var k: nat :| k < |p.returned| && p.returned[k] == t;
          assert ShadowsAllowed(chain, NoAllowances(|chain|), i);
          var shadowed := Shadows(chain, i, k);
        }
      }
    } else if !p.kind.Final? && !Fails(w, p, tr1) {
      AcceptedLosesNothing(w, chain, i + 1, Interp.Bind(down, p.outputs, Sent(w, p, tr1)), tr1);
    }
  }

  lemma AcceptedReturnsOnce(chain: seq<Func>)
    requires Shaped(chain) && Accepted(chain)
    ensures NobodyReturnsTwice(chain)
  {
    forall i: nat, k, l | i < |chain| && 0 <= k < l < |chain[i].returned|
        && chain[i].returned[k] == chain[i].returned[l]
      ensures chain[i].returned[l] in chain[i].received
    {
      var p := chain[i];
      assert ShadowsAllowed(chain, NoAllowances(|chain|), i);
      assert p.returned[..l][k] == p.returned[l];
      var shadowed := Shadows(chain, i, l);
    }
  }

  // Every wrapper calls inner() once, and of the fallible injectors exactly one fails.
  function Eager(failing: nat): World {
    World(_ => 0, x => x == 0, (id, _, _) => if id == failing then 1 else 0,
          (_, _) => true, (_, _, _) => 0, (_, _) => 1)
  }

  // The run gets from 's' to 'i' unless somebody fails before.
  lemma {:induction false} RunGetsTo(failing: nat, chain: seq<Func>, s: nat, i: nat, down: Flow, tr: Trace)
    returns (down': Flow, tr': Trace)
    requires Shaped(chain) && s <= i < |chain| && NothingLost(Eager(failing), chain, s, down, tr)
    requires forall k: nat :: s <= k < i && chain[k].kind.Fallible? ==> chain[k].id != failing
    ensures NothingLost(Eager(failing), chain, i, down', tr')
    decreases |chain| - s
  {
    down', tr' := down, tr;
    if s < i {
      var w, p := Eager(failing), chain[s];
      var tr1 := tr + [Call(p.id, GetAll(w, down, p.inputs))];
      if p.kind.Wrapper? {
        var args := InnerArgs(w, p.id, tr1, |p.outputs|);
        down', tr' := RunGetsTo(failing, chain, s + 1, i, Interp.Bind(down, p.outputs, args),
                                tr1 + [Inner(p.id, args)]);
      } else {
        assert !Fails(w, p, tr1);
        down', tr' := RunGetsTo(failing, chain, s + 1, i, Interp.Bind(down, p.outputs, Sent(w, p, tr1)), tr1);
      }
    }
  }

  // What 'j' returns comes up to 's'.
  lemma {:induction false} ComesUp(failing: nat, chain: seq<Func>, s: nat, j: nat, down: Flow, tr: Trace, t: TypeCode)
    requires Shaped(chain) && s <= j < |chain| && t in chain[j].returned
    requires forall k: nat :: s <= k < j && chain[k].kind.Fallible? ==> chain[k].id != failing
    requires chain[j].kind.Fallible? ==> chain[j].id == failing
    ensures t in ValuesUp(Eager(failing), chain, s, down, tr)
    decreases |chain| - s
  {
    var w, p := Eager(failing), chain[s];
    var tr1 := tr + [Call(p.id, GetAll(w, down, p.inputs))];
    if p.kind.Wrapper? {
      if s < j {
        var args := InnerArgs(w, p.id, tr1, |p.outputs|);
        ComesUp(failing, chain, s + 1, j, Interp.Bind(down, p.outputs, args), tr1 + [Inner(p.id, args)], t);
      }
    } else if s < j {
      assert !p.kind.Final? && !Fails(w, p, tr1);
      ComesUp(failing, chain, s + 1, j, Interp.Bind(down, p.outputs, Sent(w, p, tr1)), tr1, t);
    } else if !p.kind.Final? {
      assert TheError(w, p, tr1) == 1;
    }
  }

  // The check accepts a chain without allowances exactly if nothing is lost in any run with at most one
  // inner call per wrapper, and nobody returns a type twice that it has not received.
  lemma AcceptedExactlyIfNothingIsLost(chain: seq<Func>)
    requires Shaped(chain)
    ensures Accepted(chain) <==>
              && NobodyReturnsTwice(chain)
              && forall w, down, tr :: SingleCalls(w, chain) ==> NothingLost(w, chain, 0, down, tr)
  {
    if Accepted(chain) {
      AcceptedReturnsOnce(chain);
      forall w, down, tr | SingleCalls(w, chain) ensures NothingLost(w, chain, 0, down, tr) {
        AcceptedLosesNothing(w, chain, 0, down, tr);
      }
    } else if NobodyReturnsTwice(chain) {
      var i: nat :| i < |chain| && !ShadowsAllowed(chain, NoAllowances(|chain|), i);
      var failing := SomethingIsLost(chain, i);
      assert SingleCalls(Eager(failing), chain);
    }
  }

  lemma SomethingIsLost(chain: seq<Func>, i: nat) returns (failing: nat)
    requires Shaped(chain) && i < |chain| && !ShadowsAllowed(chain, NoAllowances(|chain|), i)
             && NobodyReturnsTwice(chain)
    ensures !NothingLost(Eager(failing), chain, 0, map[], [])
  {
    var k: nat :| k < |chain[i].returned| && Shadows(chain, i, k) && !Exempt(chain[i], {}, chain[i].returned[k]);
    var t := chain[i].returned[k];
    assert t !in chain[i].returned[..k];
    var j: nat :| i + 1 <= j < |chain| && t in chain[j].returned && t !in chain[j].received;
    failing := chain[j].id;
    if NothingLost(Eager(failing), chain, 0, map[], []) {
      var down, tr := RunGetsTo(failing, chain, 0, i, map[], []);
      var w, p := Eager(failing), chain[i];
      var tr1 := tr + [Call(p.id, GetAll(w, down, p.inputs))];
      var args := InnerArgs(w, p.id, tr1, |p.outputs|);
      ComesUp(failing, chain, i + 1, j, Interp.Bind(down, p.outputs, args), tr1 + [Inner(p.id, args)], t);
    }
  }
}
