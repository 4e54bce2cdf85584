/**
 bind.go: doBind once the included providers are known.  Slots are allocated, closures are made, and
 what they capture fits what the interpreter is to do.
 */
module Binder {
  import opened Basics
  import opened Interp
  import opened Generate
  import opened Slots
  import opened Closures
  import opened Binding

  // The list that slot allocation gets: the invoke function, one final function, and entries of the
  // static and of the run phase, in whatever order reordering has left them.  'invokeIndex' is where
  // the invoke function stood before that.
  ghost predicate Phases(funcs: seq<Func>, invokeIndex: nat, invoke: nat) {
    && invokeIndex <= |funcs| && invoke < |funcs| && InvokePhase(funcs[invoke])
    && (forall i: nat :: i < |funcs| && i != invoke ==> StaticPhase(funcs[i]) || RunPhase(funcs[i]))
    && exists last: nat :: OneFinal(funcs, last)
  }

  // Nobody has been moved past 'invokeIndex': the static phase stands before it, and all others behind.
  ghost predicate Separated(funcs: seq<Func>, invokeIndex: nat) {
    && invokeIndex <= |funcs|
    && (forall i: nat :: i < invokeIndex ==> StaticPhase(funcs[i]))
    && (forall i: nat :: invokeIndex <= i < |funcs| ==> !StaticPhase(funcs[i]))
  }

  ghost predicate OneFinal(funcs: seq<Func>, last: nat) {
    && last < |funcs| && funcs[last].included
    && forall i: nat :: i < |funcs| ==> (funcs[i].kind.Final? <==> i == last)
  }

  // Nothing comes up in the static phase; the results of the init function are kept as 'received'.
  ghost predicate StaticPhase(f: Func) {
    && ((f.kind.Literal? && |f.outputs| == 1 && f.inputs == []) || IsStatic(f) || (f.kind.Init? && f.inputs == []))
    && f.returned == [] && (f.kind.Init? || f.received == [])
  }

  ghost predicate InvokePhase(f: Func) {
    f.kind.Invoke? && f.included && f.inputs == [] && f.returned == []
  }

  // An injector returns nothing but the error of its failure, and the final function sends nothing down.
  ghost predicate RunPhase(f: Func) {
    || (IsInjector(f) && f.received == [] && f.returned == if f.kind.Fallible? then [ERROR] else [])
    || f.kind.Wrapper?
    || (f.kind.Final? && f.outputs == [] && f.received == [])
  }

  // Everything that is read has a position: what is taken by a provider before 'invokeIndex' is sent there,
  // and what comes up is returned from there on.
  ghost predicate WellSupplied(funcs: seq<Func>, invokeIndex: nat)
    requires invokeIndex <= |funcs|
  {
    && !Mentioned(funcs, NO_TYPE)
    && (forall i: nat, t :: i < invokeIndex && funcs[i].included && t in funcs[i].inputs ==>
          SentBetween(funcs, 0, invokeIndex, t))
    && (forall i: nat, t :: i < |funcs| && funcs[i].included && ComesUp(funcs[i], t) ==>
          ReturnedFrom(funcs, invokeIndex, t))
  }

  // What the provider reads on the way up, or sends there if it fails.
  predicate ComesUp(f: Func, t: TypeCode) {
    (!f.kind.Init? && t in f.received) || (f.kind.Fallible? && t == ERROR)
  }

  datatype Group = Statics | Runs | Finals

  predicate InGroup(f: Func, g: Group) {
    match g
    case Statics => f.kind.StaticInjector? || f.kind.StaticFallible?
    case Runs => f.kind.Injector? || f.kind.Fallible? || f.kind.Wrapper?
    case Finals => f.kind.Final?
  }

  // What has to be zeroed if what comes after provider 'k' does not run: for a static provider what later
  // entries before 'invokeIndex' send, for others, unless they stand before 'invokeIndex', what is returned
  // from 'k' on; excluded providers count as well.
  ghost predicate ToSkip(funcs: seq<Func>, invokeIndex: nat, k: nat, t: TypeCode)
    requires k < |funcs| && invokeIndex <= |funcs|
  {
    if InGroup(funcs[k], Statics) then SentBetween(funcs, k + 1, invokeIndex, t)
    else invokeIndex <= k && ReturnedFrom(funcs, k, t)
  }

  ghost function WithSkips(funcs: seq<Func>, invokeIndex: nat, k: nat): Func
    requires k < |funcs| && invokeIndex <= |funcs|
  {
    funcs[k].(skips := set i, j | 0 <= i < |funcs| && funcs[i].included && 0 <= j < |Flows(funcs[i])|
                                  && ToSkip(funcs, invokeIndex, k, Flows(funcs[i])[j]) :: Flows(funcs[i])[j])
  }

  // The included providers of a group among the first 'n', in order.
  ghost function Collection(funcs: seq<Func>, invokeIndex: nat, g: Group, n: nat): seq<Func>
    requires n <= |funcs| && invokeIndex <= |funcs|
  {
    if n == 0 then []
    else Collection(funcs, invokeIndex, g, n - 1)
         + if funcs[n - 1].included && InGroup(funcs[n - 1], g) then [WithSkips(funcs, invokeIndex, n - 1)] else []
  }

  // The values of the included literals, the closest winning.
  ghost function LiteralFlow(funcs: seq<Func>, n: nat): Interp.Flow
    requires n <= |funcs| && forall i: nat :: i < n && funcs[i].kind.Literal? ==> funcs[i].outputs != []
  {
    if n == 0 then map[]
    else if funcs[n - 1].included && funcs[n - 1].kind.Literal?
    then LiteralFlow(funcs, n - 1)[funcs[n - 1].outputs[0] := funcs[n - 1].kind.value]
    else LiteralFlow(funcs, n - 1)
  }

  // The run chain: the providers of the run group, then the final function.
  ghost function ChainOf(funcs: seq<Func>, invokeIndex: nat): seq<Func>
    requires invokeIndex <= |funcs|
  {
    Collection(funcs, invokeIndex, Runs, |funcs|) + Collection(funcs, invokeIndex, Finals, |funcs|)
  }

  // What is to be run for a list of providers.
  ghost function PlanFor(funcs: seq<Func>, invokeIndex: nat, invoke: nat, init: Option<nat>): Plan
    requires invokeIndex <= |funcs| && invoke < |funcs| && (init.Some? ==> init.value < |funcs|)
  {
    Plan(Collection(funcs, invokeIndex, Statics, |funcs|), ChainOf(funcs, invokeIndex), funcs[invoke],
         if init.Some? then Some(funcs[init.value]) else None)
  }

  ghost predicate InitOk(funcs: seq<Func>, invokeIndex: nat, init: Option<nat>) {
    init.Some? ==> init.value < |funcs| && funcs[init.value].kind.Init? && funcs[init.value].included
  }

  lemma {:induction false} RunsSoFar(funcs: seq<Func>, invokeIndex: nat, invoke: nat, n: nat)
    requires Phases(funcs, invokeIndex, invoke) && n <= |funcs|
    ensures forall f :: f in Collection(funcs, invokeIndex, Runs, n) ==> RunPhase(f) && !f.kind.Final?
  {
    if n > 0 {
      RunsSoFar(funcs, invokeIndex, invoke, n - 1);
      assert n - 1 != invoke ==> StaticPhase(funcs[n - 1]) || RunPhase(funcs[n - 1]);
    }
  }

  lemma {:induction false} FinalsSoFar(funcs: seq<Func>, invokeIndex: nat, last: nat, n: nat)
    requires OneFinal(funcs, last) && invokeIndex <= |funcs| && n <= |funcs|
    ensures
      Collection(funcs, invokeIndex, Finals, n) == if n <= last then [] else [WithSkips(funcs, invokeIndex, last)]
  {
    if n > 0 {
      FinalsSoFar(funcs, invokeIndex, last, n - 1);
      assert funcs[n - 1].kind.Final? <==> n - 1 == last;
    }
  }

  // The run phase is a chain that the interpreter understands.
  lemma RunsAreAChain(funcs: seq<Func>, invokeIndex: nat, invoke: nat)
    requires Phases(funcs, invokeIndex, invoke)
    ensures RunChain(ChainOf(funcs, invokeIndex))
  {
    var last: nat :| OneFinal(funcs, last);
    FinalsSoFar(funcs, invokeIndex, last, |funcs|);
    RunsSoFar(funcs, invokeIndex, invoke, |funcs|);
    var front, f := Collection(funcs, invokeIndex, Runs, |funcs|), WithSkips(funcs, invokeIndex, last);
    assert f.kind.Final? by {
      assert funcs[last].kind.Final?;
    }
    assert ChainOf(funcs, invokeIndex) == front + [f];
    forall i: nat | i < |front| ensures RunPhase(front[i]) && !front[i].kind.Final? {
      assert front[i] in front;
    }
  }

  // Everything the included providers deal in is known to the slot maps, and everything that is read
  // or returned has a position.
  ghost predicate LayoutFor(funcs: seq<Func>, invokeIndex: nat, l: Layout)
    requires invokeIndex <= |funcs|
  {
    && (forall t :: t in l.downV <==> Mentioned(funcs, t)) && (forall t :: t in l.upV <==> Mentioned(funcs, t))
    && SlotsOk(l.downV, l.upV, l.count)
    && DownPlaced(funcs, invokeIndex, invokeIndex, l.downV) && UpPlaced(funcs, invokeIndex, l.upV)
  }

  lemma MentionedFlows(funcs: seq<Func>, invokeIndex: nat, l: Layout, i: nat)
    requires invokeIndex <= |funcs| && LayoutFor(funcs, invokeIndex, l) && WellSupplied(funcs, invokeIndex)
    requires i < |funcs| && funcs[i].included
    ensures FlowsKnown(funcs[i], l.downV, l.upV)
  {
  }

  lemma RunPlaced(funcs: seq<Func>, invokeIndex: nat, l: Layout, i: nat)
    requires i < |funcs| && invokeIndex <= |funcs|
    requires LayoutFor(funcs, invokeIndex, l) && WellSupplied(funcs, invokeIndex)
    requires funcs[i].included && (RunPhase(funcs[i]) || funcs[i].kind.Invoke?)
    ensures PlacedFor(funcs[i], l.downV, l.upV)
  {
  }

  lemma StaticPlaced(funcs: seq<Func>, invokeIndex: nat, l: Layout, i: nat)
    requires i < |funcs| && invokeIndex <= |funcs|
    requires LayoutFor(funcs, invokeIndex, l) && WellSupplied(funcs, invokeIndex)
    requires funcs[i].included && IsStatic(funcs[i])
    ensures Placed(funcs[i].inputs, l.downV)
  {
  }

  // generateWrappers for the providers of the static group; None stands for its errors.
  method CompileStatic(f: Func, mustZero: seq<TypeCode>, downV: Vmap) returns (r: Option<Compiled>)
    requires IsStatic(f)
    requires forall t, t' :: t in downV && t' in downV && downV[t] >= 0 && downV[t] == downV[t'] ==> t == t'
    requires forall t :: t in mustZero ==> t in downV && downV[t] >= 0
    ensures r.Some? && Placed(f.inputs, downV) ==> StaticFor(r.value, Skipping(f, mustZero), downV)
    ensures Known(f.inputs, downV) && Known(f.outputs, downV) ==> r.Some?
  {
    var inMap := GenerateParameterMap(f.inputs, downV);
    if inMap == None {
      return None;
    }
    var outMap := GenerateParameterMap(f.outputs, downV);
    if outMap == None {
      return None;
    }
    var zero: map<nat, TypeCode> := map[];
    if f.kind.StaticFallible? {
      var z := MakeZero(downV, mustZero);
      if z == None {
        return None;
      }
      zero := z.value;
    }
    return Some(Compiled(Skipping(f, mustZero), inMap.value, outMap.value, NO_PARAMETERS, NO_PARAMETERS, zero, -1));
  }

  lemma LiteralsAreMentioned(funcs: seq<Func>, invokeIndex: nat, invoke: nat, l: Layout)
    requires Phases(funcs, invokeIndex, invoke) && LayoutFor(funcs, invokeIndex, l)
    ensures forall i: nat :: i < |funcs| && funcs[i].kind.Literal? ==> funcs[i].outputs != []
    ensures forall i: nat :: i < |funcs| && funcs[i].included && funcs[i].kind.Literal? ==>
              funcs[i].outputs[0] in l.downV
  {
    forall i: nat | i < |funcs| && funcs[i].kind.Literal?
      ensures funcs[i].outputs != []
      ensures funcs[i].included ==> funcs[i].outputs[0] in l.downV
    {
      assert StaticPhase(funcs[i]);
      var t := funcs[i].outputs[0];
      assert t in Flows(funcs[i]);
      assert funcs[i].included ==> Mentioned(funcs, t);
    }
  }

  // The value collection before anything has run holds the literals.
  method WriteLiterals(funcs: seq<Func>, invokeIndex: nat, l: Layout, ghost invoke: nat) returns (base: array<Slot>)
    requires Phases(funcs, invokeIndex, invoke) && LayoutFor(funcs, invokeIndex, l)
    ensures fresh(base) && forall i: nat :: i < |funcs| && funcs[i].kind.Literal? ==> funcs[i].outputs != []
    ensures Entry(l.downV, l.upV, base[..], LiteralFlow(funcs, |funcs|))
  {
    LiteralsAreMentioned(funcs, invokeIndex, invoke, l);
    base := new Slot[l.count](_ => None);
    assert Entry(l.downV, l.upV, base[..], map[]);
    hide Entry, LayoutFor, Phases;
    for i := 0 to |funcs|
      invariant fresh(base)
      invariant Entry(l.downV, l.upV, base[..], LiteralFlow(funcs, i))
    {
      WriteIfLiteral(base, l, funcs[i], LiteralFlow(funcs, i));
    }
  }

  method WriteIfLiteral(base: array<Slot>, l: Layout, f: Func, ghost m: Interp.Flow)
    requires Entry(l.downV, l.upV, base[..], m)
    requires f.included && f.kind.Literal? ==> f.outputs != [] && f.outputs[0] in l.downV
    modifies base
    ensures Entry(l.downV, l.upV, base[..],
                  if f.included && f.kind.Literal? then m[f.outputs[0] := f.kind.value] else m)
  {
    if f.included && f.kind.Literal? {
      WriteLiteral(base, l, f.outputs[0], f.kind.value, m);
    }
  }

  method WriteLiteral(base: array<Slot>, l: Layout, t: TypeCode, x: Value, ghost m: Interp.Flow)
    requires Entry(l.downV, l.upV, base[..], m) && t in l.downV
    modifies base
    ensures Entry(l.downV, l.upV, base[..], m[t := x])
  {
    ghost var before := base[..];
    WritingOne(l.downV, l.upV, before, m, t, x);
    if l.downV[t] >= 0 {
      base[l.downV[t]] := Some(x);
    }
    SameSlotsCarry(l.upV, before, base[..], map[]);
  }

  method CompileStatics(funcs: seq<Func>, invokeIndex: nat, l: Layout, zeroRemainder: map<nat, seq<TypeCode>>,
                        ghost invoke: nat)
    returns (cs: seq<Compiled>)
    requires Phases(funcs, invokeIndex, invoke) && LayoutFor(funcs, invokeIndex, l) && WellSupplied(funcs, invokeIndex)
    requires forall k: nat :: k < invokeIndex ==>
               k in zeroRemainder && ZeroAfter(funcs, invokeIndex, l.downV.Keys, k, zeroRemainder[k])
    ensures StaticsFor(cs, Collection(funcs, invokeIndex, Statics, |funcs|), l.downV)
  {
    hide LayoutFor, WellSupplied, ZeroAfter, StaticFor, WithSkips, StaticPhase, Phases, SentBetween;
    PhasesAre(funcs, invokeIndex, invoke);
    cs := [];
    for i := 0 to |funcs|
      invariant StaticsFor(cs, Collection(funcs, invokeIndex, Statics, i), l.downV)
    {
      if funcs[i].included && (funcs[i].kind.StaticInjector? || funcs[i].kind.StaticFallible?) {
        if i >= invokeIndex {
          NothingAfter(funcs, invokeIndex, l, i);
        }
        var c := StaticAt(funcs, invokeIndex, l, i, if i < invokeIndex then zeroRemainder[i] else []);
        cs := cs + [c];
      }
    }
  }

  lemma NothingAfter(funcs: seq<Func>, invokeIndex: nat, l: Layout, i: nat)
    requires invokeIndex <= i < |funcs|
    ensures ZeroAfter(funcs, invokeIndex, l.downV.Keys, i, [])
  {
  }

  method StaticAt(funcs: seq<Func>, invokeIndex: nat, l: Layout, i: nat, mustZero: seq<TypeCode>) returns (c: Compiled)
    requires i < |funcs| && invokeIndex <= |funcs| && LayoutFor(funcs, invokeIndex, l)
    requires WellSupplied(funcs, invokeIndex) && ZeroAfter(funcs, invokeIndex, l.downV.Keys, i, mustZero)
    requires IsStatic(funcs[i]) && funcs[i].included && InGroup(funcs[i], Statics)
    ensures StaticFor(c, WithSkips(funcs, invokeIndex, i), l.downV)
  {
    StaticPlaced(funcs, invokeIndex, l, i);
    MentionedFlows(funcs, invokeIndex, l, i);
    forall t | t in mustZero ensures t in l.downV && l.downV[t] >= 0 {
      assert SentBetween(funcs, 0, invokeIndex, t);
    }
    var r := CompileStatic(funcs[i], mustZero, l.downV);
    assert forall t :: t in mustZero <==> Mentioned(funcs, t) && ToSkip(funcs, invokeIndex, i, t);
    SkippingIs(funcs, invokeIndex, i, mustZero);
    c := r.value;
  }

  // What slot allocation hands to a provider is what the provider skips.
  lemma SkippingIs(funcs: seq<Func>, invokeIndex: nat, i: nat, mustZero: seq<TypeCode>)
    requires i < |funcs| && invokeIndex <= |funcs|
    requires forall t :: t in mustZero <==> Mentioned(funcs, t) && ToSkip(funcs, invokeIndex, i, t)
    ensures Skipping(funcs[i], mustZero) == WithSkips(funcs, invokeIndex, i)
  {
    var skips := WithSkips(funcs, invokeIndex, i).skips;
    forall t ensures t in mustZero <==> t in skips {
      if t in mustZero {
        var a: nat :| a < |funcs| && funcs[a].included && t in Flows(funcs[a]);
        var b :| 0 <= b < |Flows(funcs[a])| && Flows(funcs[a])[b] == t;
      }
      if t in skips {
        assert Mentioned(funcs, t);
      }
    }
  }

  // What has been compiled for a stretch of the run chain.
  ghost predicate RunsFor(cs: seq<Compiled>, chain: seq<Func>, downV: Vmap, upV: Vmap) {
    && |cs| == |chain|
    && forall k :: 0 <= k < |cs| ==> CompiledFor(cs[k], chain[k], downV, upV) && PlacedFor(chain[k], downV, upV)
  }

  method CompileGroup(g: Group, funcs: seq<Func>, invokeIndex: nat, l: Layout, zeroInner: map<nat, seq<TypeCode>>,
                      ghost invoke: nat)
    returns (cs: seq<Compiled>)
    requires Phases(funcs, invokeIndex, invoke) && LayoutFor(funcs, invokeIndex, l) && WellSupplied(funcs, invokeIndex)
    requires forall k: nat :: invokeIndex <= k < |funcs| ==>
               k in zeroInner
               && ZeroFrom(funcs, l.upV.Keys, k, zeroInner[k])
    requires g != Statics
    ensures RunsFor(cs, Collection(funcs, invokeIndex, g, |funcs|), l.downV, l.upV)
  {
    hide *;
    PhasesAre(funcs, invokeIndex, invoke);
    cs := [];
    NothingCompiled(funcs, invokeIndex, g, l.downV, l.upV);
    for i := 0 to |funcs|
      invariant RunsFor(cs, Collection(funcs, invokeIndex, g, i), l.downV, l.upV)
    {
      OneMoreCollected(funcs, invokeIndex, g, i);
      if funcs[i].included && InGroup(funcs[i], g) {
        InvokeInNoGroup(funcs[invoke], g);
        ZeroListIs(funcs, invokeIndex, l, g, i, if i >= invokeIndex then zeroInner[i] else []);
        var c := RunAt(funcs, invokeIndex, l, i, if i >= invokeIndex then zeroInner[i] else []);
        OneMoreCompiled(cs, Collection(funcs, invokeIndex, g, i), l.downV, l.upV, c, WithSkips(funcs, invokeIndex, i));
        cs := cs + [c];
      }
    }
  }

  lemma PhasesAre(funcs: seq<Func>, invokeIndex: nat, invoke: nat)
    requires Phases(funcs, invokeIndex, invoke)
    ensures invokeIndex <= |funcs| && invoke < |funcs| && funcs[invoke].kind.Invoke? && funcs[invoke].included
    ensures forall i: nat :: i < |funcs| && i != invoke ==> StaticPhase(funcs[i]) || RunPhase(funcs[i])
    ensures forall i: nat :: i < |funcs| && InGroup(funcs[i], Statics) ==> IsStatic(funcs[i]) && StaticPhase(funcs[i])
    ensures forall i: nat :: i < |funcs| && (funcs[i].kind.Literal? || funcs[i].kind.Init?) ==> StaticPhase(funcs[i])
    ensures forall i: nat, g :: i < |funcs| && g != Statics && InGroup(funcs[i], g) ==> RunPhase(funcs[i])
  {
  }

  lemma NothingCompiled(funcs: seq<Func>, invokeIndex: nat, g: Group, downV: Vmap, upV: Vmap)
    requires invokeIndex <= |funcs|
    ensures RunsFor([], Collection(funcs, invokeIndex, g, 0), downV, upV)
  {
  }

  lemma ZeroListIs(funcs: seq<Func>, invokeIndex: nat, l: Layout, g: Group, i: nat, mustZero: seq<TypeCode>)
    requires i < |funcs| && invokeIndex <= |funcs| && InGroup(funcs[i], g) && g != Statics
    requires LayoutFor(funcs, invokeIndex, l)
    requires if invokeIndex <= i then ZeroFrom(funcs, l.upV.Keys, i, mustZero) else mustZero == []
    ensures forall t :: t in mustZero <==> Mentioned(funcs, t) && ToSkip(funcs, invokeIndex, i, t)
  {
  }

  lemma OneMoreCollected(funcs: seq<Func>, invokeIndex: nat, g: Group, i: nat)
    requires i < |funcs| && invokeIndex <= |funcs|
    ensures
      var before := Collection(funcs, invokeIndex, g, i);
      Collection(funcs, invokeIndex, g, i + 1) ==
        if funcs[i].included && InGroup(funcs[i], g) then before + [WithSkips(funcs, invokeIndex, i)] else before
  {
  }

  lemma InvokeInNoGroup(f: Func, g: Group)
    requires f.kind.Invoke?
    ensures !InGroup(f, g)
  {
  }

  lemma OneMoreCompiled(cs: seq<Compiled>, chain: seq<Func>, downV: Vmap, upV: Vmap, c: Compiled, f: Func)
    requires RunsFor(cs, chain, downV, upV) && CompiledFor(c, f, downV, upV) && PlacedFor(f, downV, upV)
    ensures RunsFor(cs + [c], chain + [f], downV, upV)
  {
  }

  method RunAt(funcs: seq<Func>, invokeIndex: nat, l: Layout, i: nat, mustZero: seq<TypeCode>) returns (c: Compiled)
    requires i < |funcs| && invokeIndex <= |funcs|
    requires LayoutFor(funcs, invokeIndex, l) && WellSupplied(funcs, invokeIndex)
    requires funcs[i].included && RunPhase(funcs[i])
    requires forall t :: t in mustZero <==> Mentioned(funcs, t) && ToSkip(funcs, invokeIndex, i, t)
    ensures CompiledFor(c, WithSkips(funcs, invokeIndex, i), l.downV, l.upV)
    ensures PlacedFor(WithSkips(funcs, invokeIndex, i), l.downV, l.upV)
  {
    RunPlaced(funcs, invokeIndex, l, i);
    assert funcs[i].kind.Fallible? ==> ERROR in [ERROR];
    forall t | t in mustZero ensures t in l.upV && l.upV[t] >= 0 {
      assert ReturnedFrom(funcs, invokeIndex, t);
    }
    var r := GenerateWrappers(funcs[i], l.downV, l.upV, mustZero);
    SkippingIs(funcs, invokeIndex, i, mustZero);
    c := r.value;
  }

  // The parameter maps of the invoke or the init function.
  method BoundaryMap(flow: seq<TypeCode>, vmap: Vmap) returns (pm: ParameterMap)
    requires Known(flow, vmap)
    ensures MapFor(pm, flow, vmap)
  {
    var r := GenerateParameterMap(flow, vmap);
    pm := r.value;
  }

  // Some result of the init function is sent by no provider of the static phase.
  ghost predicate InitStarved(funcs: seq<Func>, invokeIndex: nat, init: Option<nat>)
    requires InitOk(funcs, invokeIndex, init) && invokeIndex <= |funcs|
  {
    init.Some? && exists t :: t in funcs[init.value].received && !SentBetween(funcs, 0, invokeIndex, t)
  }

  // Binding fails only for an init function that returns what the static phase does not send.
  // Otherwise the bound functions do what the interpreter does with the plan for these providers,
  // starting from the literals.
  method DoBind(w: World, funcs: seq<Func>, invokeIndex: nat, invoke: nat, init: Option<nat>) returns (r: Option<Bound>)
    requires Phases(funcs, invokeIndex, invoke) && WellSupplied(funcs, invokeIndex) && InitOk(funcs, invokeIndex, init)
    ensures forall i: nat :: i < |funcs| && funcs[i].kind.Literal? ==> funcs[i].outputs != []
    ensures r.None? <==> InitStarved(funcs, invokeIndex, init)
    ensures r.Some? ==> fresh(r.value) && fresh(r.value.baseValues) && r.value.Valid() && r.value.w == w
    ensures r.Some? ==> r.value.p == PlanFor(funcs, invokeIndex, invoke, init)
    ensures r.Some? ==> r.value.shared == Shared(false, LiteralFlow(funcs, |funcs|), 0)
  {
    hide *;
    PhasesAre(funcs, invokeIndex, invoke);
    InitIs(funcs, invokeIndex, init);
    var initNeeds := if init.Some? then funcs[init.value].received else [];
    var missing, l, zeroRemainder, zeroInner := AllocateSlots(funcs, invokeIndex, initNeeds);
    StarvedIs(funcs, invokeIndex, init, initNeeds, missing);
    LayoutIs(funcs, invokeIndex, l);
    var base := WriteLiterals(funcs, invokeIndex, l, invoke);
    if missing {
      return None;
    }
    var runs := CompileGroup(Runs, funcs, invokeIndex, l, zeroInner, invoke);
    var finals := CompileGroup(Finals, funcs, invokeIndex, l, zeroInner, invoke);
    var statics := CompileStatics(funcs, invokeIndex, l, zeroRemainder, invoke);
    RunsAreAChain(funcs, invokeIndex, invoke);
    ChainCompiled(funcs, invokeIndex, runs, finals, l.downV, l.upV);
    var code := Nest(runs + finals, ChainOf(funcs, invokeIndex), l.downV, l.upV);
    MentionedFlows(funcs, invokeIndex, l, invoke);
    RunPlaced(funcs, invokeIndex, l, invoke);
    KnownParts(funcs[invoke], l.downV, l.upV);
    var invokeOut := BoundaryMap(funcs[invoke].outputs, l.downV);
    var invokeIn := BoundaryMap(funcs[invoke].received, l.upV);
    var initOut, initIn := NO_PARAMETERS, NO_PARAMETERS;
    if init.Some? {
      InitPlaced(funcs, invokeIndex, init, l);
      KnownParts(funcs[init.value], l.downV, l.upV);
      initOut := BoundaryMap(funcs[init.value].outputs, l.downV);
      initIn := BoundaryMap(funcs[init.value].received, l.downV);
    }
    ghost var p := PlanFor(funcs, invokeIndex, invoke, init);
    AllFits(funcs, invokeIndex, invoke, init, code, statics, l.downV, l.upV, invokeOut, invokeIn, initOut, initIn);
    var b := new Bound(w, code, statics, invokeOut, invokeIn, init.Some?, initOut, initIn, base,
                       p, l.downV, l.upV, LiteralFlow(funcs, |funcs|));
    return Some(b);
  }

  lemma InitIs(funcs: seq<Func>, invokeIndex: nat, init: Option<nat>)
    requires InitOk(funcs, invokeIndex, init)
    ensures init.Some? ==> init.value < |funcs| && funcs[init.value].included
  {
  }

  lemma StarvedIs(funcs: seq<Func>, invokeIndex: nat, init: Option<nat>, initNeeds: seq<TypeCode>, missing: bool)
    requires InitOk(funcs, invokeIndex, init) && invokeIndex <= |funcs|
    requires initNeeds == if init.Some? then funcs[init.value].received else []
    requires missing <==> exists t :: t in initNeeds && Mentioned(funcs, t) && !SentBetween(funcs, 0, invokeIndex, t)
    ensures missing <==> InitStarved(funcs, invokeIndex, init)
  {
    if init.Some? {
      ReceivedAreMentioned(funcs, invokeIndex, init);
    }
  }

  lemma LayoutIs(funcs: seq<Func>, invokeIndex: nat, l: Layout)
    requires invokeIndex <= |funcs|
    requires (forall t :: t in l.downV <==> Mentioned(funcs, t)) && (forall t :: t in l.upV <==> Mentioned(funcs, t))
    requires SlotsOk(l.downV, l.upV, l.count)
    requires DownPlaced(funcs, invokeIndex, invokeIndex, l.downV) && UpPlaced(funcs, invokeIndex, l.upV)
    ensures LayoutFor(funcs, invokeIndex, l)
  {
  }

  lemma ChainCompiled(funcs: seq<Func>, invokeIndex: nat, runs: seq<Compiled>, finals: seq<Compiled>, downV: Vmap,
                      upV: Vmap)
    requires invokeIndex <= |funcs|
    requires RunsFor(runs, Collection(funcs, invokeIndex, Runs, |funcs|), downV, upV)
    requires RunsFor(finals, Collection(funcs, invokeIndex, Finals, |funcs|), downV, upV)
    ensures |runs + finals| == |ChainOf(funcs, invokeIndex)| && ChainPlaced(ChainOf(funcs, invokeIndex), downV, upV)
    ensures forall k :: 0 <= k < |runs + finals| ==>
              CompiledFor((runs + finals)[k], ChainOf(funcs, invokeIndex)[k], downV, upV)
  {
  }

  lemma KnownParts(f: Func, downV: Vmap, upV: Vmap)
    requires FlowsKnown(f, downV, upV)
    ensures Known(f.inputs, downV) && Known(f.outputs, downV) && Known(f.returned, upV) && Known(f.received, upV)
  {
  }

  lemma AllFits(funcs: seq<Func>, invokeIndex: nat, invoke: nat, init: Option<nat>, code: Code, statics: seq<Compiled>,
                downV: Vmap, upV: Vmap, invokeOut: ParameterMap, invokeIn: ParameterMap, initOut: ParameterMap,
                    initIn: ParameterMap)
    requires invokeIndex <= |funcs| && invoke < |funcs| && InitOk(funcs, invokeIndex, init)
             && RunChain(ChainOf(funcs, invokeIndex))
    requires CodeFor(code, ChainOf(funcs, invokeIndex), 0, downV, upV)
             && ChainPlaced(ChainOf(funcs, invokeIndex), downV, upV)
    requires StaticsFor(statics, Collection(funcs, invokeIndex, Statics, |funcs|), downV)
    requires MapFor(invokeOut, funcs[invoke].outputs, downV)
    requires MapFor(invokeIn, funcs[invoke].received, upV) && PlacedFor(funcs[invoke], downV, upV)
    requires init.Some? ==>
               && MapFor(initOut, funcs[init.value].outputs, downV)
               && MapFor(initIn, funcs[init.value].received, downV) && Placed(funcs[init.value].received, downV)
    ensures Fits(PlanFor(funcs, invokeIndex, invoke, init), code, statics, downV, upV, invokeOut, invokeIn, initOut,
                 initIn)
    ensures PlanFor(funcs, invokeIndex, invoke, init).initF.Some? == init.Some?
  {
    var fs := Collection(funcs, invokeIndex, Statics, |funcs|);
    forall i | 0 <= i < |fs| ensures IsStatic(fs[i]) {
      assert StaticFor(statics[i], fs[i], downV);
    }
  }

  lemma ReceivedAreMentioned(funcs: seq<Func>, invokeIndex: nat, init: Option<nat>)
    requires InitOk(funcs, invokeIndex, init) && init.Some?
    ensures forall t :: t in funcs[init.value].received ==> Mentioned(funcs, t)
  {
  }

  lemma InitPlaced(funcs: seq<Func>, invokeIndex: nat, init: Option<nat>, l: Layout)
    requires invokeIndex <= |funcs| && InitOk(funcs, invokeIndex, init) && init.Some?
    requires LayoutFor(funcs, invokeIndex, l) && WellSupplied(funcs, invokeIndex)
    requires !InitStarved(funcs, invokeIndex, init)
    ensures FlowsKnown(funcs[init.value], l.downV, l.upV) && Known(funcs[init.value].received, l.downV)
    ensures Placed(funcs[init.value].received, l.downV)
  {
  }
}
