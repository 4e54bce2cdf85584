/**
 The closures generate.go makes for each kind of provider, and how bind.go nests them: what running
 them on the shared array does, compared with the interpreter.
 */
module Closures {
  import opened Basics
  import opened Interp
  import opened RunLaws
  import opened Generate

  // What the closures of one provider have captured.
  datatype Compiled = Compiled(
    f: Func,
    inMap: ParameterMap,
    outMap: ParameterMap,
    upMap: ParameterMap,
    retMap: ParameterMap,
    zero: map<nat, TypeCode>,
    upErrorIndex: int)

  ghost predicate Known(flow: seq<TypeCode>, vmap: Vmap) {
    forall t :: t in flow ==> t != NO_TYPE && t in vmap
  }

  // Every type of the provider's flows is known to the slot maps.
  ghost predicate FlowsKnown(f: Func, downV: Vmap, upV: Vmap) {
    && Known(f.inputs, downV) && Known(f.outputs, downV)
    && Known(f.returned, upV) && Known(f.received, upV)
  }

  // Slot allocation has found a position for everything the provider reads, and for the error it may send.
  ghost predicate PlacedFor(f: Func, downV: Vmap, upV: Vmap) {
    && FlowsKnown(f, downV, upV)
    && Placed(f.inputs, downV) && Placed(f.received, upV)
    && (f.kind.Fallible? ==> Placed([ERROR], upV))
  }

  // Slots to be zeroed are slots of types of that direction.
  ghost predicate ZeroMapOk(zero: map<nat, TypeCode>, vmap: Vmap) {
    forall s :: s in zero ==> zero[s] in vmap && vmap[zero[s]] == s
  }

  // Exactly the types in 'types' are to be zeroed.
  ghost predicate ZeroesTypes(zero: map<nat, TypeCode>, types: set<TypeCode>, vmap: Vmap) {
    && ZeroMapOk(zero, vmap)
    && forall t :: t in vmap && vmap[t] >= 0 ==> (vmap[t] in zero <==> t in types)
  }

  ghost predicate CompiledFor(c: Compiled, f: Func, downV: Vmap, upV: Vmap) {
    && c.f == f
    && MapFor(c.inMap, f.inputs, downV)
    && (!f.kind.Final? ==> MapFor(c.outMap, f.outputs, downV))
    && (f.kind.Final? || f.kind.Wrapper? ==> MapFor(c.upMap, f.returned, upV))
    && (f.kind.Wrapper? ==> MapFor(c.retMap, f.received, upV))
    && (f.kind.Wrapper? || f.kind.Fallible? ==> ZeroesTypes(c.zero, f.skips, upV))
    && (f.kind.Fallible? ==> ERROR in upV && c.upErrorIndex == upV[ERROR])
  }

  method MakeZero(vmap: Vmap, mustZero: seq<TypeCode>) returns (r: Option<map<nat, TypeCode>>)
    requires forall t, t' :: t in vmap && t' in vmap && vmap[t] >= 0 && vmap[t] == vmap[t'] ==> t == t'
    requires forall t :: t in mustZero && t in vmap ==> vmap[t] >= 0
    ensures r.Some? <==> forall t :: t in mustZero ==> t in vmap
    ensures r.Some? ==> ZeroesTypes(r.value, (set t: TypeCode | t in mustZero), vmap)
  {
    var zeroMap: map<nat, TypeCode> := map[];
    var done: set<TypeCode> := {};
    for k := 0 to |mustZero|
      invariant forall t :: t in done <==> t in mustZero[..k]
      invariant forall t :: t in done ==> t in vmap
      invariant ZeroMapOk(zeroMap, vmap)
      invariant forall t :: t in vmap && vmap[t] >= 0 ==> (vmap[t] in zeroMap <==> t in done)
    {
      var p := mustZero[k];
      assert mustZero[..k + 1] == mustZero[..k] + [p];
      assert p in mustZero;
      if p !in done {
        done := done + {p};
        if p !in vmap {
          return None;
        }
        zeroMap := zeroMap[vmap[p] := p];
      }
    }
    assert mustZero[..|mustZero|] == mustZero;
    return Some(zeroMap);
  }

  // What slot allocation adds to a provider.
  function Skipping(f: Func, types: seq<TypeCode>): Func {
    f.(skips := set t | t in types)
  }

  // generateWrappers for the providers of the run and final groups; None stands for its errors.
  method GenerateWrappers(f: Func, downV: Vmap, upV: Vmap, mustZeroIfInnerNotCalled: seq<TypeCode>)
    returns (r: Option<Compiled>)
    requires f.kind.Injector? || f.kind.Fallible? || f.kind.Wrapper? || f.kind.Final?
    requires forall t, t' :: t in upV && t' in upV && upV[t] >= 0 && upV[t] == upV[t'] ==> t == t'
    requires forall t :: t in mustZeroIfInnerNotCalled ==> t in upV && upV[t] >= 0
    ensures r.Some? ==> CompiledFor(r.value, Skipping(f, mustZeroIfInnerNotCalled), downV, upV)
    ensures FlowsKnown(f, downV, upV) && (f.kind.Fallible? ==> ERROR in upV) ==> r.Some?
  {
    var inMap := GenerateParameterMap(f.inputs, downV);
    if inMap == None {
      return None;
    }
    var c := Compiled(Skipping(f, mustZeroIfInnerNotCalled), inMap.value, NO_PARAMETERS, NO_PARAMETERS, NO_PARAMETERS,
                      map[], -1);
    if !f.kind.Final? {
      var outMap := GenerateParameterMap(f.outputs, downV);
      if outMap == None {
        return None;
      }
      c := c.(outMap := outMap.value);
    }
    if f.kind.Final? || f.kind.Wrapper? {
      var upMap := GenerateParameterMap(f.returned, upV);
      if upMap == None {
        return None;
      }
      c := c.(upMap := upMap.value);
    }
    if f.kind.Wrapper? {
      var retMap := GenerateParameterMap(f.received, upV);
      if retMap == None {
        return None;
      }
      c := c.(retMap := retMap.value);
    }
    if f.kind.Wrapper? || f.kind.Fallible? {
      var zero := MakeZero(upV, mustZeroIfInnerNotCalled);
      if zero == None {
        return None;
      }
      c := c.(zero := zero.value);
    }
    if f.kind.Fallible? {
      if ERROR !in upV {
        return None;
      }
      c := c.(upErrorIndex := upV[ERROR]);
    }
    return Some(c);
  }

  // The function makeZero returns, run on the value collection.
  method Zero(w: World, zero: map<nat, TypeCode>, v: array<Slot>, ghost vmap: Vmap, ghost other: Vmap)
    requires OneWay(vmap, v.Length) && Disjoint(vmap, other) && ZeroMapOk(zero, vmap)
    modifies v
    ensures ZeroedIn(w, zero, zero.Keys, vmap, old(v[..]), v[..])
    ensures SameSlots(other, old(v[..]), v[..])
  {
    var done: set<nat> := {};
    assert ZeroedIn(w, zero, done, vmap, v[..], v[..]);
    while zero.Keys - done != {}
      invariant done <= zero.Keys
      invariant ZeroedIn(w, zero, done, vmap, old(v[..]), v[..]) && SameSlots(other, old(v[..]), v[..])
      decreases zero.Keys - done
    {
      var s :| s in zero.Keys - done;
      ZeroOne(w, zero, done, vmap, other, old(v[..]), v[..], s);
      v[s] := Some(w.zero(zero[s]));
      done := done + {s};
    }
    assert zero.Keys == (zero.Keys - done) + done;
  }

  // The positions in 'done' have been zeroed, the others have not been touched.
  ghost predicate ZeroedIn(w: World, zero: map<nat, TypeCode>, done: set<nat>, vmap: Vmap, s: seq<Slot>, s': seq<Slot>)
    requires done <= zero.Keys
  {
    && |s'| == |s|
    && forall t :: t in vmap && 0 <= vmap[t] < |s| ==>
         s'[vmap[t]] == if vmap[t] in done then Some(w.zero(t)) else s[vmap[t]]
  }

  lemma ZeroOne(w: World, zero: map<nat, TypeCode>, done: set<nat>, vmap: Vmap, other: Vmap, s: seq<Slot>,
                s': seq<Slot>, x: nat)
    requires OneWay(vmap, |s|) && Disjoint(vmap, other) && ZeroMapOk(zero, vmap) && x in zero && done <= zero.Keys
    requires ZeroedIn(w, zero, done, vmap, s, s') && SameSlots(other, s, s')
    ensures x < |s|
    ensures ZeroedIn(w, zero, done + {x}, vmap, s, s'[x := Some(w.zero(zero[x]))])
    ensures SameSlots(other, s, s'[x := Some(w.zero(zero[x]))])
  {
    var t := zero[x];
    assert t in vmap && vmap[t] == x;
    assert -1 <= vmap[t] < |s|;
  }

  lemma ZeroingIsZeroed(w: World, zero: map<nat, TypeCode>, types: set<TypeCode>, vmap: Vmap, s: seq<Slot>,
                        s': seq<Slot>, m: Flow)
    requires ZeroesTypes(zero, types, vmap) && ZeroedIn(w, zero, zero.Keys, vmap, s, s') && Carries(vmap, s, m)
    ensures Carries(vmap, s', Zeroed(w, m, types))
  {
  }

  // What every closure may rely on when it is called.
  ghost predicate Ready(f: Func, downV: Vmap, upV: Vmap, s: seq<Slot>, down: Flow) {
    && SlotsOk(downV, upV, |s|) && PlacedFor(f, downV, upV)
    && Carries(downV, s, down) && Carries(upV, s, map[])
  }

  method ReadParameters(w: World, pm: ParameterMap, v: array<Slot>, ghost flow: seq<TypeCode>, ghost vmap: Vmap,
                        ghost m: Flow)
    returns (args: seq<Value>)
    requires MapFor(pm, flow, vmap) && Placed(flow, vmap) && OneWay(vmap, v.Length)
    requires Carries(vmap, v[..], m)
    ensures args == GetAll(w, m, flow)
  {
    MapInRange(pm, flow, vmap, v.Length);
    var values := MapInputs(w, pm, v);
    ReadingIsGetting(w, vmap, v[..], m, pm, flow, values);
    args := seq(|values|, k requires 0 <= k < |values| && values[k].Some? => values[k].value);
  }

  method WriteParameters(w: World, pm: ParameterMap, v: array<Slot>, values: seq<Value>,
                         ghost flow: seq<TypeCode>, ghost vmap: Vmap, ghost other: Vmap, ghost m: Flow)
    requires MapFor(pm, flow, vmap) && OneWay(vmap, v.Length) && Disjoint(vmap, other)
    requires Carries(vmap, v[..], m) && |values| == |flow|
    modifies v
    ensures Carries(vmap, v[..], Bind(m, flow, values))
    ensures SameSlots(other, old(v[..]), v[..])
  {
    MapInRange(pm, flow, vmap, v.Length);
    WritingIsBinding(vmap, other, v[..], m, pm, flow, values);
    MapOutputs(pm, v, values);
  }

  lemma SameSlotsCarry(vmap: Vmap, s: seq<Slot>, s': seq<Slot>, m: Flow)
    requires SameSlots(vmap, s, s') && Carries(vmap, s, m)
    ensures Carries(vmap, s', m)
  {
  }

  // wrapEndpoint
  method RunEndpoint(w: World, c: Compiled, v: array<Slot>, tr: Trace, ghost f: Func, ghost downV: Vmap,
                     ghost upV: Vmap,
                     ghost down: Flow)
    returns (tr': Trace)
    requires f.kind.Final? && CompiledFor(c, f, downV, upV) && Ready(f, downV, upV, v[..], down)
    modifies v
    ensures tr' == tr + [Call(f.id, GetAll(w, down, f.inputs))]
    ensures Carries(upV, v[..], Bind(map[], f.returned, Results(w, f.id, tr', |f.returned|)))
  {
    var args := ReadParameters(w, c.inMap, v, f.inputs, downV, down);
    tr' := tr + [Call(c.f.id, args)];
    WriteParameters(w, c.upMap, v, Results(w, c.f.id, tr', |c.upMap.vcIndex|), f.returned, upV, downV, map[]);
  }

  // wrapFallibleInjector, for both kinds of injectors
  method RunInjector(w: World, c: Compiled, v: array<Slot>, tr: Trace, ghost f: Func, ghost downV: Vmap,
                     ghost upV: Vmap,
                     ghost down: Flow)
    returns (errored: bool, tr': Trace)
    requires IsInjector(f) && CompiledFor(c, f, downV, upV) && Ready(f, downV, upV, v[..], down)
    modifies v
    ensures tr' == tr + [Call(f.id, GetAll(w, down, f.inputs))]
    ensures errored <==> Fails(w, f, tr')
    ensures errored <==> f.kind.Fallible? && !w.isNil(w.result(f.id, tr', f.kind.errorIndex))
    ensures forall k: nat :: k < |f.outputs| ==> Sent(w, f, tr')[k] == w.result(f.id, tr', SentAt(f, k))
    ensures errored ==> Carries(upV, v[..], Zeroed(w, map[], f.skips)[ERROR := TheError(w, f, tr')])
    ensures !errored ==> Entry(downV, upV, v[..], Bind(down, f.outputs, Sent(w, f, tr')))
  {
    hide Carries, Zeroed, ZeroedIn, ZeroesTypes, OneWay, Disjoint, SameSlots, MapFor, Placed, SentAt;
    InjectorReady(w, c, f, downV, upV, v[..], down);
    var args := ReadParameters(w, c.inMap, v, f.inputs, downV, down);
    tr' := tr + [Call(c.f.id, args)];
    forall k: nat | k < |f.outputs| ensures Sent(w, f, tr')[k] == w.result(f.id, tr', SentAt(f, k)) {
      SentByIndex(w, f, tr', k);
    }
    ghost var before := v[..];
    if c.f.kind.Injector? {
      errored := false;
      WriteParameters(w, c.outMap, v, Results(w, c.f.id, tr', |c.f.outputs|), f.outputs, downV, upV, down);
      SameSlotsCarry(upV, before, v[..], map[]);
    } else {
      var raw := Results(w, c.f.id, tr', |c.f.outputs| + 1);
      var e := c.f.kind.errorIndex;
      errored := !w.isNil(raw[e]);
      if errored {
        Zero(w, c.zero, v, upV, downV);
        ErrorReturned(w, c, f, downV, upV, before, v[..], raw[e]);
        ghost var zeroed := v[..];
        v[c.upErrorIndex] := Some(raw[e]);
        assert v[..] == zeroed[c.upErrorIndex := Some(raw[e])];
      } else {
        WriteParameters(w, c.outMap, v, Without(raw, e), f.outputs, downV, upV, down);
        SameSlotsCarry(upV, before, v[..], map[]);
      }
    }
  }

  lemma MapsOf(c: Compiled, f: Func, downV: Vmap, upV: Vmap)
    requires CompiledFor(c, f, downV, upV)
    ensures c.f == f && MapFor(c.inMap, f.inputs, downV)
    ensures PlacedFor(f, downV, upV) ==> Placed(f.inputs, downV)
  {
  }

  lemma InjectorReady(w: World, c: Compiled, f: Func, downV: Vmap, upV: Vmap, s: seq<Slot>, down: Flow)
    requires IsInjector(f) && CompiledFor(c, f, downV, upV) && Ready(f, downV, upV, s, down)
    ensures MapFor(c.inMap, f.inputs, downV) && Placed(f.inputs, downV) && MapFor(c.outMap, f.outputs, downV)
    ensures f.kind.Fallible? ==> ZeroMapOk(c.zero, upV)
  {
  }

  // After a failure, zeroing and writing the error leaves what is to be sent up.
  lemma ErrorReturned(w: World, c: Compiled, f: Func, downV: Vmap, upV: Vmap, s: seq<Slot>, s': seq<Slot>, e: Value)
    requires f.kind.Fallible? && CompiledFor(c, f, downV, upV) && PlacedFor(f, downV, upV) && OneWay(upV, |s|)
    requires ZeroedIn(w, c.zero, c.zero.Keys, upV, s, s') && Carries(upV, s, map[])
    ensures 0 <= c.upErrorIndex < |s'|
    ensures Carries(upV, s'[c.upErrorIndex := Some(e)], Zeroed(w, map[], f.skips)[ERROR := e])
  {
    ZeroingIsZeroed(w, c.zero, f.skips, upV, s, s', map[]);
    hide Zeroed, ZeroedIn, MapFor;
    assert ERROR in [ERROR];
  }

  // The nesting bind.go builds: the final function, a wrapper around the rest, or a batch of
  // consecutive injectors followed by the rest.
  datatype Code = Endpoint(c: Compiled) | Around(c: Compiled, inner: Code) | Batch(cs: seq<Compiled>, next: Code)

  // 'code' is the nesting for the chain from position 'i' on.
  ghost predicate CodeFor(code: Code, chain: seq<Func>, i: nat, downV: Vmap, upV: Vmap)
    decreases code
  {
    match code
    case Endpoint(c) => i + 1 == |chain| && CompiledFor(c, chain[i], downV, upV)
    case Around(c, inner) =>
      i + 1 < |chain| && chain[i].kind.Wrapper? && CompiledFor(c, chain[i], downV, upV)
      && CodeFor(inner, chain, i + 1, downV, upV)
    case Batch(cs, next) =>
      cs != [] && i + |cs| < |chain| && BatchFor(cs, chain, i, downV, upV)
      && CodeFor(next, chain, i + |cs|, downV, upV)
  }

  ghost predicate BatchFor(cs: seq<Compiled>, chain: seq<Func>, i: nat, downV: Vmap, upV: Vmap)
    requires i + |cs| <= |chain|
  {
    forall k :: 0 <= k < |cs| ==> IsInjector(chain[i + k]) && CompiledFor(cs[k], chain[i + k], downV, upV)
  }

  ghost predicate ChainPlaced(chain: seq<Func>, downV: Vmap, upV: Vmap) {
    forall i :: 0 <= i < |chain| ==> PlacedFor(chain[i], downV, upV)
  }

  // The state in which the rest of the chain may be run.
  ghost predicate Entry(downV: Vmap, upV: Vmap, s: seq<Slot>, down: Flow) {
    SlotsOk(downV, upV, |s|) && Carries(downV, s, down) && Carries(upV, s, map[])
  }

  // Running the closures makes the calls the interpreter makes, in the same order and with the same
  // arguments, and leaves in the array what the interpreter sends up.
  method Exec(w: World, code: Code, v: array<Slot>, tr: Trace,
              ghost chain: seq<Func>, ghost i: nat, ghost downV: Vmap, ghost upV: Vmap, ghost down: Flow)
    returns (tr': Trace)
    requires RunChain(chain) && CodeFor(code, chain, i, downV, upV) && ChainPlaced(chain, downV, upV)
    requires i < |chain| && Entry(downV, upV, v[..], down)
    modifies v
    ensures tr' == RunFrom(AsCoded, w, chain, i, down, tr).trace
    ensures Carries(upV, v[..], RunFrom(AsCoded, w, chain, i, down, tr).up)
    decreases code, 0
  {
    hide Carries, Entry, CompiledFor, Ready, RunFrom, ChainPlaced;
    match code
    case Endpoint(c) =>
      EntryIsReady(chain, i, downV, upV, v[..], down);
      FinalStep(w, chain, i, down, tr);
      tr' := RunEndpoint(w, c, v, tr, chain[i], downV, upV, down);
    case Around(c, inner) =>
      tr' := RunWrapper(w, c, inner, v, tr, chain, i, downV, upV, down);
    case Batch(cs, next) =>
      var errored;
      ghost var down';
      errored, tr', down' := RunBatch(w, cs, v, tr, chain, i, downV, upV, down);
      if !errored {
        tr' := Exec(w, next, v, tr', chain, i + |cs|, downV, upV, down');
      }
  }

  // Consecutive injectors are run in a loop; the first one that fails ends the whole chain.
  method RunBatch(w: World, cs: seq<Compiled>, v: array<Slot>, tr: Trace,
                  ghost chain: seq<Func>, ghost i: nat, ghost downV: Vmap, ghost upV: Vmap, ghost down: Flow)
    returns (errored: bool, tr': Trace, ghost down': Flow)
    requires RunChain(chain) && i + |cs| < |chain| && BatchFor(cs, chain, i, downV, upV)
             && ChainPlaced(chain, downV, upV)
    requires Entry(downV, upV, v[..], down)
    modifies v
    ensures errored ==> tr' == RunFrom(AsCoded, w, chain, i, down, tr).trace
    ensures errored ==> Carries(upV, v[..], RunFrom(AsCoded, w, chain, i, down, tr).up)
    ensures !errored ==> Entry(downV, upV, v[..], down')
    ensures !errored ==> RunFrom(AsCoded, w, chain, i, down, tr) == RunFrom(AsCoded, w, chain, i + |cs|, down', tr')
  {
    hide Entry, Carries, CompiledFor, Ready, RunFrom, Fails, Sent, Zeroed, IsInjector;
    errored, tr', down' := false, tr, down;
    for k := 0 to |cs|
      invariant Entry(downV, upV, v[..], down')
      invariant RunFrom(AsCoded, w, chain, i + k, down', tr') == RunFrom(AsCoded, w, chain, i, down, tr)
    {
      ghost var f := chain[i + k];
      EntryIsReady(chain, i + k, downV, upV, v[..], down');
      assert CompiledFor(cs[k], f, downV, upV) && IsInjector(f);
      InjectorStep(w, chain, i + k, down', tr');
      errored, tr' := RunInjector(w, cs[k], v, tr', f, downV, upV, down');
      if errored {
        return;
      }
      down' := Bind(down', f.outputs, Sent(w, f, tr'));
    }
  }

  // What the interpreter does at an injector.
  lemma InjectorStep(w: World, chain: seq<Func>, i: nat, down: Flow, tr: Trace)
    requires RunChain(chain) && i + 1 < |chain| && IsInjector(chain[i])
    ensures
      var f := chain[i];
      var tr' := tr + [Call(f.id, GetAll(w, down, f.inputs))];
      RunFrom(AsCoded, w, chain, i, down, tr) ==
        if Fails(w, f, tr') then Outcome(Zeroed(w, map[], f.skips)[ERROR := TheError(w, f, tr')], tr')
        else RunFrom(AsCoded, w, chain, i + 1, Bind(down, f.outputs, Sent(w, f, tr')), tr')
  {
  }

  // ... at the final function ...
  lemma FinalStep(w: World, chain: seq<Func>, i: nat, down: Flow, tr: Trace)
    requires RunChain(chain) && i + 1 == |chain|
    ensures chain[i].kind.Final?
    ensures
      var f := chain[i];
      var tr' := tr + [Call(f.id, GetAll(w, down, f.inputs))];
      RunFrom(AsCoded, w, chain, i, down, tr) == Outcome(Bind(map[], f.returned, Results(w, f.id, tr', |f.returned|)),
                                                         tr')
  {
  }

  // ... and at a wrapper.
  lemma WrapperStep(w: World, chain: seq<Func>, i: nat, down: Flow, tr: Trace)
    requires RunChain(chain) && i + 1 < |chain| && chain[i].kind.Wrapper?
    ensures
      var f := chain[i];
      var tr' := tr + [Call(f.id, GetAll(w, down, f.inputs))];
      var calls := RunInner(AsCoded, w, chain, i, down, Calls(0, map[], map[], tr'), w.maxCalls(f.id, tr'));
      RunFrom(AsCoded, w, chain, i, down, tr) ==
        Outcome(Combined(AsCoded, w, f, calls, Results(w, f.id, calls.trace, |f.returned|)), calls.trace)
  {
  }

  lemma InnerStep(w: World, chain: seq<Func>, i: nat, down: Flow, calls: Calls, left: nat)
    requires RunChain(chain) && i + 1 < |chain|
    ensures RunInner(AsCoded, w, chain, i, down, calls, left) ==
              if left == 0 || !w.wants(chain[i].id, calls.trace) then calls
              else RunInner(AsCoded, w, chain, i, down, OneCall(AsCoded, w, chain, i, down, calls), left - 1)
  {
  }

  lemma EntryIsReady(chain: seq<Func>, i: nat, downV: Vmap, upV: Vmap, s: seq<Slot>, down: Flow)
    requires i < |chain| && ChainPlaced(chain, downV, upV) && Entry(downV, upV, s, down)
    ensures Ready(chain[i], downV, upV, s, down)
  {
  }

  method Copy(v: array<Slot>) returns (dup: array<Slot>)
    ensures fresh(dup) && dup[..] == v[..]
  {
    dup := new Slot[v.Length](k requires 0 <= k < v.Length reads v => v[k]);
    assert dup[..] == v[..];
  }

  // wrapWrapper.  A second call in sequence rebinds the array variable to a copy, so that from then on
  // neither what comes back up nor what the wrapper returns reaches the caller's array.
  method RunWrapper(w: World, c: Compiled, inner: Code, v: array<Slot>, tr: Trace,
                    ghost chain: seq<Func>, ghost i: nat, ghost downV: Vmap, ghost upV: Vmap, ghost down: Flow)
    returns (tr': Trace)
    requires RunChain(chain) && i + 1 < |chain| && chain[i].kind.Wrapper? && CompiledFor(c, chain[i], downV, upV)
    requires CodeFor(inner, chain, i + 1, downV, upV) && ChainPlaced(chain, downV, upV)
    requires Entry(downV, upV, v[..], down)
    modifies v
    ensures tr' == RunFrom(AsCoded, w, chain, i, down, tr).trace
    ensures Carries(upV, v[..], RunFrom(AsCoded, w, chain, i, down, tr).up)
    decreases inner, 2
  {
    hide Carries, CompiledFor, ChainPlaced, CodeFor, RunFrom, RunInner, Combined, MapFor, Placed;
    ghost var f := chain[i];
    WrapperStep(w, chain, i, down, tr);
    EntryIsReady(chain, i, downV, upV, v[..], down);
    MapsOf(c, f, downV, upV);
    var vCopy := Copy(v);
    var args := ReadParameters(w, c.inMap, v, f.inputs, downV, down);
    tr' := tr + [Call(c.f.id, args)];
    var callCount := 0;
    var current := v;
    ghost var calls := Calls(0, map[], map[], tr');
    var left := w.maxCalls(c.f.id, tr');
    ghost var all := RunInner(AsCoded, w, chain, i, down, calls, left);
    while left > 0 && w.wants(c.f.id, tr')
      invariant calls.trace == tr' && calls.count == callCount
      invariant RunInner(AsCoded, w, chain, i, down, calls, left) == all
      invariant vCopy != v && fresh(vCopy) && vCopy[..] == old(v[..])
      invariant current == v || (fresh(current) && current != vCopy && current.Length == v.Length)
      invariant f.kind.parallel || callCount <= 1 ==> current == v
      invariant !f.kind.parallel && callCount > 1 ==> current != v
      invariant f.kind.parallel || callCount == 0 ==> v[..] == old(v[..])
      invariant !f.kind.parallel && callCount > 0 ==> Carries(upV, v[..], calls.first)
    {
      InnerStep(w, chain, i, down, calls, left);
      left := left - 1;
      var target := current;
      callCount := callCount + 1;
      if c.f.kind.parallel {
        target := Copy(vCopy);
      } else if callCount > 1 {
        current := Copy(vCopy);
        target := current;
      }
      tr' := CallInner(w, c, inner, target, tr', chain, i, downV, upV, down, calls);
      calls := OneCall(AsCoded, w, chain, i, down, calls);
    }
    InnerStep(w, chain, i, down, calls, left);
    SendUp(w, c, v, current, tr', callCount, f, downV, upV, calls);
  }

  // What a wrapper does once its function has returned.
  method SendUp(w: World, c: Compiled, v: array<Slot>, current: array<Slot>, tr: Trace, callCount: nat,
                ghost f: Func, ghost downV: Vmap, ghost upV: Vmap, ghost calls: Calls)
    requires f.kind.Wrapper? && CompiledFor(c, f, downV, upV) && SlotsOk(downV, upV, v.Length)
    requires current.Length == v.Length && calls.count == callCount && calls.trace == tr
    requires f.kind.parallel || callCount <= 1 <==> current == v
    requires Carries(upV, v[..], if f.kind.parallel || callCount == 0 then map[] else calls.first)
    modifies v, current
    ensures Carries(upV, v[..], Combined(AsCoded, w, f, calls, Results(w, f.id, tr, |f.returned|)))
  {
    var out := Results(w, c.f.id, tr, |c.upMap.vcIndex|);
    if callCount == 0 {
      ghost var before := current[..];
      Zero(w, c.zero, current, upV, downV);
      ZeroingIsZeroed(w, c.zero, f.skips, upV, before, current[..], map[]);
    }
    ghost var before :=
      if callCount == 0 then Zeroed(w, map[], f.skips) else if f.kind.parallel then map[] else calls.first;
    if current == v {
      WriteParameters(w, c.upMap, v, out, f.returned, upV, downV, before);
    } else {
      MapInRange(c.upMap, f.returned, upV, v.Length);
      MapOutputs(c.upMap, current, out);
      assert v[..] == old(v[..]);
    }
  }

  // One call of inner(): arguments in, the rest of the chain, results out.
  method CallInner(w: World, c: Compiled, inner: Code, v: array<Slot>, tr: Trace,
                   ghost chain: seq<Func>, ghost i: nat, ghost downV: Vmap, ghost upV: Vmap, ghost down: Flow,
                   ghost calls: Calls)
    returns (tr': Trace)
    requires RunChain(chain) && i + 1 < |chain| && chain[i].kind.Wrapper? && CompiledFor(c, chain[i], downV, upV)
    requires CodeFor(inner, chain, i + 1, downV, upV) && ChainPlaced(chain, downV, upV)
    requires Entry(downV, upV, v[..], down) && calls.trace == tr
    modifies v
    ensures tr' == OneCall(AsCoded, w, chain, i, down, calls).trace
    ensures Carries(upV, v[..], OneCall(AsCoded, w, chain, i, down, calls).last)
    decreases inner, 1
  {
    ghost var f := chain[i];
    var args := InnerArgs(w, c.f.id, tr, |c.f.outputs|);
    tr' := tr + [Inner(c.f.id, args)];
    WriteParameters(w, c.outMap, v, args, f.outputs, downV, upV, down);
    SameSlotsCarry(upV, old(v[..]), v[..], map[]);
    ghost var o := RunFrom(AsCoded, w, chain, i + 1, Bind(down, f.outputs, args), tr');
    tr' := Exec(w, inner, v, tr', chain, i + 1, downV, upV, Bind(down, f.outputs, args));
    var results := ReadParameters(w, c.retMap, v, f.received, upV, o.up);
    tr' := tr' + [Back(c.f.id, results)];
  }

  ghost predicate StaticFor(c: Compiled, f: Func, downV: Vmap) {
    && c.f == f && IsStatic(f)
    && MapFor(c.inMap, f.inputs, downV) && Placed(f.inputs, downV) && MapFor(c.outMap, f.outputs, downV)
    && (f.kind.StaticFallible? ==> ZeroesTypes(c.zero, f.skips, downV))
  }

  // wrapStaticInjector, for both kinds of static injectors.
  method RunStatic(w: World, c: Compiled, v: array<Slot>, tr: Trace,
                   ghost f: Func, ghost downV: Vmap, ghost upV: Vmap, ghost down: Flow)
    returns (failed: bool, tr': Trace)
    requires StaticFor(c, f, downV) && Entry(downV, upV, v[..], down)
    modifies v
    ensures tr' == tr + [Call(f.id, GetAll(w, down, f.inputs))]
    ensures failed <==> StaticFails(w, f, tr')
    ensures
      var down1 := Bind(down, f.outputs, Results(w, f.id, tr', |f.outputs|));
      Entry(downV, upV, v[..], if failed then Zeroed(w, down1, f.skips) else down1)
  {
    var args := ReadParameters(w, c.inMap, v, f.inputs, downV, down);
    tr' := tr + [Call(c.f.id, args)];
    var out := Results(w, c.f.id, tr', |c.f.outputs|);
    WriteParameters(w, c.outMap, v, out, f.outputs, downV, upV, down);
    ghost var written := v[..];
    SameSlotsCarry(upV, old(v[..]), written, map[]);
    failed := c.f.kind.StaticFallible? && !w.isNil(out[c.f.kind.errorIndex]);
    if failed {
      Zero(w, c.zero, v, downV, upV);
      ZeroingIsZeroed(w, c.zero, f.skips, downV, written, v[..], Bind(down, f.outputs, out));
      SameSlotsCarry(upV, written, v[..], map[]);
    }
  }

  ghost predicate StaticsFor(cs: seq<Compiled>, statics: seq<Func>, downV: Vmap) {
    && |cs| == |statics|
    && forall k :: 0 <= k < |cs| ==> StaticFor(cs[k], statics[k], downV)
  }

  // runStaticChain
  method RunStaticChain(w: World, cs: seq<Compiled>, v: array<Slot>, tr: Trace,
                        ghost statics: seq<Func>, ghost downV: Vmap, ghost upV: Vmap,
                        ghost down: Flow)
    returns (failed: bool, tr': Trace, ghost o: StaticOutcome)
    requires StaticsFor(cs, statics, downV) && Entry(downV, upV, v[..], down)
    modifies v
    ensures forall i :: 0 <= i < |statics| ==> IsStatic(statics[i])
    ensures o == StaticFrom(w, statics, 0, down, tr)
    ensures failed == o.failed && tr' == o.trace && Entry(downV, upV, v[..], o.down)
  {
    assert forall i :: 0 <= i < |statics| ==> IsStatic(statics[i]) by {
      forall i | 0 <= i < |statics| ensures IsStatic(statics[i]) {
        assert StaticFor(cs[i], statics[i], downV);
      }
    }
    tr' := tr;
    ghost var down' := down;
    hide Entry;
    for k := 0 to |cs|
      invariant Entry(downV, upV, v[..], down')
      invariant StaticFrom(w, statics, k, down', tr') == StaticFrom(w, statics, 0, down, tr)
    {
      ghost var f := statics[k];
      failed, tr' := RunStatic(w, cs[k], v, tr', f, downV, upV, down');
      down' := Bind(down', f.outputs, Results(w, f.id, tr', |f.outputs|));
      if failed {
        o := StaticOutcome(Zeroed(w, down', f.skips), true, tr');
        return;
      }
    }
    o := StaticOutcome(down', false, tr');
    return false, tr', o;
  }
}
