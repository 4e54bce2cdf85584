/**
 bind.go:129-177: which types get a position in the value collection, and which positions have to be
 zeroed when part of a chain is skipped.
 */
module Slots {
  import opened Basics
  import opened Interp
  import opened Generate

  function Flows(f: Func): seq<TypeCode> {
    f.inputs + f.outputs + f.returned + f.received
  }

  // The types the included providers deal in.
  ghost predicate Mentioned(funcs: seq<Func>, t: TypeCode) {
    exists i: nat :: i < |funcs| && funcs[i].included && t in Flows(funcs[i])
  }

  // Some provider of the static phase between 'lo' and 'hi' sends the type down.
  ghost predicate SentBetween(funcs: seq<Func>, lo: nat, hi: nat, t: TypeCode)
    requires hi <= |funcs|
  {
    exists i: nat :: lo <= i < hi && t in funcs[i].outputs
  }

  ghost predicate TakenFrom(funcs: seq<Func>, lo: nat, t: TypeCode) {
    exists i: nat :: lo <= i < |funcs| && t in funcs[i].inputs
  }

  ghost predicate ReturnedFrom(funcs: seq<Func>, lo: nat, t: TypeCode) {
    exists i: nat :: lo <= i < |funcs| && t in funcs[i].returned
  }

  datatype Layout = Layout(downV: Vmap, upV: Vmap, count: nat)

  // A list of exactly the types of the map that have a position.
  ghost predicate MappedTypes(list: seq<TypeCode>, vmap: Vmap) {
    forall t :: t in list <==> t in vmap && vmap[t] >= 0
  }

  method VmapMapped(vmap: Vmap) returns (used: seq<TypeCode>)
    ensures MappedTypes(used, vmap)
  {
    used := MappedAmong(vmap, vmap.Keys);
  }

  method MappedAmong(vmap: Vmap, keys: set<TypeCode>) returns (used: seq<TypeCode>)
    ensures forall t :: t in used <==> t in keys && t in vmap && vmap[t] >= 0
    decreases |keys|
  {
    used := [];
    if keys != {} {
      Nonempty(keys);
      var t :| t in keys;
      used := MappedAmong(vmap, keys - {t});
      if t in vmap && vmap[t] >= 0 {
        used := used + [t];
      }
    }
  }

  lemma Nonempty(s: set<TypeCode>)
    requires s != {}
    ensures exists t :: t in s
  {
    assert (forall t :: t !in s) ==> s == {};
  }

  // The map 'vmap' has grown: the types of 'flow' got fresh positions from 'count' on.
  ghost predicate Grown(vmap: Vmap, count: nat, flow: seq<TypeCode>, vmap': Vmap, count': nat) {
    && vmap'.Keys == vmap.Keys && count <= count' && OneWay(vmap', count')
    && (forall t :: t in vmap ==>
          && (vmap[t] >= 0 ==> vmap'[t] == vmap[t])
          && (vmap[t] < 0 && vmap'[t] >= 0 ==> vmap'[t] >= count)
          && (vmap'[t] >= 0 <==> vmap[t] >= 0 || t in flow))
  }

  method AddToVmap(flow: seq<TypeCode>, vmap: Vmap, counter: nat) returns (vmap': Vmap, counter': nat)
    requires OneWay(vmap, counter)
    ensures Grown(vmap, counter, flow, vmap', counter')
  {
    vmap', counter' := vmap, counter;
    for k := 0 to |flow|
      invariant Grown(vmap, counter, flow[..k], vmap', counter')
    {
      var t := flow[k];
      assert flow[..k + 1] == flow[..k] + [t];
      if t in vmap' && vmap'[t] == -1 {
        vmap' := vmap'[t := counter'];
        counter' := counter' + 1;
      }
    }
    assert flow[..|flow|] == flow;
  }

  // All types of the included providers, none with a position yet.
  method NoSlots(funcs: seq<Func>) returns (vmap: Vmap)
    ensures forall t :: t in vmap <==> Mentioned(funcs, t)
    ensures forall t :: t in vmap ==> vmap[t] == -1
  {
    vmap := map[];
    for i := 0 to |funcs|
      invariant forall t :: t in vmap <==> exists k: nat :: k < i && funcs[k].included && t in Flows(funcs[k])
      invariant forall t :: t in vmap ==> vmap[t] == -1
    {
      if funcs[i].included {
        var flows := Flows(funcs[i]);
        ghost var vmap0 := vmap;
        for k := 0 to |flows|
          invariant forall t :: t in vmap <==> t in vmap0 || t in flows[..k]
          invariant forall t :: t in vmap ==> vmap[t] == -1
        {
          assert flows[..k + 1] == flows[..k] + [flows[k]];
          vmap := vmap[flows[k] := -1];
        }
        assert flows[..|flows|] == flows;
      }
    }
  }

  method AnyUnset(vmap: Vmap, types: seq<TypeCode>) returns (any: bool)
    ensures any <==> exists t :: t in types && t in vmap && vmap[t] == -1
  {
    for k := 0 to |types|
      invariant forall j :: 0 <= j < k ==> !(types[j] in vmap && vmap[types[j]] == -1)
    {
      if types[k] in vmap && vmap[types[k]] == -1 {
        var t := types[k];
        assert t in types && t in vmap && vmap[t] == -1;
        return true;
      }
    }
    return false;
  }

  // Types whose position must be zeroed if the static phase ends after provider 'k'.
  ghost predicate ZeroAfter(funcs: seq<Func>, invokeIndex: nat, keys: set<TypeCode>, k: nat, list: seq<TypeCode>)
    requires invokeIndex <= |funcs|
  {
    forall t :: t in list <==> t in keys && SentBetween(funcs, k + 1, invokeIndex, t)
  }

  // Types whose position must be zeroed if provider 'k' does not run what comes after it.
  ghost predicate ZeroFrom(funcs: seq<Func>, keys: set<TypeCode>, k: nat, list: seq<TypeCode>) {
    forall t :: t in list <==> t in keys && ReturnedFrom(funcs, k, t)
  }

  method StaticSlots(funcs: seq<Func>, invokeIndex: nat, vmap: Vmap)
    returns (downV: Vmap, count: nat, zero: map<nat, seq<TypeCode>>)
    requires invokeIndex <= |funcs| && forall t :: t in vmap ==> vmap[t] == -1
    ensures downV.Keys == vmap.Keys && OneWay(downV, count)
    ensures forall t :: t in downV ==> (downV[t] >= 0 <==> SentBetween(funcs, 0, invokeIndex, t))
    ensures forall k: nat :: k < invokeIndex ==> k in zero && ZeroAfter(funcs, invokeIndex, vmap.Keys, k, zero[k])
  {
    downV, count, zero := vmap, 0, map[];
    for i := invokeIndex downto 0
      invariant downV.Keys == vmap.Keys && OneWay(downV, count)
      invariant forall t :: t in downV ==> (downV[t] >= 0 <==> SentBetween(funcs, i, invokeIndex, t))
      invariant forall k: nat :: i <= k < invokeIndex ==>
                  k in zero
                  && ZeroAfter(funcs, invokeIndex, vmap.Keys, k, zero[k])
    {
      var mapped := VmapMapped(downV);
      zero := zero[i := mapped];
      ghost var before := downV;
      downV, count := AddToVmap(funcs[i].outputs, downV, count);
      forall t | t in downV ensures downV[t] >= 0 <==> SentBetween(funcs, i, invokeIndex, t) {
        assert before[t] >= 0 <==> SentBetween(funcs, i + 1, invokeIndex, t);
      }
    }
  }

  ghost predicate DownPlaced(funcs: seq<Func>, invokeIndex: nat, lo: nat, downV: Vmap)
    requires invokeIndex <= |funcs|
  {
    forall t :: t in downV ==>
      (downV[t] >= 0 <==> SentBetween(funcs, 0, invokeIndex, t) || TakenFrom(funcs, lo, t))
  }

  ghost predicate UpPlaced(funcs: seq<Func>, lo: nat, upV: Vmap) {
    forall t :: t in upV ==> (upV[t] >= 0 <==> ReturnedFrom(funcs, lo, t))
  }

  method RunSlots(funcs: seq<Func>, invokeIndex: nat, downV0: Vmap, upV0: Vmap, count0: nat)
    returns (downV: Vmap, upV: Vmap, count: nat, zero: map<nat, seq<TypeCode>>)
    requires invokeIndex <= |funcs| && OneWay(downV0, count0)
    requires forall t :: t in upV0 ==> upV0[t] == -1
    requires DownPlaced(funcs, invokeIndex, |funcs|, downV0)
    ensures downV.Keys == downV0.Keys && upV.Keys == upV0.Keys
    ensures SlotsOk(downV, upV, count)
    ensures DownPlaced(funcs, invokeIndex, invokeIndex, downV)
    ensures UpPlaced(funcs, invokeIndex, upV)
    ensures forall k: nat :: invokeIndex <= k < |funcs| ==> k in zero && ZeroFrom(funcs, upV0.Keys, k, zero[k])
  {
    hide *;
    downV, upV, count, zero := downV0, upV0, count0, map[];
    NoneReturned(funcs, upV);
    WidenDisjoint(downV, upV, count);
    for i := |funcs| downto invokeIndex
      invariant downV.Keys == downV0.Keys && upV.Keys == upV0.Keys
      invariant SlotsOk(downV, upV, count)
      invariant DownPlaced(funcs, invokeIndex, i, downV) && UpPlaced(funcs, i, upV)
      invariant forall k: nat :: i <= k < |funcs| ==> k in zero && ZeroFrom(funcs, upV0.Keys, k, zero[k])
    {
      var mapped;
      downV, upV, count, mapped := SlotsFor(funcs, invokeIndex, i, downV, upV, count);
      zero := zero[i := mapped];
    }
  }

  // The turn of one provider of the run phase.
  method SlotsFor(funcs: seq<Func>, invokeIndex: nat, i: nat, downV: Vmap, upV: Vmap, count: nat)
    returns (downV': Vmap, upV': Vmap, count': nat, mapped: seq<TypeCode>)
    requires invokeIndex <= i < |funcs| && SlotsOk(downV, upV, count)
    requires DownPlaced(funcs, invokeIndex, i + 1, downV) && UpPlaced(funcs, i + 1, upV)
    ensures downV'.Keys == downV.Keys && upV'.Keys == upV.Keys && SlotsOk(downV', upV', count')
    ensures DownPlaced(funcs, invokeIndex, i, downV') && UpPlaced(funcs, i, upV')
    ensures ZeroFrom(funcs, upV.Keys, i, mapped)
  {
    var c;
    downV', c := AddToVmap(funcs[i].inputs, downV, count);
    OneMoreTaken(funcs, invokeIndex, i, downV, count, downV', c);
    GrowingStaysDisjoint(downV, upV, count, funcs[i].inputs, downV', c);
    upV', count' := AddToVmap(funcs[i].returned, upV, c);
    OneMoreReturned(funcs, i, upV, c, upV', count');
    GrowingStaysDisjoint(upV, downV', c, funcs[i].returned, upV', count');
    mapped := VmapMapped(upV');
  }

  lemma NoneReturned(funcs: seq<Func>, upV: Vmap)
    requires forall t :: t in upV ==> upV[t] == -1
    ensures UpPlaced(funcs, |funcs|, upV)
  {
  }

  lemma WidenDisjoint(downV: Vmap, upV: Vmap, count: nat)
    requires OneWay(downV, count) && forall t :: t in upV ==> upV[t] == -1
    ensures SlotsOk(downV, upV, count)
  {
  }

  lemma OneMoreTaken(funcs: seq<Func>, invokeIndex: nat, i: nat, downV: Vmap, count: nat, downV': Vmap, count': nat)
    requires invokeIndex <= i < |funcs| && DownPlaced(funcs, invokeIndex, i + 1, downV)
    requires Grown(downV, count, funcs[i].inputs, downV', count')
    ensures DownPlaced(funcs, invokeIndex, i, downV')
  {
  }

  lemma OneMoreReturned(funcs: seq<Func>, i: nat, upV: Vmap, count: nat, upV': Vmap, count': nat)
    requires i < |funcs| && UpPlaced(funcs, i + 1, upV)
    requires Grown(upV, count, funcs[i].returned, upV', count')
    ensures UpPlaced(funcs, i, upV')
  {
  }

  lemma GrowingStaysDisjoint(vmap: Vmap, other: Vmap, count: nat, flow: seq<TypeCode>, vmap': Vmap, count': nat)
    requires SlotsOk(vmap, other, count) && Grown(vmap, count, flow, vmap', count')
    ensures SlotsOk(vmap', other, count') && SlotsOk(other, vmap', count')
  {
  }

  // Positions for everything: distinct, in range, and there for exactly the types that the static
  // phase sends down, that the run phase takes, and that the run phase returns.
  // 'missing' is set if the init function returns a type that no static provider sends.
  method AllocateSlots(funcs: seq<Func>, invokeIndex: nat, initNeeds: seq<TypeCode>)
    returns (missing: bool, l: Layout, zeroRemainder: map<nat, seq<TypeCode>>, zeroInner: map<nat, seq<TypeCode>>)
    requires invokeIndex <= |funcs|
    ensures missing <==> exists t :: t in initNeeds && Mentioned(funcs, t) && !SentBetween(funcs, 0, invokeIndex, t)
    ensures forall t :: t in l.downV <==> Mentioned(funcs, t)
    ensures forall t :: t in l.upV <==> Mentioned(funcs, t)
    ensures SlotsOk(l.downV, l.upV, l.count)
    ensures DownPlaced(funcs, invokeIndex, invokeIndex, l.downV) && UpPlaced(funcs, invokeIndex, l.upV)
    ensures forall k: nat :: k < invokeIndex ==>
              k in zeroRemainder && ZeroAfter(funcs, invokeIndex, l.downV.Keys, k, zeroRemainder[k])
    ensures forall k: nat :: invokeIndex <= k < |funcs| ==>
              k in zeroInner && ZeroFrom(funcs, l.upV.Keys, k, zeroInner[k])
  {
    var vmap := NoSlots(funcs);
    var downV, count;
    downV, count, zeroRemainder := StaticSlots(funcs, invokeIndex, vmap);
    hide SentBetween, Mentioned;
    missing := AnyUnset(downV, initNeeds);
    assert DownPlaced(funcs, invokeIndex, |funcs|, downV);
    var d, u, c;
    d, u, c, zeroInner := RunSlots(funcs, invokeIndex, downV, vmap, count);
    l := Layout(d, u, c);
  }
}
