/**
 generate.go: the closures that move values between parameter lists and the value collection, and the
 closures that call the providers.  The value collection is one array, changed in place.
 */
module Generate {
  import opened Basics
  import opened Interp

  // An invalid reflect.Value is None.
  type Slot = Option<Value>

  // Maps of types to positions in the value collection; -1 for a type without a position.
  type Vmap = map<TypeCode, int>

  datatype ParameterMap = ParameterMap(vcIndex: seq<int>, types: seq<TypeCode>)

  const NO_PARAMETERS := ParameterMap([], [])

  // Every type has its own position, and no position serves both directions.
  ghost predicate SlotsOk(downV: Vmap, upV: Vmap, n: nat) {
    && OneWay(downV, n) && OneWay(upV, n)
    && Disjoint(downV, upV) && Disjoint(upV, downV)
  }

  ghost predicate OneWay(vmap: Vmap, n: nat) {
    && (forall t :: t in vmap ==> -1 <= vmap[t] < n)
    && (forall t, t' :: t in vmap && t' in vmap && vmap[t] >= 0 && vmap[t] == vmap[t'] ==> t == t')
  }

  function ReadSlot(w: World, s: Slot, t: TypeCode): Value {
    if s.Some? then s.value else w.zero(t)
  }

  // The positions of 'vmap' hold what the map 'm' of the interpreter holds, and those of other types
  // have not been set.
  ghost predicate Carries(vmap: Vmap, s: seq<Slot>, m: Flow) {
    forall t :: t in vmap && vmap[t] >= 0 ==> vmap[t] < |s| && s[vmap[t]] == if t in m then Some(m[t]) else None
  }

  ghost predicate SameSlots(vmap: Vmap, s: seq<Slot>, s': seq<Slot>) {
    && |s'| == |s|
    && forall t :: t in vmap && 0 <= vmap[t] < |s| ==> s'[vmap[t]] == s[vmap[t]]
  }

  ghost predicate MapFor(pm: ParameterMap, flow: seq<TypeCode>, vmap: Vmap) {
    && pm.types == flow && |pm.vcIndex| == |flow|
    && forall k :: 0 <= k < |flow| ==> flow[k] in vmap && pm.vcIndex[k] == vmap[flow[k]]
  }

  // Every type of the flow has a position.
  ghost predicate Placed(flow: seq<TypeCode>, vmap: Vmap) {
    forall t :: t in flow ==> t in vmap && vmap[t] >= 0
  }

  // generateParameterMap; None stands for its internal errors.
  method GenerateParameterMap(flow: seq<TypeCode>, vmap: Vmap) returns (r: Option<ParameterMap>)
    ensures r.Some? <==> forall t :: t in flow ==> t != NO_TYPE && t in vmap
    ensures r.Some? ==> MapFor(r.value, flow, vmap)
  {
    var m: seq<int> := [];
    for i := 0 to |flow|
      invariant |m| == i
      invariant forall k :: 0 <= k < i ==> flow[k] != NO_TYPE && flow[k] in vmap && m[k] == vmap[flow[k]]
    {
      if flow[i] == NO_TYPE || flow[i] !in vmap {
        assert flow[i] in flow;
        return None;
      }
      m := m + [vmap[flow[i]]];
    }
    return Some(ParameterMap(m, flow));
  }

  // What the output mapper leaves behind.
  function WriteAll(s: seq<Slot>, index: seq<int>, values: seq<Value>): (r: seq<Slot>)
    requires |index| == |values|
    requires forall k :: 0 <= k < |index| ==> -1 <= index[k] < |s|
    ensures |r| == |s|
  {
    if index == [] then s
    else
      var last := |index| - 1;
      var rest := WriteAll(s, index[..last], values[..last]);
      if index[last] == -1 then rest else rest[index[last] := Some(values[last])]
  }

  ghost predicate InRange(pm: ParameterMap, n: nat) {
    && |pm.types| == |pm.vcIndex|
    && forall k :: 0 <= k < |pm.vcIndex| ==> -1 <= pm.vcIndex[k] < n
  }

  method MapInputs(w: World, pm: ParameterMap, v: array<Slot>) returns (values: seq<Slot>)
    requires InRange(pm, v.Length)
    ensures |values| == |pm.vcIndex|
    ensures forall k :: 0 <= k < |values| ==>
              values[k] == if pm.vcIndex[k] == -1 then None else Some(ReadSlot(w, v[pm.vcIndex[k]], pm.types[k]))
  {
    values := [];
    for i := 0 to |pm.vcIndex|
      invariant |values| == i
      invariant forall k :: 0 <= k < i ==>
          values[k] == if pm.vcIndex[k] == -1 then None else Some(ReadSlot(w, v[pm.vcIndex[k]], pm.types[k]))
    {
      var x: Slot := None;
      if pm.vcIndex[i] != -1 {
        x := v[pm.vcIndex[i]];
        if x == None {
          x := Some(w.zero(pm.types[i]));
        }
      }
      values := values + [x];
    }
  }

  method MapOutputs(pm: ParameterMap, v: array<Slot>, values: seq<Value>)
    requires InRange(pm, v.Length) && |values| == |pm.vcIndex|
    modifies v
    ensures v[..] == WriteAll(old(v[..]), pm.vcIndex, values)
  {
    for i := 0 to |pm.vcIndex|
      invariant v[..] == WriteAll(old(v[..]), pm.vcIndex[..i], values[..i])
    {
      assert pm.vcIndex[..i + 1][..i] == pm.vcIndex[..i] && values[..i + 1][..i] == values[..i];
      if pm.vcIndex[i] != -1 {
        v[pm.vcIndex[i]] := Some(values[i]);
      }
    }
    assert pm.vcIndex[..|pm.vcIndex|] == pm.vcIndex && values[..|values|] == values;
  }

  lemma MapInRange(pm: ParameterMap, flow: seq<TypeCode>, vmap: Vmap, n: nat)
    requires MapFor(pm, flow, vmap) && OneWay(vmap, n)
    ensures InRange(pm, n)
  {
    forall k | 0 <= k < |pm.vcIndex| ensures -1 <= pm.vcIndex[k] < n {
      var t := flow[k];
      assert t in vmap && pm.vcIndex[k] == vmap[t];
    }
  }

  // Writing through the map of one direction is binding in the interpreter's map of that direction,
  // and is not seen in the other.
  lemma {:induction false} WritingIsBinding(vmap: Vmap, other: Vmap, s: seq<Slot>, m: Flow, pm: ParameterMap,
                                            flow: seq<TypeCode>, values: seq<Value>)
    requires OneWay(vmap, |s|) && MapFor(pm, flow, vmap) && InRange(pm, |s|) && |values| == |flow|
    requires Disjoint(vmap, other)
    requires Carries(vmap, s, m)
    ensures Carries(vmap, WriteAll(s, pm.vcIndex, values), Bind(m, flow, values))
    ensures SameSlots(other, s, WriteAll(s, pm.vcIndex, values))
    decreases |flow|
  {
    if flow != [] {
      var last := |flow| - 1;
      var pm0 := ParameterMap(pm.vcIndex[..last], flow[..last]);
      WritingIsBinding(vmap, other, s, m, pm0, flow[..last], values[..last]);
      var s0, m0 := WriteAll(s, pm0.vcIndex, values[..last]), Bind(m, flow[..last], values[..last]);
      assert flow[last] in vmap && pm.vcIndex[last] == vmap[flow[last]];
      WritingOne(vmap, other, s0, m0, flow[last], values[last]);
      assert WriteAll(s, pm.vcIndex, values) == if pm.vcIndex[last] == -1 then s0
             else s0[pm.vcIndex[last] := Some(values[last])];
    }
  }

  lemma WritingOne(vmap: Vmap, other: Vmap, s: seq<Slot>, m: Flow, t: TypeCode, x: Value)
    requires OneWay(vmap, |s|) && t in vmap && Disjoint(vmap, other) && Carries(vmap, s, m)
    ensures
      var s' := if vmap[t] == -1 then s else s[vmap[t] := Some(x)];
      Carries(vmap, s', m[t := x]) && SameSlots(other, s, s')
  {
  }

  ghost predicate Disjoint(vmap: Vmap, other: Vmap) {
    forall t, t' :: t in vmap && t' in other && vmap[t] >= 0 ==> vmap[t] != other[t']
  }

  // Reading through a map is reading the interpreter's map.
  lemma ReadingIsGetting(w: World, vmap: Vmap, s: seq<Slot>, m: Flow, pm: ParameterMap, flow: seq<TypeCode>,
                         values: seq<Slot>)
    requires MapFor(pm, flow, vmap) && Placed(flow, vmap) && Carries(vmap, s, m)
    requires |values| == |flow|
    requires forall k :: 0 <= k < |flow| ==>
               pm.vcIndex[k] == -1
               || (0 <= pm.vcIndex[k] < |s| && values[k] == Some(ReadSlot(w, s[pm.vcIndex[k]], pm.types[k])))
    ensures forall k :: 0 <= k < |flow| ==> values[k] == Some(Get(w, m, flow[k]))
  {
    forall k | 0 <= k < |flow| ensures values[k] == Some(Get(w, m, flow[k])) {
      assert flow[k] in flow;
    }
  }
}
