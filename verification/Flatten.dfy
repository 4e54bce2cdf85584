/**
 nject.go: characterizeAndFlatten.  The providers of a collection are divided into those of the static
 phase and those of the run phase, and what that does to who supplies whom.
 */
module Flatten {
  import opened Basics
  import opened Interp
  import opened Binder
  import opened Direct

  // What characterize.go makes of the i-th of the providers: for a context whose inputs are early, and
  // for one whose inputs are not, where nothing is a literal or a static injector.  None is its error.
  datatype Characterized = Characterized(asStatic: seq<Option<Func>>, asRun: seq<Option<Func>>)

  predicate InStaticPhase(f: Func) {
    f.kind.Literal? || f.kind.StaticInjector? || f.kind.StaticFallible?
  }

  ghost predicate CharacterizedOk(c: Characterized) {
    && |c.asStatic| == |c.asRun|
    && (forall i :: 0 <= i < |c.asStatic| && c.asStatic[i].Some? ==>
          var f := c.asStatic[i].value;
          (InStaticPhase(f) || RunPhase(f)) && (f.kind.Literal? ==> f.inputs == []))
    && (forall i :: 0 <= i < |c.asRun| && c.asRun[i].Some? ==>
          RunPhase(c.asRun[i].value)
          && !InStaticPhase(c.asRun[i].value))
  }

  // Types that come from the invoke function or a provider of the run phase among the first 'n'.
  ghost predicate NonStatic(fs: seq<Func>, invokeOutputs: set<TypeCode>, n: nat, t: TypeCode) {
    t in invokeOutputs || exists j: nat :: j < n && j < |fs| && !InStaticPhase(fs[j]) && t in fs[j].outputs
  }

  // How one provider is to be taken, given the choices for those before it.
  ghost predicate TakenAs(c: Characterized, fs: seq<Func>, invokeOutputs: set<TypeCode>, i: nat)
    requires i < |fs| <= |c.asStatic| == |c.asRun|
  {
    c.asStatic[i].Some? &&
    var f := c.asStatic[i].value;
    if InStaticPhase(f) && exists t :: t in f.inputs && NonStatic(fs, invokeOutputs, i, t)
    then c.asRun[i] == Some(fs[i])
    else fs[i] == f
  }

  // The positions below 'n' of the providers of one phase.
  function Below(fs: seq<Func>, early: bool, n: nat): (r: seq<nat>)
    requires n <= |fs|
    ensures forall k :: 0 <= k < |r| ==> r[k] < n
  {
    if n == 0 then []
    else Below(fs, early, n - 1) + if InStaticPhase(fs[n - 1]) == early then [n - 1] else []
  }

  function Pick(fs: seq<Func>, positions: seq<nat>): (r: seq<Func>)
    requires forall k :: 0 <= k < |positions| ==> positions[k] < |fs|
    ensures |r| == |positions|
  {
    seq(|positions|, k requires 0 <= k < |positions| => fs[positions[k]])
  }

  datatype Result = Flattened(afterInit: seq<Func>, afterInvoke: seq<Func>) | Failed

  method CharacterizeAndFlatten(c: Characterized, invokeOutputs: set<TypeCode>) returns (r: Result, ghost fs: seq<Func>)
    requires CharacterizedOk(c)
    ensures r.Flattened? ==> |fs| == |c.asStatic| && forall i: nat :: i < |fs| ==> TakenAs(c, fs, invokeOutputs, i)
    ensures r.Flattened? ==>
              r.afterInit == Pick(fs, Below(fs, true, |fs|)) && r.afterInvoke == Pick(fs, Below(fs, false, |fs|))
  {
    var nonStaticTypes := invokeOutputs;
    var afterInit, afterInvoke := [], [];
    fs := [];
    r := Failed;
    for i := 0 to |c.asStatic|
      invariant |fs| == i
      invariant forall j: nat :: j < i ==> TakenAs(c, fs, invokeOutputs, j)
      invariant forall t :: t in nonStaticTypes <==> NonStatic(fs, invokeOutputs, i, t)
      invariant afterInit == Pick(fs, Below(fs, true, i)) && afterInvoke == Pick(fs, Below(fs, false, i))
    {
      if c.asStatic[i] == None {
        return;
      }
      var f := c.asStatic[i].value;
      if InStaticPhase(f) {
        var dependent := AnyIn(f.inputs, nonStaticTypes);
        if dependent {
          if c.asRun[i] == None {
            return;
          }
          f := c.asRun[i].value;
        }
      }
      OneMore(c, fs, invokeOutputs, f, i);
      fs := fs + [f];
      if InStaticPhase(f) {
        afterInit := afterInit + [f];
      } else {
        nonStaticTypes := nonStaticTypes + set t | t in f.outputs;
        afterInvoke := afterInvoke + [f];
      }
    }
    r := Flattened(afterInit, afterInvoke);
  }

  method AnyIn(types: seq<TypeCode>, s: set<TypeCode>) returns (any: bool)
    ensures any <==> exists t :: t in types && t in s
  {
    for i := 0 to |types|
      invariant forall j :: 0 <= j < i ==> types[j] !in s
    {
      if types[i] in s {
        var t := types[i];
        assert t in types && t in s;
        return true;
      }
    }
    return false;
  }

  lemma OneMore(c: Characterized, fs: seq<Func>, invokeOutputs: set<TypeCode>, f: Func, i: nat)
    requires |c.asStatic| == |c.asRun| && i == |fs| < |c.asStatic|
    requires forall j: nat :: j < i ==> TakenAs(c, fs, invokeOutputs, j)
    ensures forall j: nat :: j < i ==> TakenAs(c, fs + [f], invokeOutputs, j)
    ensures forall t :: NonStatic(fs + [f], invokeOutputs, i + 1, t) <==>
              NonStatic(fs, invokeOutputs, i, t) || (!InStaticPhase(f) && t in f.outputs)
    ensures forall n: nat, t :: n <= i ==> (NonStatic(fs + [f], invokeOutputs, n, t) <==>
                                              NonStatic(fs, invokeOutputs, n, t))
    ensures forall early: bool ::
              Below(fs + [f], early, i) == Below(fs, early, i)
              && Pick(fs + [f], Below(fs + [f], early, i + 1)) ==
                   Pick(fs, Below(fs, early, i)) + if InStaticPhase(f) == early then [f] else []
  {
    var fs' := fs + [f];
    forall n: nat, t | n <= i ensures NonStatic(fs', invokeOutputs, n, t) <==> NonStatic(fs, invokeOutputs, n, t) {
      assert forall j: nat :: j < n ==> fs'[j] == fs[j];
    }
    forall j: nat | j < i ensures TakenAs(c, fs', invokeOutputs, j) {
      assert fs'[j] == fs[j] && forall t :: NonStatic(fs', invokeOutputs, j, t) <==> NonStatic(fs, invokeOutputs, j, t);
      assert TakenAs(c, fs, invokeOutputs, j);
    }
    forall t ensures NonStatic(fs', invokeOutputs, i + 1, t) <==>
        NonStatic(fs, invokeOutputs, i, t) || (!InStaticPhase(f) && t in f.outputs) {
      assert fs'[i] == f;
      assert NonStatic(fs', invokeOutputs, i, t) <==> NonStatic(fs, invokeOutputs, i, t);
    }
    forall early: bool ensures Below(fs', early, i) == Below(fs, early, i) {
      BelowSame(fs, fs', early, i);
    }
  }

  lemma BelowSame(fs: seq<Func>, fs': seq<Func>, early: bool, n: nat)
    requires n <= |fs| && n <= |fs'| && forall j :: 0 <= j < n ==> fs'[j] == fs[j]
    ensures Below(fs', early, n) == Below(fs, early, n)
  {
  }

  // No provider of the static phase takes a type that comes from the invoke function, or that an earlier
  // provider of the run phase sends.
  lemma StaticTakesStatic(c: Characterized, fs: seq<Func>, invokeOutputs: set<TypeCode>, i: nat, t: TypeCode)
    requires CharacterizedOk(c) && |fs| == |c.asStatic| && i < |fs| && TakenAs(c, fs, invokeOutputs, i)
    requires InStaticPhase(fs[i]) && t in fs[i].inputs
    ensures !NonStatic(fs, invokeOutputs, i, t)
  {
  }

  // A provider is taken as static exactly if it can be, and none of its inputs comes from the invoke function or
  // an earlier provider that has not been taken as static.
  lemma TakenAsStaticExactlyIf(c: Characterized, fs: seq<Func>, invokeOutputs: set<TypeCode>, i: nat)
    requires CharacterizedOk(c) && |fs| == |c.asStatic| && i < |fs| && TakenAs(c, fs, invokeOutputs, i)
    ensures c.asStatic[i].Some?
    ensures
      var f := c.asStatic[i].value;
      var early := f.kind.Literal? || f.kind.StaticInjector? || f.kind.StaticFallible?;
      var late := exists t :: t in f.inputs
                              && (t in invokeOutputs
                                  || exists j: nat :: j < i && !fs[j].kind.Literal? && !fs[j].kind.StaticInjector?
                                                      && !fs[j].kind.StaticFallible? && t in fs[j].outputs);
      if early && late then c.asRun[i] == Some(fs[i]) && !InStaticPhase(fs[i])
      else fs[i] == f && (InStaticPhase(fs[i]) <==> early)
  {
    var f := c.asStatic[i].value;
    forall t ensures NonStatic(fs, invokeOutputs, i, t) <==>
        t in invokeOutputs
        || exists j: nat :: j < i && !fs[j].kind.Literal? && !fs[j].kind.StaticInjector?
                            && !fs[j].kind.StaticFallible? && t in fs[j].outputs
    {
    }
    hide NonStatic;
  }

  // ------------------------------------------------------------------ Who supplies whom

  // The list that is bound if nothing is reordered: the init function, the static phase, the invoke
  // function, the run phase.
  function Assembly(fs: seq<Func>, init: Option<Func>, invoke: Func): seq<Func> {
    InitPart(init) + Pick(fs, Below(fs, true, |fs|)) + [invoke] + Pick(fs, Below(fs, false, |fs|))
  }

  function InitPart(init: Option<Func>): (r: seq<Func>) {
    if init.Some? then [init.value] else []
  }

  function InitAt(init: Option<Func>): Option<nat> {
    if init.Some? then Some(0) else None
  }

  function InvokeAt(fs: seq<Func>, init: Option<Func>): nat {
    |InitPart(init)| + |Below(fs, true, |fs|)|
  }

  // Where a provider stands in that list.
  function Place(fs: seq<Func>, init: Option<Func>, i: nat): nat
    requires i < |fs|
  {
    if InStaticPhase(fs[i]) then |InitPart(init)| + |Below(fs, true, i)|
    else InvokeAt(fs, init) + 1 + |Below(fs, false, i)|
  }

  function Placed(fs: seq<Func>, init: Option<Func>, j: Option<nat>): Option<nat>
    requires j.Some? ==> j.value < |fs|
  {
    if j.Some? then Some(Place(fs, init, j.value)) else None
  }

  lemma {:induction false} BelowHas(fs: seq<Func>, i: nat, n: nat)
    requires i < n <= |fs|
    ensures
      var early := InStaticPhase(fs[i]);
      |Below(fs, early, i)| < |Below(fs, early, n)| && Below(fs, early, n)[|Below(fs, early, i)|] == i
  {
    if i + 1 < n {
      BelowHas(fs, i, n - 1);
    }
  }

  // It stands there, and nobody else does.
  lemma PlaceHolds(fs: seq<Func>, init: Option<Func>, invoke: Func, i: nat)
    requires i < |fs|
    ensures Place(fs, init, i) < |Assembly(fs, init, invoke)|
    ensures Assembly(fs, init, invoke)[Place(fs, init, i)] == fs[i]
    ensures InStaticPhase(fs[i]) ==> |InitPart(init)| <= Place(fs, init, i) < InvokeAt(fs, init)
    ensures !InStaticPhase(fs[i]) ==> InvokeAt(fs, init) < Place(fs, init, i)
  {
    hide Below;
    BelowHas(fs, i, |fs|);
  }

  lemma PlacesDiffer(fs: seq<Func>, init: Option<Func>, i: nat, j: nat)
    requires i < |fs| && j < |fs|
    ensures Place(fs, init, i) == Place(fs, init, j) <==> i == j
  {
    PlaceHolds(fs, init, fs[i], i);
    PlaceHolds(fs, init, fs[j], j);
    if i < j && InStaticPhase(fs[i]) == InStaticPhase(fs[j]) {
      BelowHas(fs, i, j);
    }
    if j < i && InStaticPhase(fs[i]) == InStaticPhase(fs[j]) {
      BelowHas(fs, j, i);
    }
  }

  // Every provider is of the static or of the run phase, and the two functions are what they are.
  ghost predicate Sorted(fs: seq<Func>, init: Option<Func>, invoke: Func) {
    && (init.Some? ==> init.value.kind.Init?) && invoke.kind.Invoke?
    && forall i: nat :: i < |fs| ==> InStaticPhase(fs[i]) || RunPhase(fs[i])
  }

  predicate EarlySort(s: Sort) {
    s.StaticOnes? || s.LiteralOnes?
  }

  lemma {:induction false} NoneLater(funcs: seq<Func>, lo: nat, hi: nat, t: TypeCode, s: Sort)
    requires lo <= hi <= |funcs| && forall k: nat :: lo <= k < hi ==> !OfSort(funcs[k], s)
    ensures Latest(funcs, hi, t, s) == Latest(funcs, lo, t, s)
  {
    if lo < hi {
      NoneLater(funcs, lo, hi - 1, t, s);
    }
  }

  lemma BelowStep(fs: seq<Func>, early: bool, n: nat)
    requires n < |fs|
    ensures Below(fs, early, n + 1) == Below(fs, early, n) + if InStaticPhase(fs[n]) == early then [n] else []
  {
  }

  lemma NoSort(fs: seq<Func>, init: Option<Func>, invoke: Func, n: nat, s: Sort)
    requires Sorted(fs, init, invoke) && n < |fs|
    ensures InStaticPhase(fs[n]) ==> !OfSort(fs[n], RunOnes)
    ensures EarlySort(s) && OfSort(fs[n], s) ==> InStaticPhase(fs[n])
  {
  }

  // The latest of a sort is the same provider as before.
  lemma LatestEarly(fs: seq<Func>, init: Option<Func>, invoke: Func, n: nat, t: TypeCode, s: Sort)
    requires Sorted(fs, init, invoke) && n <= |fs| && EarlySort(s)
    ensures |InitPart(init)| + |Below(fs, true, n)| <= InvokeAt(fs, init) < |Assembly(fs, init, invoke)|
    ensures Latest(Assembly(fs, init, invoke), |InitPart(init)| + |Below(fs, true, n)|, t, s) ==
              Placed(fs, init, Latest(fs, n, t, s))
  {
    hide *;
    PartsFit(fs, init, invoke, n);
    LatestUpTo(fs, init, invoke, n, |InitPart(init)| + |Below(fs, true, n)|, t, s);
  }

  lemma {:induction false} LatestUpTo(fs: seq<Func>, init: Option<Func>, invoke: Func, n: nat, k: nat, t: TypeCode,
                                      s: Sort)
    requires Sorted(fs, init, invoke) && n <= |fs| && EarlySort(s)
    requires k == |InitPart(init)| + |Below(fs, true, n)| && k <= |Assembly(fs, init, invoke)|
    ensures Latest(Assembly(fs, init, invoke), k, t, s) == Placed(fs, init, Latest(fs, n, t, s))
    decreases n
  {
    hide *;
    if n == 0 {
      NoneYet(fs, init, invoke, t, s);
      PlacedNone(fs, init);
    } else {
      PlacedSome(fs, init, n - 1);
      BelowStep(fs, true, n - 1);
      LatestStep(fs, n - 1, t, s);
      NoSort(fs, init, invoke, n - 1, s);
      if InStaticPhase(fs[n - 1]) {
        PlaceHolds(fs, init, invoke, n - 1);
        PlaceIs(fs, init, n - 1);
        LatestUpTo(fs, init, invoke, n - 1, k - 1, t, s);
        LatestStep(Assembly(fs, init, invoke), k - 1, t, s);
      } else {
        LatestUpTo(fs, init, invoke, n - 1, k, t, s);
      }
    }
  }

  lemma PlacedNone(fs: seq<Func>, init: Option<Func>)
    ensures Placed(fs, init, None) == None
  {
  }

  lemma PlacedSome(fs: seq<Func>, init: Option<Func>, j: nat)
    requires j < |fs|
    ensures Placed(fs, init, Some(j)) == Some(Place(fs, init, j))
  {
  }

  lemma PartsFit(fs: seq<Func>, init: Option<Func>, invoke: Func, n: nat)
    requires n <= |fs|
    ensures |InitPart(init)| + |Below(fs, true, n)| <= InvokeAt(fs, init) < |Assembly(fs, init, invoke)|
  {
    AssemblyIs(fs, init, invoke);
    BelowGrows(fs, true, n);
  }

  lemma NoneYet(fs: seq<Func>, init: Option<Func>, invoke: Func, t: TypeCode, s: Sort)
    requires Sorted(fs, init, invoke) && EarlySort(s)
    ensures |InitPart(init)| + |Below(fs, true, 0)| <= |Assembly(fs, init, invoke)|
    ensures Latest(Assembly(fs, init, invoke), |InitPart(init)| + |Below(fs, true, 0)|, t, s) == None
    ensures Latest(fs, 0, t, s) == None
  {
    hide Assembly, Sorted, EarlySort, OfSort;
    AssemblyIs(fs, init, invoke);
    if init.Some? {
      InitIsOther(fs, init, invoke, s);
    }
  }

  lemma BelowStarts(fs: seq<Func>)
    ensures forall early: bool :: Below(fs, early, 0) == []
  {
  }

  lemma LatestStarts(fs: seq<Func>, t: TypeCode, s: Sort)
    ensures Latest(fs, 0, t, s) == None
  {
  }

  lemma InitIsOther(fs: seq<Func>, init: Option<Func>, invoke: Func, s: Sort)
    requires Sorted(fs, init, invoke) && init.Some? && EarlySort(s)
    ensures !OfSort(init.value, s)
  {
  }

  lemma AssemblyIs(fs: seq<Func>, init: Option<Func>, invoke: Func)
    ensures InvokeAt(fs, init) < |Assembly(fs, init, invoke)|
            && Assembly(fs, init, invoke)[InvokeAt(fs, init)] == invoke
    ensures |Assembly(fs, init, invoke)| == InvokeAt(fs, init) + 1 + |Below(fs, false, |fs|)|
    ensures init.Some? ==> |InitPart(init)| == 1 && Assembly(fs, init, invoke)[0] == init.value
    ensures init.None? ==> |InitPart(init)| == 0
    ensures forall k: nat :: |InitPart(init)| <= k < InvokeAt(fs, init) ==>
              InStaticPhase(Assembly(fs, init, invoke)[k])
    ensures forall k: nat :: InvokeAt(fs, init) < k < |Assembly(fs, init, invoke)| ==>
              !InStaticPhase(Assembly(fs, init, invoke)[k])
  {
    BelowAre(fs, true, |fs|);
    BelowAre(fs, false, |fs|);
    hide Below;
  }

  lemma {:induction false} BelowGrows(fs: seq<Func>, early: bool, n: nat)
    requires n <= |fs|
    ensures |Below(fs, early, n)| <= |Below(fs, early, |fs|)|
    decreases |fs| - n
  {
    if n < |fs| {
      BelowGrows(fs, early, n + 1);
    }
  }

  lemma {:induction false} LatestRun(fs: seq<Func>, init: Option<Func>, invoke: Func, n: nat, t: TypeCode)
    requires Sorted(fs, init, invoke) && n <= |fs|
    ensures InvokeAt(fs, init) + 1 + |Below(fs, false, n)| <= |Assembly(fs, init, invoke)|
    ensures Latest(Assembly(fs, init, invoke), InvokeAt(fs, init) + 1 + |Below(fs, false, n)|, t, RunOnes) ==
              Placed(fs, init, Latest(fs, n, t, RunOnes))
  {
    hide Assembly, Below, Latest, OfSort, InStaticPhase, Sorted, InvokeAt;
    AssemblyIs(fs, init, invoke);
    var funcs := Assembly(fs, init, invoke);
    BelowGrows(fs, false, n);
    if n == 0 {
      BelowStarts(fs);
      LatestStarts(fs, t, RunOnes);
      LatestStarts(funcs, t, RunOnes);
      NoRunsYet(fs, init, invoke);
      NoneLater(funcs, 0, InvokeAt(fs, init) + 1, t, RunOnes);
    } else {
      LatestRun(fs, init, invoke, n - 1, t);
      NoSort(fs, init, invoke, n - 1, RunOnes);
      BelowStep(fs, false, n - 1);
      LatestStep(fs, n - 1, t, RunOnes);
      PlaceHolds(fs, init, invoke, n - 1);
      if !InStaticPhase(fs[n - 1]) {
        LatestStep(funcs, InvokeAt(fs, init) + 1 + |Below(fs, false, n - 1)|, t, RunOnes);
      }
    }
  }

  lemma NoRunsYet(fs: seq<Func>, init: Option<Func>, invoke: Func)
    requires Sorted(fs, init, invoke)
    ensures InvokeAt(fs, init) < |Assembly(fs, init, invoke)|
    ensures forall k: nat :: k <= InvokeAt(fs, init) ==> !OfSort(Assembly(fs, init, invoke)[k], RunOnes)
  {
    hide Assembly, Below, InvokeAt;
    AssemblyIs(fs, init, invoke);
  }

  // Whose value is there, given the latest static injector: in terms of the original order.
  function EarlySource(fs: seq<Func>, init: Option<Func>, latest: Option<nat>, t: TypeCode): Option<nat>
    requires latest.Some? ==> latest.value < |fs|
  {
    if latest.Some? then Placed(fs, init, latest)
    else if init.Some? && t in init.value.outputs then InitAt(init)
    else Placed(fs, init, Latest(fs, |fs|, t, LiteralOnes))
  }

  lemma CodedEarlyStays(fs: seq<Func>, init: Option<Func>, invoke: Func, i: nat, t: TypeCode)
    requires Sorted(fs, init, invoke) && i <= |fs|
    ensures
      var funcs, k := Assembly(fs, init, invoke), |InitPart(init)| + |Below(fs, true, i)|;
      && k <= |funcs| && (init.Some? ==> funcs != [])
      && CodedEarly(funcs, InitAt(init), k, t) == EarlySource(fs, init, Latest(fs, i, t, StaticOnes), t)
      && (i == |fs| ==> CodedEarly(funcs, InitAt(init), |funcs|, t) == CodedEarly(funcs, InitAt(init), k, t))
  {
    hide Assembly, Latest, Below;
    var funcs := Assembly(fs, init, invoke);
    AssemblyIs(fs, init, invoke);
    LatestEarly(fs, init, invoke, i, t, StaticOnes);
    LatestEarly(fs, init, invoke, |fs|, t, LiteralOnes);
    NoneLater(funcs, InvokeAt(fs, init), |funcs|, t, StaticOnes);
    NoneLater(funcs, InvokeAt(fs, init), |funcs|, t, LiteralOnes);
  }

  lemma CodedRunStays(fs: seq<Func>, init: Option<Func>, invoke: Func, i: nat, t: TypeCode)
    requires Sorted(fs, init, invoke) && i < |fs| && !InStaticPhase(fs[i])
    ensures
      var funcs, k := Assembly(fs, init, invoke), Place(fs, init, i);
      && k <= |funcs| && InvokeAt(fs, init) < |funcs| && (init.Some? ==> funcs != [])
      && CodedRun(funcs, InvokeAt(fs, init), InitAt(init), k, t) ==
           var latest := Latest(fs, i, t, RunOnes);
           if latest.Some? then Placed(fs, init, latest)
           else if t in invoke.outputs then Some(InvokeAt(fs, init))
           else EarlySource(fs, init, Latest(fs, |fs|, t, StaticOnes), t)
  {
    hide Assembly, Latest, Below, CodedEarly;
    AssemblyIs(fs, init, invoke);
    LatestRun(fs, init, invoke, i, t);
    CodedEarlyStays(fs, init, invoke, |fs|, t);
  }

  // The closest in the original order, before which the init and the invoke function stand.
  function Intended(fs: seq<Func>, init: Option<Func>, invoke: Func, i: nat, t: TypeCode): Option<nat>
    requires i < |fs|
  {
    var j := Latest(fs, i, t, Anybody);
    if j.Some? then Placed(fs, init, j)
    else if !InStaticPhase(fs[i]) && t in invoke.outputs then Some(InvokeAt(fs, init))
    else if init.Some? && t in init.value.outputs then InitAt(init)
    else None
  }

  // Some included provider of a sort, from 'lo' up to 'hi', sends the type.
  ghost predicate SortSends(fs: seq<Func>, lo: nat, hi: nat, t: TypeCode, s: Sort) {
    exists j: nat :: lo <= j < hi && j < |fs| && fs[j].included && OfSort(fs[j], s) && t in fs[j].outputs
  }

  // A provider of the static phase gets an input from where the original order says: always if that is a
  // static injector or the init function; a literal must be the last of all, and no static injector before
  // the provider may send the type, nor the init function.
  lemma StaticSuppliersStayExactlyIf(c: Characterized, fs: seq<Func>, init: Option<Func>, invoke: Func, i: nat,
                                     t: TypeCode)
    requires CharacterizedOk(c) && |fs| == |c.asStatic| && Sorted(fs, init, invoke)
    requires i < |fs| && TakenAs(c, fs, AllOf(invoke.outputs), i) && InStaticPhase(fs[i]) && t in fs[i].inputs
    ensures
      var funcs, k := Assembly(fs, init, invoke), Place(fs, init, i);
      var j, sends := Latest(fs, i, t, Anybody), init.Some? && t in init.value.outputs;
      && k < |funcs| && funcs[k] == fs[i]
      && (CodedEarly(funcs, InitAt(init), k, t) == Intended(fs, init, invoke, i, t) <==>
            if j.Some? then
              fs[j.value].kind.Literal? ==>
                !SortSends(fs, 0, i, t, StaticOnes) && !sends && !SortSends(fs, j.value + 1, |fs|, t, LiteralOnes)
            else sends || !SortSends(fs, 0, |fs|, t, LiteralOnes))
  {
    hide Latest, Below, Assembly, Place;
    PlaceHolds(fs, init, invoke, i);
    CodedEarlyStays(fs, init, invoke, i, t);
    PlaceIs(fs, init, i);
    StaticTakesStatic(c, fs, AllOf(invoke.outputs), i, t);
    SendersAre(fs, init, invoke, i, t);
    ApartIn(fs, init, Latest(fs, i, t, StaticOnes), Latest(fs, i, t, Anybody));
    ApartIn(fs, init, Latest(fs, |fs|, t, LiteralOnes), Latest(fs, i, t, Anybody));
  }

  // A provider of the run phase does so: always if that is of the run phase or the invoke function.
  lemma RunSuppliersStayExactlyIf(fs: seq<Func>, init: Option<Func>, invoke: Func, i: nat, t: TypeCode)
    requires Sorted(fs, init, invoke) && i < |fs| && !InStaticPhase(fs[i])
    ensures
      var funcs, k := Assembly(fs, init, invoke), Place(fs, init, i);
      var j, sends := Latest(fs, i, t, Anybody), init.Some? && t in init.value.outputs;
      && k < |funcs| && funcs[k] == fs[i]
      && InvokeAt(fs, init) < |funcs| && (init.Some? ==> funcs != [])
      && (CodedRun(funcs, InvokeAt(fs, init), InitAt(init), k, t) == Intended(fs, init, invoke, i, t) <==>
            if j.Some? && !InStaticPhase(fs[j.value]) then true
            else if j.Some? then
              && !SortSends(fs, 0, i, t, RunOnes) && t !in invoke.outputs
              && !SortSends(fs, j.value + 1, |fs|, t, StaticOnes)
              && (fs[j.value].kind.Literal? ==>
                    && !SortSends(fs, 0, |fs|, t, StaticOnes) && !sends
                    && !SortSends(fs, j.value + 1, |fs|, t, LiteralOnes))
            else
              || t in invoke.outputs
              || (!SortSends(fs, 0, |fs|, t, StaticOnes) && (sends || !SortSends(fs, 0, |fs|, t, LiteralOnes))))
  {
    hide Latest, Below, Assembly, Place, InvokeAt;
    PlaceHolds(fs, init, invoke, i);
    CodedRunStays(fs, init, invoke, i, t);
    SendersAre(fs, init, invoke, i, t);
    ApartIn(fs, init, Latest(fs, i, t, RunOnes), Latest(fs, i, t, Anybody));
    ApartIn(fs, init, Latest(fs, |fs|, t, StaticOnes), Latest(fs, i, t, Anybody));
    ApartIn(fs, init, Latest(fs, |fs|, t, LiteralOnes), Latest(fs, i, t, Anybody));
  }

  function AllOf(types: seq<TypeCode>): set<TypeCode> {
    set t | t in types
  }

  // Who sends the type, as far as that is the latest of its sort or of all.
  lemma SendersAre(fs: seq<Func>, init: Option<Func>, invoke: Func, i: nat, t: TypeCode)
    requires Sorted(fs, init, invoke) && i < |fs|
    ensures
      var j, latest, run := Latest(fs, i, t, Anybody), Latest(fs, i, t, StaticOnes), Latest(fs, i, t, RunOnes);
      && (j.Some? ==> j.value < i && (j == latest || j == run || fs[j.value].kind.Literal?))
      && (j.Some? && InGroup(fs[j.value], Statics) ==> j == latest)
      && (j.Some? && !InStaticPhase(fs[j.value]) ==> j == run && InGroup(fs[j.value], Runs))
      && (latest.Some? ==> InGroup(fs[latest.value], Statics) && j.Some?)
      && (run.Some? ==> InGroup(fs[run.value], Runs) && j.Some?)
      && (latest.Some? <==> SortSends(fs, 0, i, t, StaticOnes)) && (run.Some? <==> SortSends(fs, 0, i, t, RunOnes))
    ensures
      var j, latest, literal :=
        Latest(fs, i, t, Anybody), Latest(fs, |fs|, t, StaticOnes), Latest(fs, |fs|, t, LiteralOnes);
      && (latest.Some? <==> SortSends(fs, 0, |fs|, t, StaticOnes))
      && (literal.Some? <==> SortSends(fs, 0, |fs|, t, LiteralOnes))
      && (latest.Some? ==> InGroup(fs[latest.value], Statics)) && (literal.Some? ==> fs[literal.value].kind.Literal?)
      && (j.Some? && InGroup(fs[j.value], Statics) ==>
            latest.Some? && (j == latest <==> !SortSends(fs, j.value + 1, |fs|, t, StaticOnes)))
      && (j.Some? && fs[j.value].kind.Literal? ==>
            literal.Some? && (j == literal <==> !SortSends(fs, j.value + 1, |fs|, t, LiteralOnes)))
  {
    hide Latest, SortSends, Sorted;
    var j := Latest(fs, i, t, Anybody);
    LatestIs(fs, i, t, StaticOnes);
    LatestIs(fs, i, t, RunOnes);
    LatestIs(fs, |fs|, t, StaticOnes);
    LatestIs(fs, |fs|, t, LiteralOnes);
    if j.Some? {
      IsOfSort(fs, init, invoke, j.value, t);
      if InGroup(fs[j.value], Statics) {
        LastOfSort(fs, j.value, t, StaticOnes);
      }
      if fs[j.value].kind.Literal? {
        LastOfSort(fs, j.value, t, LiteralOnes);
      }
    }
  }

  lemma LatestIs(fs: seq<Func>, n: nat, t: TypeCode, s: Sort)
    requires n <= |fs|
    ensures Latest(fs, n, t, s).Some? <==> SortSends(fs, 0, n, t, s)
  {
    hide Latest;
  }

  lemma LastOfSort(fs: seq<Func>, j: nat, t: TypeCode, s: Sort)
    requires j < |fs| && fs[j].included && OfSort(fs[j], s) && t in fs[j].outputs
    ensures var latest := Latest(fs, |fs|, t, s);
            latest.Some? && (latest == Some(j) <==> !SortSends(fs, j + 1, |fs|, t, s))
  {
    hide Latest;
    var latest := Latest(fs, |fs|, t, s);
    if latest.Some? && latest != Some(j) {
      assert latest.value > j;
      assert SortSends(fs, j + 1, |fs|, t, s);
    }
  }

  lemma IsOfSort(fs: seq<Func>, init: Option<Func>, invoke: Func, j: nat, t: TypeCode)
    requires Sorted(fs, init, invoke) && j < |fs| && t in fs[j].outputs
    ensures InStaticPhase(fs[j]) ==> fs[j].kind.Literal? || InGroup(fs[j], Statics)
    ensures !InStaticPhase(fs[j]) ==> InGroup(fs[j], Runs)
  {
  }

  // Providers stand neither where the init function does nor where the invoke function does, nor where another
  // one does.
  lemma ApartIn(fs: seq<Func>, init: Option<Func>, a: Option<nat>, b: Option<nat>)
    requires (a.Some? ==> a.value < |fs|) && (b.Some? ==> b.value < |fs|)
    ensures Placed(fs, init, a) == Placed(fs, init, b) <==> a == b
    ensures forall x :: x == a || x == b ==>
              x.Some? ==> Placed(fs, init, x) != InitAt(init) && Placed(fs, init, x) != Some(InvokeAt(fs, init))
    ensures InitAt(init) != Some(InvokeAt(fs, init))
  {
    hide Place;
    if a.Some? && b.Some? {
      PlacesDiffer(fs, init, a.value, b.value);
    }
    if a.Some? {
      PlaceHolds(fs, init, fs[a.value], a.value);
    }
    if b.Some? {
      PlaceHolds(fs, init, fs[b.value], b.value);
    }
  }

  lemma PlaceIs(fs: seq<Func>, init: Option<Func>, i: nat)
    requires i < |fs|
    ensures Place(fs, init, i) == if InStaticPhase(fs[i]) then |InitPart(init)| + |Below(fs, true, i)|
                                  else InvokeAt(fs, init) + 1 + |Below(fs, false, i)|
  {
  }

  // What binding relies on, before anything is reordered: the init function, the static phase, the
  // invoke function, the run phase.
  lemma InPhases(c: Characterized, fs: seq<Func>, invokeOutputs: set<TypeCode>, init: seq<Func>, invoke: Func)
    requires CharacterizedOk(c) && |fs| == |c.asStatic| && fs != []
    requires forall i: nat :: i < |fs| ==> TakenAs(c, fs, invokeOutputs, i)
    requires forall i: nat :: i < |fs| && InStaticPhase(fs[i]) ==> StaticPhase(fs[i])
    requires forall i: nat :: i < |fs| ==> (fs[i].kind.Final? <==> i == |fs| - 1)
    requires fs[|fs| - 1].included && InvokePhase(invoke)
    requires forall i: nat :: i < |init| ==> init[i].kind.Init? && StaticPhase(init[i])
    ensures
      var afterInit, afterInvoke := Pick(fs, Below(fs, true, |fs|)), Pick(fs, Below(fs, false, |fs|));
      var at := |init| + |afterInit|;
      && Phases(init + afterInit + [invoke] + afterInvoke, at, at)
      && Separated(init + afterInit + [invoke] + afterInvoke, at)
  {
    hide *;
    var early, late := Below(fs, true, |fs|), Below(fs, false, |fs|);
    BelowAre(fs, true, |fs|);
    BelowAre(fs, false, |fs|);
    LastIsLate(fs);
    forall k: nat | k < |late| ensures RunPhase(fs[late[k]]) && (fs[late[k]].kind.Final? <==> k == |late| - 1) {
      LateRuns(c, fs, invokeOutputs, late[k]);
    }
    PickAt(fs, early);
    PickAt(fs, late);
    forall k: nat | k < |early| ensures StaticPhase(Pick(fs, early)[k]) && !fs[early[k]].kind.Final? {
      EarlyIsStatic(fs[early[k]]);
    }
    Assembled(init, Pick(fs, early), invoke, Pick(fs, late));
  }

  lemma EarlyIsStatic(f: Func)
    requires InStaticPhase(f)
    ensures !f.kind.Final?
  {
  }

  lemma LateRuns(c: Characterized, fs: seq<Func>, invokeOutputs: set<TypeCode>, i: nat)
    requires CharacterizedOk(c) && |fs| == |c.asStatic| && i < |fs| && TakenAs(c, fs, invokeOutputs, i)
    requires !InStaticPhase(fs[i])
    ensures RunPhase(fs[i])
  {
  }

  lemma LastIsLate(fs: seq<Func>)
    requires fs != [] && fs[|fs| - 1].kind.Final?
    ensures !InStaticPhase(fs[|fs| - 1])
  {
  }

  lemma PickAt(fs: seq<Func>, positions: seq<nat>)
    requires forall k :: 0 <= k < |positions| ==> positions[k] < |fs|
    ensures forall k :: 0 <= k < |positions| ==> Pick(fs, positions)[k] == fs[positions[k]]
  {
  }

  lemma Assembled(init: seq<Func>, early: seq<Func>, invoke: Func, late: seq<Func>)
    requires forall i: nat :: i < |init| ==> init[i].kind.Init? && StaticPhase(init[i])
    requires forall i: nat :: i < |early| ==> StaticPhase(early[i])
    requires InvokePhase(invoke) && late != [] && late[|late| - 1].included
    requires forall i: nat :: i < |late| ==> RunPhase(late[i]) && (late[i].kind.Final? <==> i == |late| - 1)
    ensures Phases(init + early + [invoke] + late, |init| + |early|, |init| + |early|)
    ensures Separated(init + early + [invoke] + late, |init| + |early|)
  {
    hide RunPhase;
    var funcs, at := init + early + [invoke] + late, |init| + |early|;
    assert forall i: nat :: i < |init| ==> funcs[i] == init[i];
    assert forall i: nat :: |init| <= i < at ==> funcs[i] == early[i - |init|];
    assert forall i: nat :: at < i < |funcs| ==> funcs[i] == late[i - at - 1];
    forall i: nat | i < at ensures StaticPhase(funcs[i]) && !funcs[i].kind.Final? {
    }
    assert OneFinal(funcs, |funcs| - 1);
    forall i: nat | at <= i < |funcs| ensures !StaticPhase(funcs[i]) {
      NotStatic(funcs[i]);
    }
  }

  lemma NotStatic(f: Func)
    ensures RunPhase(f) || f.kind.Invoke? ==> !StaticPhase(f)
  {
  }

  lemma {:induction false} BelowAre(fs: seq<Func>, early: bool, n: nat)
    requires n <= |fs|
    ensures forall k :: 0 <= k < |Below(fs, early, n)| ==> InStaticPhase(fs[Below(fs, early, n)[k]]) == early
    ensures forall k, l :: 0 <= k < l < |Below(fs, early, n)| ==> Below(fs, early, n)[k] < Below(fs, early, n)[l]
    ensures n > 0 && InStaticPhase(fs[n - 1]) == early ==>
              Below(fs, early, n) != [] && Below(fs, early, n)[|Below(fs, early, n)| - 1] == n - 1
  {
    if n > 0 {
      BelowAre(fs, early, n - 1);
    }
  }
}
