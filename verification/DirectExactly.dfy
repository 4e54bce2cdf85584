/**
 When a bound list does what its order says: exactly if everybody gets what it takes from the closest entry.
 */
module DirectExactly {
  import opened Basics
  import opened Interp
  import opened Slots
  import opened Reads
  import opened Binding
  import opened Binder
  import opened Supply
  import opened Direct
  import opened DirectAgrees
  import opened DirectDiffers

  // ------------------------------------------------------------------ A tour: the init function, then invoke

  ghost function Tour(funcs: seq<Func>, invoke: nat, init: Option<nat>): (ops: seq<Op>)
    requires invoke < |funcs| && (init.Some? ==> init.value < |funcs|)
    ensures OpsOk(funcs, invoke, init, ops)
  {
    (if init.Some? then [InitCall(InitTags(funcs, init))] else [])
    + [InvokeCall(Copies(|funcs[invoke].outputs|, invoke))]
  }

  lemma OpsFit(funcs: seq<Func>, invokeIndex: nat, invoke: nat, init: Option<nat>, ops: seq<Op>)
    requires Prepared(funcs, invokeIndex, invoke, init)
    requires invoke < |funcs| && (init.Some? ==> init.value < |funcs|) && OpsOk(funcs, invoke, init, ops)
    ensures invokeIndex <= |funcs| && PlanOk(PlanFor(funcs, invokeIndex, invoke, init))
    ensures forall op :: op in ops ==> OpOk(PlanFor(funcs, invokeIndex, invoke, init), op)
    ensures forall i: nat :: i < |funcs| && funcs[i].kind.Literal? ==> funcs[i].outputs != []
    ensures (forall op :: op in ops ==> OneOk(funcs, invoke, init, op))
            && (init.Some? && ops != [] ==> ops[0].InitCall?)
  {
    ListFacts(funcs, invokeIndex, invoke, init);
    PlanIsOk(funcs, invokeIndex, invoke, init);
    hide Prepared, PlanOk;
  }

  // The code and the direct interpreter agree on a history: on every result, and on everything that happens.
  ghost predicate SameHistory(w: World, funcs: seq<Func>, invokeIndex: nat, invoke: nat, init: Option<nat>,
                              ops: seq<Op>)
    requires Prepared(funcs, invokeIndex, invoke, init)
    requires invoke < |funcs| && (init.Some? ==> init.value < |funcs|) && OpsOk(funcs, invoke, init, ops)
  {
    OpsFit(funcs, invokeIndex, invoke, init, ops);
    var p := PlanFor(funcs, invokeIndex, invoke, init);
    var past := History(AsCoded, w, p, Shared(false, LiteralFlow(funcs, |funcs|), 0), ops, []);
    var l := LiveAll(w, funcs, invokeIndex, invoke, init, UNBORN, ops);
    l.results == past.results && l.trace == past.trace
  }

  // The static phase as it is coded, from the first call on.
  ghost function CodedPhase(w: World, funcs: seq<Func>, invokeIndex: nat, invoke: nat, init: Option<nat>): StaticOutcome
    requires Prepared(funcs, invokeIndex, invoke, init)
  {
    ListFacts(funcs, invokeIndex, invoke, init);
    PlanIsOk(funcs, invokeIndex, invoke, init);
    InitTagsFit(funcs, invokeIndex, invoke, init);
    StaticFrom(w, PlanFor(funcs, invokeIndex, invoke, init).statics, 0, StartOf(funcs, init, InitTags(funcs, init)), [])
  }

  ghost function DirectPhase(w: World, funcs: seq<Func>, invokeIndex: nat, invoke: nat, init: Option<nat>): (p: Pass)
    requires Prepared(funcs, invokeIndex, invoke, init)
    ensures |p.sent| == |funcs|
  {
    InitTagsFit(funcs, invokeIndex, invoke, init);
    StaticPass(w, funcs, InitTags(funcs, init), |funcs|, [])
  }

  lemma TourCoded(w: World, funcs: seq<Func>, invokeIndex: nat, invoke: nat, init: Option<nat>)
    requires Prepared(funcs, invokeIndex, invoke, init) && invoke < |funcs| && (init.Some? ==> init.value < |funcs|)
    ensures invokeIndex <= |funcs| && PlanOk(PlanFor(funcs, invokeIndex, invoke, init))
    ensures RunChain(ChainOf(funcs, invokeIndex))
    ensures forall op :: op in Tour(funcs, invoke, init) ==> OpOk(PlanFor(funcs, invokeIndex, invoke, init), op)
    ensures forall i: nat :: i < |funcs| && funcs[i].kind.Literal? ==> funcs[i].outputs != []
    ensures
      var past := History(AsCoded, w, PlanFor(funcs, invokeIndex, invoke, init),
                          Shared(false, LiteralFlow(funcs, |funcs|), 0), Tour(funcs, invoke, init), []);
      var o := CodedPhase(w, funcs, invokeIndex, invoke, init);
      var values := Copies(|funcs[invoke].outputs|, invoke);
      && past.trace == RunFrom(AsCoded, w, ChainOf(funcs, invokeIndex), 0,
                               Interp.Bind(o.down, funcs[invoke].outputs, values), o.trace).trace
      && (init.Some? ==> past.results != [] && past.results[0] == GetAll(w, o.down, funcs[init.value].received))
  {
    hide *;
    ListFacts(funcs, invokeIndex, invoke, init);
    var ops, p := Tour(funcs, invoke, init), PlanFor(funcs, invokeIndex, invoke, init);
    OpsFit(funcs, invokeIndex, invoke, init, ops);
    PlanParts(funcs, invokeIndex, invoke, init);
    ChainStarts(p);
    InitTagsFit(funcs, invokeIndex, invoke, init);
    TourUnfolds(w, funcs, invokeIndex, invoke, init);
  }

  lemma TourUnfolds(w: World, funcs: seq<Func>, invokeIndex: nat, invoke: nat, init: Option<nat>)
    requires Prepared(funcs, invokeIndex, invoke, init) && invoke < |funcs| && (init.Some? ==> init.value < |funcs|)
    requires invokeIndex <= |funcs| && PlanOk(PlanFor(funcs, invokeIndex, invoke, init))
    requires forall op :: op in Tour(funcs, invoke, init) ==> OpOk(PlanFor(funcs, invokeIndex, invoke, init), op)
    requires forall i: nat :: i < |funcs| && funcs[i].kind.Literal? ==> funcs[i].outputs != []
    ensures RunChain(ChainOf(funcs, invokeIndex))
    ensures
      var past := History(AsCoded, w, PlanFor(funcs, invokeIndex, invoke, init),
                          Shared(false, LiteralFlow(funcs, |funcs|), 0), Tour(funcs, invoke, init), []);
      var o := CodedPhase(w, funcs, invokeIndex, invoke, init);
      var values := Copies(|funcs[invoke].outputs|, invoke);
      && past.trace == RunFrom(AsCoded, w, ChainOf(funcs, invokeIndex), 0,
                               Interp.Bind(o.down, funcs[invoke].outputs, values), o.trace).trace
      && (init.Some? ==> past.results != [] && past.results[0] == GetAll(w, o.down, funcs[init.value].received))
  {
    hide Prepared, RunFrom, StaticFrom, ChainOf, Collection, LiteralFlow, Interp.Bind, GetAll, Copies;
    var ops, p := Tour(funcs, invoke, init), PlanFor(funcs, invokeIndex, invoke, init);
    var s := Shared(false, LiteralFlow(funcs, |funcs|), 0);
    var (s1, out, tr1) := OpStep(AsCoded, w, p, s, ops[0], []);
    HistoryOfOne(w, p, s, ops);
    if init.Some? {
      HistoryOfOne(w, p, s1, ops[1..]);
      assert ops[1..] == [InvokeCall(Copies(|funcs[invoke].outputs|, invoke))];
    }
  }

  lemma HistoryOfOne(w: World, p: Plan, s: Shared, ops: seq<Op>)
    requires PlanOk(p) && ops != [] && forall op :: op in ops ==> OpOk(p, op)
    ensures forall tr :: var (s1, out, tr1) := OpStep(AsCoded, w, p, s, ops[0], tr);
              var rest := History(AsCoded, w, p, s1, ops[1..], tr1);
              && History(AsCoded, w, p, s, ops, tr) == rest.(results := [out] + rest.results)
              && (ops[1..] == [] ==> rest.trace == tr1)
  {
  }

  lemma TourDirect(w: World, funcs: seq<Func>, invokeIndex: nat, invoke: nat, init: Option<nat>)
    requires Prepared(funcs, invokeIndex, invoke, init) && invoke < |funcs| && (init.Some? ==> init.value < |funcs|)
    ensures Phases(funcs, invokeIndex, invoke)
    ensures
      var l := LiveAll(w, funcs, invokeIndex, invoke, init, UNBORN, Tour(funcs, invoke, init));
      var p := DirectPhase(w, funcs, invokeIndex, invoke, init);
      var values := Copies(|funcs[invoke].outputs|, invoke);
      && l.trace == RunList(w, funcs, invokeIndex, invoke, p.sent, values, 0, map[], p.trace).trace
      && (init.Some? ==>
            l.results != [] && l.results[0] == GetAll(w, BoundBefore(funcs, p.sent, invoke),
                                                      funcs[init.value].received))
  {
    hide Prepared, Phases, RunList, StaticPass, BoundBefore, GetAll, Copies;
    ListFacts(funcs, invokeIndex, invoke, init);
    InitTagsFit(funcs, invokeIndex, invoke, init);
    var ops := Tour(funcs, invoke, init);
    var l1 := Live(w, funcs, invokeIndex, invoke, init, UNBORN, ops[0]);
    LiveOfOne(w, funcs, invokeIndex, invoke, init, UNBORN, ops);
    if init.Some? {
      assert ops[1..] == [InvokeCall(Copies(|funcs[invoke].outputs|, invoke))];
      LiveOfOne(w, funcs, invokeIndex, invoke, init, l1, ops[1..]);
    }
  }

  lemma LiveOfOne(w: World, funcs: seq<Func>, invokeIndex: nat, invoke: nat, init: Option<nat>, l: Lived, ops: seq<Op>)
    requires Prepared(funcs, invokeIndex, invoke, init) && LivedOk(funcs, init, l) && ops != []
    requires invoke < |funcs| && (init.Some? ==> init.value < |funcs|)
    requires (forall op :: op in ops ==> OneOk(funcs, invoke, init, op))
             && (init.Some? && l.sent.None? ==> ops[0].InitCall?)
    ensures
      var l1 := Live(w, funcs, invokeIndex, invoke, init, l, ops[0]);
      && LiveAll(w, funcs, invokeIndex, invoke, init, l, ops)
         == LiveAll(w, funcs, invokeIndex, invoke, init, l1, ops[1..])
      && (ops[1..] == [] ==> LiveAll(w, funcs, invokeIndex, invoke, init, l, ops) == l1)
  {
  }

  // ------------------------------------------------------------------ What the tour shows

  lemma TaggedStart(funcs: seq<Func>, invokeIndex: nat, invoke: nat, init: Option<nat>, failed: Option<nat>)
    requires Prepared(funcs, invokeIndex, invoke, init) && Tagged(funcs) && MayFail(funcs, failed)
    ensures init.Some? ==> init.value < |funcs| && |InitTags(funcs, init)| == |funcs[init.value].outputs|
    ensures forall i: nat :: i < |funcs| && funcs[i].kind.Literal? ==> funcs[i].outputs != []
    ensures CodedTags(funcs, init, failed, 0, StartOf(funcs, init, InitTags(funcs, init)))
  {
    ListFacts(funcs, invokeIndex, invoke, init);
    InitTagsFit(funcs, invokeIndex, invoke, init);
    var w, literals := Tagging(funcs, failed), LiteralFlow(funcs, |funcs|);
    if init.Some? {
      BindCopies(w, literals, funcs[init.value].outputs, InitTags(funcs, init), init.value);
    }
    hide Interp.Bind;
    var down := StartOf(funcs, init, InitTags(funcs, init));
    forall t ensures Get(w, down, t) == TagOf(failed, CodedEarly(funcs, init, 0, t)) {
      LiteralFlowIs(funcs, |funcs|, t);
    }
  }

  // The static phase of the tour: what is called, and what is left.
  lemma CodedPhaseShows(funcs: seq<Func>, invokeIndex: nat, invoke: nat, init: Option<nat>, failed: Option<nat>)
    requires Prepared(funcs, invokeIndex, invoke, init) && Tagged(funcs) && MayFail(funcs, failed)
    ensures invokeIndex <= |funcs| && (init.Some? ==> init.value < |funcs|)
    ensures
      var o := CodedPhase(Tagging(funcs, failed), funcs, invokeIndex, invoke, init);
      && CodedTrace(funcs, invokeIndex, init, failed, 0, [], o.trace)
      && BaseTags(funcs, invokeIndex, init, failed, o.down)
  {
    hide *;
    ListFacts(funcs, invokeIndex, invoke, init);
    PlanIsOk(funcs, invokeIndex, invoke, init);
    PlanParts(funcs, invokeIndex, invoke, init);
    InitTagsFit(funcs, invokeIndex, invoke, init);
    TaggedStart(funcs, invokeIndex, invoke, init, failed);
    TaggedParts(funcs);
    FailedIsOne(funcs, failed);
    CodedStaticRun(funcs, invokeIndex, invoke, init, failed, 0, StartOf(funcs, init, InitTags(funcs, init)), []);
    CodedPhaseIs(Tagging(funcs, failed), funcs, invokeIndex, invoke, init);
  }

  lemma CodedPhaseIs(w: World, funcs: seq<Func>, invokeIndex: nat, invoke: nat, init: Option<nat>)
    requires Prepared(funcs, invokeIndex, invoke, init)
    requires invokeIndex <= |funcs| && invoke < |funcs| && PlanOk(PlanFor(funcs, invokeIndex, invoke, init))
    requires init.Some? ==> init.value < |funcs| && |InitTags(funcs, init)| == |funcs[init.value].outputs|
    requires forall i: nat :: i < |funcs| && funcs[i].kind.Literal? ==> funcs[i].outputs != []
    ensures forall f :: f in PlanFor(funcs, invokeIndex, invoke, init).statics ==> IsStatic(f)
    ensures CodedPhase(w, funcs, invokeIndex, invoke, init) ==
              StaticFrom(w, PlanFor(funcs, invokeIndex, invoke, init).statics, 0,
                         StartOf(funcs, init, InitTags(funcs, init)), [])
  {
  }

  lemma DirectPhaseShows(funcs: seq<Func>, invokeIndex: nat, invoke: nat, init: Option<nat>, failed: Option<nat>)
    requires Prepared(funcs, invokeIndex, invoke, init) && Tagged(funcs) && MayFail(funcs, failed)
    ensures invokeIndex <= |funcs|
    ensures
      var p := DirectPhase(Tagging(funcs, failed), funcs, invokeIndex, invoke, init);
      && SentTags(funcs, failed, p.sent)
      && DirectTrace(funcs, invokeIndex, failed, |funcs|, [], p.trace)
  {
    PassTags(funcs, invokeIndex, invoke, init, failed, |funcs|, []);
    hide *;
    DirectPhaseIs(Tagging(funcs, failed), funcs, invokeIndex, invoke, init);
  }

  lemma DirectPhaseIs(w: World, funcs: seq<Func>, invokeIndex: nat, invoke: nat, init: Option<nat>)
    requires Prepared(funcs, invokeIndex, invoke, init) && (init.Some? ==> init.value < |funcs|)
    requires Runnable(funcs, InitTags(funcs, init))
    ensures DirectPhase(w, funcs, invokeIndex, invoke, init) ==
              StaticPass(w, funcs, InitTags(funcs, init), |funcs|, [])
  {
  }

  // A static provider that does not get the closest value is called with another.
  lemma StaticShows(funcs: seq<Func>, invokeIndex: nat, invoke: nat, init: Option<nat>, k: nat, t: TypeCode)
    requires Prepared(funcs, invokeIndex, invoke, init) && Tagged(funcs)
    requires invoke < |funcs| && (init.Some? ==> init.value < |funcs|)
    requires k < |funcs| && funcs[k].included && InGroup(funcs[k], Statics) && t in funcs[k].inputs
    requires CodedEarly(funcs, init, k, t) != ClosestEarly(funcs, k, t)
    ensures !SameHistory(Tagging(funcs, None), funcs, invokeIndex, invoke, init, Tour(funcs, invoke, init))
  {
    hide *;
    var w, values := Tagging(funcs, None), Copies(|funcs[invoke].outputs|, invoke);
    NobodyFails(funcs);
    ListFacts(funcs, invokeIndex, invoke, init);
    TourCoded(w, funcs, invokeIndex, invoke, init);
    TourDirect(w, funcs, invokeIndex, invoke, init);
    CodedPhaseShows(funcs, invokeIndex, invoke, init, None);
    DirectPhaseShows(funcs, invokeIndex, invoke, init, None);
    var o := CodedPhase(w, funcs, invokeIndex, invoke, init);
    var p := DirectPhase(w, funcs, invokeIndex, invoke, init);
    ChainStartsToo(funcs, invokeIndex);
    CodedGrows(w, ChainOf(funcs, invokeIndex), 0, Interp.Bind(o.down, funcs[invoke].outputs, values), o.trace);
    ListGrows(w, funcs, invokeIndex, invoke, p.sent, values, 0, map[], p.trace);
    CodedTraceAt(funcs, invokeIndex, init, k, o.trace);
    DirectTraceAt(funcs, invokeIndex, k, p.trace);
    CallsTell(funcs, init, k, t);
    SameHistoryIs(w, funcs, invokeIndex, invoke, init, Tour(funcs, invoke, init));
  }

  lemma NobodyFails(funcs: seq<Func>)
    ensures MayFail(funcs, None) && EndOf(funcs, None) == |funcs|
  {
  }

  lemma ChainStartsToo(funcs: seq<Func>, invokeIndex: nat)
    requires invokeIndex <= |funcs| && RunChain(ChainOf(funcs, invokeIndex))
    ensures 0 < |ChainOf(funcs, invokeIndex)|
  {
  }

  lemma CodedTraceAt(funcs: seq<Func>, invokeIndex: nat, init: Option<nat>, k: nat, tr: Trace)
    requires invokeIndex <= |funcs| && (init.Some? ==> init.value < |funcs|) && MayFail(funcs, None)
    requires CodedTrace(funcs, invokeIndex, init, None, 0, [], tr)
    requires k < |funcs| && funcs[k].included && InGroup(funcs[k], Statics)
    ensures Count(funcs, invokeIndex, k) < |tr| && tr[Count(funcs, invokeIndex, k)] == CodedCall(funcs, init, None, k)
  {
    assert Count(funcs, invokeIndex, 0) == 0;
    hide Count, CodedCall;
    assert IsAt(tr, Count(funcs, invokeIndex, k), CodedCall(funcs, init, None, k));
  }

  lemma DirectTraceAt(funcs: seq<Func>, invokeIndex: nat, k: nat, tr: Trace)
    requires invokeIndex <= |funcs| && MayFail(funcs, None)
    requires DirectTrace(funcs, invokeIndex, None, |funcs|, [], tr)
    requires k < |funcs| && funcs[k].included && InGroup(funcs[k], Statics)
    ensures Count(funcs, invokeIndex, k) < |tr| && tr[Count(funcs, invokeIndex, k)] == DirectCall(funcs, None, k)
  {
    hide DirectCall;
  }

  lemma CallsTell(funcs: seq<Func>, init: Option<nat>, k: nat, t: TypeCode)
    requires k < |funcs| && (init.Some? ==> init.value < |funcs|) && t in funcs[k].inputs
    requires CodedEarly(funcs, init, k, t) != ClosestEarly(funcs, k, t)
    ensures CodedCall(funcs, init, None, k) != DirectCall(funcs, None, k)
  {
    var i :| 0 <= i < |funcs[k].inputs| && funcs[k].inputs[i] == t;
    assert CodedCall(funcs, init, None, k).args[i] != DirectCall(funcs, None, k).args[i];
  }

  lemma SameHistoryIs(w: World, funcs: seq<Func>, invokeIndex: nat, invoke: nat, init: Option<nat>, ops: seq<Op>)
    requires Prepared(funcs, invokeIndex, invoke, init)
    requires invoke < |funcs| && (init.Some? ==> init.value < |funcs|) && OpsOk(funcs, invoke, init, ops)
    requires invokeIndex <= |funcs| && PlanOk(PlanFor(funcs, invokeIndex, invoke, init))
    requires forall op :: op in ops ==> OpOk(PlanFor(funcs, invokeIndex, invoke, init), op)
    requires forall i: nat :: i < |funcs| && funcs[i].kind.Literal? ==> funcs[i].outputs != []
    ensures LivedOk(funcs, init, UNBORN)
    ensures (forall op :: op in ops ==> OneOk(funcs, invoke, init, op))
            && (init.Some? && ops != [] ==> ops[0].InitCall?)
    ensures
      var p := PlanFor(funcs, invokeIndex, invoke, init);
      var past := History(AsCoded, w, p, Shared(false, LiteralFlow(funcs, |funcs|), 0), ops, []);
      var l := LiveAll(w, funcs, invokeIndex, invoke, init, UNBORN, ops);
      SameHistory(w, funcs, invokeIndex, invoke, init, ops) <==> l.results == past.results && l.trace == past.trace
  {
    hide Prepared, PlanOk, History, LiveAll, LiteralFlow, PlanFor;
  }

  // An init function that returns another value than the closest.
  lemma InitShows(funcs: seq<Func>, invokeIndex: nat, invoke: nat, init: Option<nat>, failed: Option<nat>, t: TypeCode)
    requires Prepared(funcs, invokeIndex, invoke, init) && Tagged(funcs) && MayFail(funcs, failed)
    requires invokeIndex <= |funcs| && invoke < |funcs|
    requires init.Some? && init.value < |funcs| && t in funcs[init.value].received
    requires CodedLeft(funcs, invokeIndex, init, failed, t) != ShouldBeLeft(failed, ClosestEarly(funcs, invoke, t))
    ensures !SameHistory(Tagging(funcs, failed), funcs, invokeIndex, invoke, init, Tour(funcs, invoke, init))
  {
    hide *;
    var w := Tagging(funcs, failed);
    ListFacts(funcs, invokeIndex, invoke, init);
    TourCoded(w, funcs, invokeIndex, invoke, init);
    TourDirect(w, funcs, invokeIndex, invoke, init);
    CodedPhaseShows(funcs, invokeIndex, invoke, init, failed);
    DirectPhaseShows(funcs, invokeIndex, invoke, init, failed);
    var o := CodedPhase(w, funcs, invokeIndex, invoke, init);
    var p := DirectPhase(w, funcs, invokeIndex, invoke, init);
    FailedIsOne(funcs, failed);
    BaseTag(funcs, invokeIndex, init, failed, o.down, init.value, t);
    DirectReads(funcs, failed, invoke, p.sent, t);
    TagsTell(failed, CodedLeft(funcs, invokeIndex, init, failed, t),
             ShouldBeLeft(failed, ClosestEarly(funcs, invoke, t)));
    ResultsTell(w, o.down, BoundBefore(funcs, p.sent, invoke), funcs[init.value].received, t);
    SameHistoryIs(w, funcs, invokeIndex, invoke, init, Tour(funcs, invoke, init));
  }

  lemma BaseTag(funcs: seq<Func>, invokeIndex: nat, init: Option<nat>, failed: Option<nat>, base: Flow, k: nat,
                t: TypeCode)
    requires invokeIndex <= |funcs| && MayFail(funcs, failed) && (init.Some? ==> init.value < |funcs|)
    requires k < |funcs| && funcs[k].included && (t in funcs[k].inputs || t in funcs[k].received)
    requires BaseTags(funcs, invokeIndex, init, failed, base)
    ensures Get(Tagging(funcs, failed), base, t) == TagOf(failed, CodedLeft(funcs, invokeIndex, init, failed, t))
  {
    hide CodedLeft;
    assert t in Flows(funcs[k]);
    assert Mentioned(funcs, t);
  }

  lemma ResultsTell(w: World, m: Flow, m': Flow, types: seq<TypeCode>, t: TypeCode)
    requires t in types && Get(w, m, t) != Get(w, m', t)
    ensures GetAll(w, m, types) != GetAll(w, m', types)
  {
    var i :| 0 <= i < |types| && types[i] == t;
    assert GetAll(w, m, types)[i] != GetAll(w, m', types)[i];
  }

  // ------------------------------------------------------------------ What the tour shows of the run phase

  lemma FinalAt(funcs: seq<Func>, invokeIndex: nat, invoke: nat) returns (last: nat)
    requires Phases(funcs, invokeIndex, invoke)
    ensures OneFinal(funcs, last)
  {
    last :| OneFinal(funcs, last);
  }

  // What the two see at the turn of a provider of the run phase.
  lemma RunPhaseShows(funcs: seq<Func>, invokeIndex: nat, invoke: nat, init: Option<nat>, failed: Option<nat>, k: nat)
    returns (base: Flow)
    requires Prepared(funcs, invokeIndex, invoke, init) && Tagged(funcs) && MayFail(funcs, failed)
    requires invokeIndex <= |funcs| && invoke < |funcs| && (init.Some? ==> init.value < |funcs|)
    requires k < |funcs| && PlanOk(PlanFor(funcs, invokeIndex, invoke, init))
    requires forall op :: op in Tour(funcs, invoke, init) ==> OpOk(PlanFor(funcs, invokeIndex, invoke, init), op)
    requires forall i: nat :: i < |funcs| && funcs[i].kind.Literal? ==> funcs[i].outputs != []
    ensures BaseTags(funcs, invokeIndex, init, failed, base)
    ensures
      var w := Tagging(funcs, failed);
      var coded := History(AsCoded, w, PlanFor(funcs, invokeIndex, invoke, init),
                           Shared(false, LiteralFlow(funcs, |funcs|), 0), Tour(funcs, invoke, init), []).trace;
      var at := Count(funcs, invokeIndex, EndOf(funcs, failed)) + Steps(funcs, k);
      TakerAt(funcs, k) ==> at < |coded| && coded[at] == RunCall(funcs, invoke, failed, base, k)
    ensures
      var w := Tagging(funcs, failed);
      var direct := LiveAll(w, funcs, invokeIndex, invoke, init, UNBORN, Tour(funcs, invoke, init)).trace;
      var at := Count(funcs, invokeIndex, EndOf(funcs, failed)) + Steps(funcs, k);
      RunTaker(funcs[k]) && (forall j: nat :: j < k ==> !funcs[j].kind.Final?) ==>
        at < |direct| && direct[at] == ListCall(funcs, failed, k)
  {
    hide *;
    var w, values := Tagging(funcs, failed), Copies(|funcs[invoke].outputs|, invoke);
    ListFacts(funcs, invokeIndex, invoke, init);
    TaggedParts(funcs);
    TourCoded(w, funcs, invokeIndex, invoke, init);
    TourDirect(w, funcs, invokeIndex, invoke, init);
    CodedPhaseShows(funcs, invokeIndex, invoke, init, failed);
    DirectPhaseShows(funcs, invokeIndex, invoke, init, failed);
    var o := CodedPhase(w, funcs, invokeIndex, invoke, init);
    var p := DirectPhase(w, funcs, invokeIndex, invoke, init);
    base := o.down;
    RunTagsStart(funcs, invoke, failed, base);
    ListTagsStart(funcs, failed);
    CollectionStarts(funcs, invokeIndex);
    StepsStart(funcs);
    PhaseLengths(funcs, invokeIndex, init, failed, o.trace, p.trace);
    if TakerAt(funcs, k) {
      CodedReaches(funcs, invokeIndex, invoke, failed, base, 0, k, Interp.Bind(base, funcs[invoke].outputs, values),
                   o.trace);
    }
    if RunTaker(funcs[k]) && forall j: nat :: j < k ==> !funcs[j].kind.Final? {
      ListReaches(funcs, invokeIndex, invoke, failed, p.sent, 0, k, map[], p.trace);
    }
  }

  lemma StepsStart(funcs: seq<Func>)
    ensures Steps(funcs, 0) == 0
  {
  }

  lemma PhaseLengths(funcs: seq<Func>, invokeIndex: nat, init: Option<nat>, failed: Option<nat>, coded: Trace,
                     direct: Trace)
    requires invokeIndex <= |funcs| && (init.Some? ==> init.value < |funcs|) && MayFail(funcs, failed)
    requires CodedTrace(funcs, invokeIndex, init, failed, 0, [], coded)
    requires DirectTrace(funcs, invokeIndex, failed, |funcs|, [], direct)
    ensures |coded| == |direct| == Count(funcs, invokeIndex, EndOf(funcs, failed))
  {
  }

  // A provider of the run phase that does not get the closest value is called with another.
  lemma RunShows(funcs: seq<Func>, invokeIndex: nat, invoke: nat, init: Option<nat>, failed: Option<nat>, k: nat,
                 last: nat, t: TypeCode)
    requires Prepared(funcs, invokeIndex, invoke, init) && Tagged(funcs) && MayFail(funcs, failed)
    requires invokeIndex <= |funcs| && invoke < |funcs| && (init.Some? ==> init.value < |funcs|)
    requires OneFinal(funcs, last) && k <= last && RunTaker(funcs[k]) && t in funcs[k].inputs
    requires forall r: nat :: r < |funcs| && RunTaker(funcs[r]) ==> r <= last
    requires forall base :: BaseTags(funcs, invokeIndex, init, failed, base) ==>
               RunTag(funcs, invoke, failed, base, k, t) != ListTag(funcs, failed, k, t)
    ensures !SameHistory(Tagging(funcs, failed), funcs, invokeIndex, invoke, init, Tour(funcs, invoke, init))
  {
    hide *;
    var w := Tagging(funcs, failed);
    ListFacts(funcs, invokeIndex, invoke, init);
    OpsFit(funcs, invokeIndex, invoke, init, Tour(funcs, invoke, init));
    IsReached(funcs, k, last);
    var base := RunPhaseShows(funcs, invokeIndex, invoke, init, failed, k);
    RunCallsTell(funcs, invoke, failed, base, k, t);
    SameHistoryIs(w, funcs, invokeIndex, invoke, init, Tour(funcs, invoke, init));
  }

  lemma IsReached(funcs: seq<Func>, k: nat, last: nat)
    requires OneFinal(funcs, last) && k <= last && RunTaker(funcs[k])
    requires forall r: nat :: r < |funcs| && RunTaker(funcs[r]) ==> r <= last
    ensures k < |funcs| && TakerAt(funcs, k) && forall j: nat :: j < k ==> !funcs[j].kind.Final?
  {
  }

  lemma RunCallsTell(funcs: seq<Func>, invoke: nat, failed: Option<nat>, base: Flow, k: nat, t: TypeCode)
    requires k < |funcs| && invoke < |funcs| && t in funcs[k].inputs
    requires RunTag(funcs, invoke, failed, base, k, t) != ListTag(funcs, failed, k, t)
    ensures RunCall(funcs, invoke, failed, base, k) != ListCall(funcs, failed, k)
  {
    var i :| 0 <= i < |funcs[k].inputs| && funcs[k].inputs[i] == t;
    assert RunCall(funcs, invoke, failed, base, k).args[i] != ListCall(funcs, failed, k).args[i];
  }

  // A provider of the run phase behind the final function is called all the same.
  lemma BehindShows(funcs: seq<Func>, invokeIndex: nat, invoke: nat, init: Option<nat>, k: nat, last: nat)
    requires Prepared(funcs, invokeIndex, invoke, init) && Tagged(funcs)
    requires invokeIndex <= |funcs| && invoke < |funcs| && (init.Some? ==> init.value < |funcs|)
    requires OneFinal(funcs, last) && last < k < |funcs| && RunTaker(funcs[k])
    requires forall r: nat :: last < r < k ==> !RunTaker(funcs[r])
    ensures !SameHistory(Tagging(funcs, None), funcs, invokeIndex, invoke, init, Tour(funcs, invoke, init))
  {
    hide *;
    var w := Tagging(funcs, None);
    NobodyFails(funcs);
    ListFacts(funcs, invokeIndex, invoke, init);
    TaggedParts(funcs);
    OpsFit(funcs, invokeIndex, invoke, init, Tour(funcs, invoke, init));
    BothTakers(funcs, last, k);
    NoStepsBetween(funcs, last, k);
    var base := RunPhaseShows(funcs, invokeIndex, invoke, init, None, last);
    var base' := RunPhaseShows(funcs, invokeIndex, invoke, init, None, k);
    OthersTell(funcs, invoke, base', k, last);
    SameHistoryIs(w, funcs, invokeIndex, invoke, init, Tour(funcs, invoke, init));
  }

  lemma BothTakers(funcs: seq<Func>, last: nat, k: nat)
    requires OneFinal(funcs, last) && last < k < |funcs| && RunTaker(funcs[k])
    ensures RunTaker(funcs[last]) && TakerAt(funcs, k) && forall j: nat :: j < last ==> !funcs[j].kind.Final?
  {
  }

  lemma {:induction false} NoStepsBetween(funcs: seq<Func>, last: nat, k: nat)
    requires OneFinal(funcs, last) && last < k <= |funcs|
    requires forall r: nat :: last < r < k ==> !RunTaker(funcs[r])
    ensures Steps(funcs, k) == Steps(funcs, last)
  {
    if last + 1 < k {
      NoStepsBetween(funcs, last, k - 1);
      assert !RunTaker(funcs[k - 1]);
    }
  }

  lemma OthersTell(funcs: seq<Func>, invoke: nat, base: Flow, k: nat, last: nat)
    requires DistinctIds(funcs) && last < k < |funcs| && invoke < |funcs|
    ensures RunCall(funcs, invoke, None, base, k) != ListCall(funcs, None, last)
  {
  }

  // Where the tags come from.
  lemma SourcesTell(funcs: seq<Func>, invokeIndex: nat, invoke: nat, init: Option<nat>, failed: Option<nat>, k: nat,
                    t: TypeCode)
    requires invokeIndex <= |funcs| && invoke < |funcs| && (init.Some? ==> init.value < |funcs|)
    requires MayFail(funcs, failed) && k < |funcs| && funcs[k].included && t in funcs[k].inputs
    requires funcs[invoke].kind.Invoke?
    requires RunMisses(funcs, invokeIndex, invoke, init, failed, k, t)
    ensures forall base :: BaseTags(funcs, invokeIndex, init, failed, base) ==>
              RunTag(funcs, invoke, failed, base, k, t) != ListTag(funcs, failed, k, t)
  {
    forall base | BaseTags(funcs, invokeIndex, init, failed, base)
      ensures RunTag(funcs, invoke, failed, base, k, t) != ListTag(funcs, failed, k, t)
    {
      BaseTag(funcs, invokeIndex, init, failed, base, k, t);
      hide BaseTags;
    }
  }

  // Somebody does not get the closest value: then the tour differs, in some world.
  lemma SomeTourDiffers(funcs: seq<Func>, invokeIndex: nat, invoke: nat, init: Option<nat>) returns (w: World)
    requires Prepared(funcs, invokeIndex, invoke, init) && Tagged(funcs)
    requires invokeIndex <= |funcs| && invoke < |funcs| && (init.Some? ==> init.value < |funcs|)
    requires !ClosestWins(funcs, invokeIndex, invoke, init)
    ensures !SameHistory(w, funcs, invokeIndex, invoke, init, Tour(funcs, invoke, init))
    ensures SingleCalls(w, ChainOf(funcs, invokeIndex))
  {
    hide *;
    ListFacts(funcs, invokeIndex, invoke, init);
    PhasesAre(funcs, invokeIndex, invoke);
    var last := FinalAt(funcs, invokeIndex, invoke);
    if k: nat, t :| StaticMisses(funcs, init, k, t) {
      StaticMissesIs(funcs, init, k, t);
      StaticShows(funcs, invokeIndex, invoke, init, k, t);
      w := Tagging(funcs, None);
    } else if t, failed :| InitMisses(funcs, invokeIndex, invoke, init, failed, t) {
      InitMissesIs(funcs, invokeIndex, invoke, init, failed, t);
      InitShows(funcs, invokeIndex, invoke, init, failed, t);
      w := Tagging(funcs, failed);
    } else if k: nat :| TakesBehind(funcs, last, k) {
      var r := FirstBehind(funcs, last, k);
      BehindShows(funcs, invokeIndex, invoke, init, r, last);
      w := Tagging(funcs, None);
    } else {
      var k: nat, t, failed := SomebodyMisses(funcs, invokeIndex, invoke, init, last);
      SourcesTell(funcs, invokeIndex, invoke, init, failed, k, t);
      RunShows(funcs, invokeIndex, invoke, init, failed, k, last, t);
      w := Tagging(funcs, failed);
    }
    forall failed ensures SingleCalls(Tagging(funcs, failed), ChainOf(funcs, invokeIndex)) {
      TaggingIsSingle(funcs, failed, ChainOf(funcs, invokeIndex));
    }
  }

  lemma TaggingIsSingle(funcs: seq<Func>, failed: Option<nat>, chain: seq<Func>)
    ensures SingleCalls(Tagging(funcs, failed), chain)
  {
  }

  ghost predicate StaticMisses(funcs: seq<Func>, init: Option<nat>, k: nat, t: TypeCode)
    requires init.Some? ==> init.value < |funcs|
  {
    && k < |funcs| && funcs[k].included && InGroup(funcs[k], Statics) && t in funcs[k].inputs
    && CodedEarly(funcs, init, k, t) != ClosestEarly(funcs, k, t)
  }

  lemma StaticMissesIs(funcs: seq<Func>, init: Option<nat>, k: nat, t: TypeCode)
    requires (init.Some? ==> init.value < |funcs|) && StaticMisses(funcs, init, k, t)
    ensures k < |funcs| && funcs[k].included && InGroup(funcs[k], Statics) && t in funcs[k].inputs
    ensures CodedEarly(funcs, init, k, t) != ClosestEarly(funcs, k, t)
  {
  }

  ghost predicate InitMisses(funcs: seq<Func>, invokeIndex: nat, invoke: nat, init: Option<nat>, failed: Option<nat>,
                             t: TypeCode)
    requires invokeIndex <= |funcs| && invoke < |funcs| && (init.Some? ==> init.value < |funcs|)
  {
    && MayFail(funcs, failed) && init.Some? && t in funcs[init.value].received
    && CodedLeft(funcs, invokeIndex, init, failed, t) != ShouldBeLeft(failed, ClosestEarly(funcs, invoke, t))
  }

  lemma InitMissesIs(funcs: seq<Func>, invokeIndex: nat, invoke: nat, init: Option<nat>, failed: Option<nat>,
                     t: TypeCode)
    requires invokeIndex <= |funcs| && invoke < |funcs| && (init.Some? ==> init.value < |funcs|)
    requires InitMisses(funcs, invokeIndex, invoke, init, failed, t)
    ensures MayFail(funcs, failed) && (failed.Some? ==> failed.value < |funcs|)
    ensures init.Some? && t in funcs[init.value].received
    ensures CodedLeft(funcs, invokeIndex, init, failed, t) != ShouldBeLeft(failed, ClosestEarly(funcs, invoke, t))
  {
  }

  ghost predicate TakesBehind(funcs: seq<Func>, last: nat, k: nat) {
    last < k < |funcs| && RunTaker(funcs[k])
  }

  lemma {:induction false} FirstBehind(funcs: seq<Func>, last: nat, k: nat) returns (r: nat)
    requires TakesBehind(funcs, last, k)
    ensures last < r < |funcs| && RunTaker(funcs[r]) && forall i: nat :: last < i < r ==> !RunTaker(funcs[i])
  {
    r := last + 1;
    while !RunTaker(funcs[r])
      decreases k - r
      invariant last < r <= k && forall i: nat :: last < i < r ==> !RunTaker(funcs[i])
    {
      r := r + 1;
    }
  }

  lemma SomebodyMisses(funcs: seq<Func>, invokeIndex: nat, invoke: nat, init: Option<nat>, last: nat)
    returns (k: nat, t: TypeCode, failed: Option<nat>)
    requires invokeIndex <= |funcs| && invoke < |funcs| && (init.Some? ==> init.value < |funcs|)
    requires OneFinal(funcs, last) && !ClosestWins(funcs, invokeIndex, invoke, init)
    requires forall k: nat, t :: !StaticMisses(funcs, init, k, t)
    requires forall t, failed :: !InitMisses(funcs, invokeIndex, invoke, init, failed, t)
    requires forall k: nat :: !TakesBehind(funcs, last, k)
    ensures k < |funcs| && RunTaker(funcs[k]) && t in funcs[k].inputs && MayFail(funcs, failed)
    ensures k <= last && funcs[k].included && forall r: nat :: r < |funcs| && RunTaker(funcs[r]) ==> r <= last
    ensures RunMisses(funcs, invokeIndex, invoke, init, failed, k, t)
  {
    hide CodedEarly, ClosestEarly, CodedLeft, CodedRun, Closest, RunTaker, RunGetsClosest, LeftFrom;
    forall k: nat, t | k < |funcs| && funcs[k].included && InGroup(funcs[k], Statics) && t in funcs[k].inputs
      ensures CodedEarly(funcs, init, k, t) == ClosestEarly(funcs, k, t)
    {
      assert !StaticMisses(funcs, init, k, t);
    }
    forall t | init.Some? && t in funcs[init.value].received
      ensures LeftFrom(funcs, invokeIndex, init, t, ClosestEarly(funcs, invoke, t))
    {
      NoInitMisses(funcs, invokeIndex, invoke, init, t);
    }
    forall k: nat | k < |funcs| && RunTaker(funcs[k]) ensures k <= last {
      assert !TakesBehind(funcs, last, k);
    }
    k, t :| k < |funcs| && RunTaker(funcs[k]) && t in funcs[k].inputs
            && !RunGetsClosest(funcs, invokeIndex, invoke, init, k, t);
    failed := WhoFails(funcs, invokeIndex, invoke, init, k, t);
    TakerIs(funcs[k]);
  }

  lemma NoInitMisses(funcs: seq<Func>, invokeIndex: nat, invoke: nat, init: Option<nat>, t: TypeCode)
    requires invokeIndex <= |funcs| && invoke < |funcs| && init.Some? && init.value < |funcs|
    requires t in funcs[init.value].received
    requires forall failed :: !InitMisses(funcs, invokeIndex, invoke, init, failed, t)
    ensures LeftFrom(funcs, invokeIndex, init, t, ClosestEarly(funcs, invoke, t))
  {
    hide CodedLeft, ClosestEarly;
    forall failed | MayFail(funcs, failed)
      ensures CodedLeft(funcs, invokeIndex, init, failed, t) == ShouldBeLeft(failed, ClosestEarly(funcs, invoke, t))
    {
      assert !InitMisses(funcs, invokeIndex, invoke, init, failed, t);
    }
  }

  lemma WhoFails(funcs: seq<Func>, invokeIndex: nat, invoke: nat, init: Option<nat>, k: nat, t: TypeCode)
    returns (failed: Option<nat>)
    requires invokeIndex <= |funcs| && invoke < |funcs| && (init.Some? ==> init.value < |funcs|) && k < |funcs|
    requires !RunGetsClosest(funcs, invokeIndex, invoke, init, k, t)
    ensures MayFail(funcs, failed) && (failed.Some? ==> failed.value < |funcs|)
    ensures RunMisses(funcs, invokeIndex, invoke, init, failed, k, t)
  {
    hide CodedLeft, CodedRun;
    var closest := Closest(funcs, k, t);
    if CodedRun(funcs, invoke, init, k, t) != closest {
      failed := None;
    } else {
      failed :| MayFail(funcs, failed) && (failed.Some? ==> failed.value < |funcs|)
                && CodedLeft(funcs, invokeIndex, init, failed, t) != ShouldBeLeft(failed, closest);
    }
  }

  ghost predicate RunMisses(funcs: seq<Func>, invokeIndex: nat, invoke: nat, init: Option<nat>, failed: Option<nat>,
                            k: nat, t: TypeCode)
    requires invokeIndex <= |funcs| && invoke < |funcs| && (init.Some? ==> init.value < |funcs|)
    requires MayFail(funcs, failed) && k < |funcs|
  {
    var closest := Closest(funcs, k, t);
    || (failed.None? && CodedRun(funcs, invoke, init, k, t) != closest)
    || (CodedRun(funcs, invoke, init, k, t) == closest && (closest.None? || Early(funcs[closest.value]))
        && CodedLeft(funcs, invokeIndex, init, failed, t) != ShouldBeLeft(failed, closest))
  }

  // ------------------------------------------------------------------ For all values of the literals

  // The list with other values for its literals.
  function WithValues(funcs: seq<Func>, values: seq<Value>): (r: seq<Func>)
    requires |values| == |funcs|
    ensures |r| == |funcs|
  {
    seq(|funcs|, i requires 0 <= i < |funcs| =>
                   if funcs[i].kind.Literal? then funcs[i].(kind := Literal(values[i])) else funcs[i])
  }

  // Nothing is different but the values of literals.
  predicate Alike(f: Func, g: Func) {
    f.(kind := g.kind) == g && (f.kind == g.kind || (f.kind.Literal? && g.kind.Literal?))
  }

  predicate AllAlike(funcs: seq<Func>, gs: seq<Func>) {
    |funcs| == |gs| && forall i: nat :: i < |funcs| ==> Alike(funcs[i], gs[i])
  }

  lemma {:induction false} LatestAlike(funcs: seq<Func>, gs: seq<Func>, n: nat, t: TypeCode, s: Sort)
    requires AllAlike(funcs, gs) && n <= |funcs|
    ensures Latest(funcs, n, t, s) == Latest(gs, n, t, s)
  {
    if n > 0 {
      LatestAlike(funcs, gs, n - 1, t, s);
      assert Alike(funcs[n - 1], gs[n - 1]);
    }
  }

  lemma SourcesAlike(funcs: seq<Func>, gs: seq<Func>, init: Option<nat>, n: nat, t: TypeCode)
    requires AllAlike(funcs, gs) && n <= |funcs| && (init.Some? ==> init.value < |funcs|)
    ensures CodedEarly(funcs, init, n, t) == CodedEarly(gs, init, n, t)
    ensures Closest(funcs, n, t) == Closest(gs, n, t) && ClosestEarly(funcs, n, t) == ClosestEarly(gs, n, t)
  {
    LatestAlike(funcs, gs, n, t, StaticOnes);
    LatestAlike(funcs, gs, |funcs|, t, LiteralOnes);
    LatestAlike(funcs, gs, n, t, Anybody);
    hide Latest;
    if init.Some? {
      assert Alike(funcs[init.value], gs[init.value]);
    }
    var r := Latest(funcs, n, t, Anybody);
    if r.Some? {
      assert Alike(funcs[r.value], gs[r.value]);
    }
  }

  lemma LeftAlike(funcs: seq<Func>, gs: seq<Func>, invokeIndex: nat, init: Option<nat>, t: TypeCode, j: Option<nat>)
    requires AllAlike(funcs, gs) && invokeIndex <= |funcs| && (init.Some? ==> init.value < |funcs|)
    requires LeftFrom(funcs, invokeIndex, init, t, j)
    ensures LeftFrom(gs, invokeIndex, init, t, j)
  {
    hide CodedEarly;
    forall failed: Option<nat> | MayFail(gs, failed)
      ensures CodedLeft(gs, invokeIndex, init, failed, t) == ShouldBeLeft(failed, j)
    {
      SourcesAlike(funcs, gs, init, |funcs|, t);
      if failed.Some? {
        assert Alike(funcs[failed.value], gs[failed.value]);
        SourcesAlike(funcs, gs, init, failed.value + 1, t);
        SentAlike(funcs, gs, failed.value + 1, invokeIndex, t);
      }
      assert MayFail(funcs, failed);
    }
  }

  lemma SentAlike(funcs: seq<Func>, gs: seq<Func>, lo: nat, hi: nat, t: TypeCode)
    requires AllAlike(funcs, gs) && hi <= |funcs|
    ensures SentBetween(funcs, lo, hi, t) == SentBetween(gs, lo, hi, t)
  {
    if SentBetween(funcs, lo, hi, t) {
      var i: nat :| lo <= i < hi && t in funcs[i].outputs;
      assert Alike(funcs[i], gs[i]);
    }
    if SentBetween(gs, lo, hi, t) {
      var i: nat :| lo <= i < hi && t in gs[i].outputs;
      assert Alike(funcs[i], gs[i]);
    }
  }

  lemma WinsAlike(funcs: seq<Func>, gs: seq<Func>, invokeIndex: nat, invoke: nat, init: Option<nat>)
    requires AllAlike(funcs, gs)
    requires invokeIndex <= |funcs| && invoke < |funcs| && (init.Some? ==> init.value < |funcs|)
    requires ClosestWins(funcs, invokeIndex, invoke, init)
    ensures ClosestWins(gs, invokeIndex, invoke, init)
  {
    hide CodedEarly, ClosestEarly, LeftFrom, Closest, CodedRun;
    forall k: nat, t | k < |gs| && gs[k].included && InGroup(gs[k], Statics) && t in gs[k].inputs
      ensures CodedEarly(gs, init, k, t) == ClosestEarly(gs, k, t)
    {
      assert Alike(funcs[k], gs[k]);
      SourcesAlike(funcs, gs, init, k, t);
    }
    forall t | init.Some? && t in gs[init.value].received
      ensures LeftFrom(gs, invokeIndex, init, t, ClosestEarly(gs, invoke, t))
    {
      assert Alike(funcs[init.value], gs[init.value]);
      SourcesAlike(funcs, gs, init, invoke, t);
      LeftAlike(funcs, gs, invokeIndex, init, t, ClosestEarly(gs, invoke, t));
    }
    forall k: nat, t | k < |gs| && RunTaker(gs[k]) && t in gs[k].inputs
      ensures RunGetsClosest(gs, invokeIndex, invoke, init, k, t)
    {
      assert Alike(funcs[k], gs[k]);
      RunGetsAlike(funcs, gs, invokeIndex, invoke, init, k, t);
    }
    forall k: nat, last: nat | k < |gs| && last < |gs| && RunTaker(gs[k]) && gs[last].kind.Final?
      ensures k <= last
    {
      assert Alike(funcs[k], gs[k]) && Alike(funcs[last], gs[last]);
    }
  }

  lemma RunGetsAlike(funcs: seq<Func>, gs: seq<Func>, invokeIndex: nat, invoke: nat, init: Option<nat>, k: nat,
                     t: TypeCode)
    requires AllAlike(funcs, gs) && k < |funcs|
    requires invokeIndex <= |funcs| && invoke < |funcs| && (init.Some? ==> init.value < |funcs|)
    requires RunGetsClosest(funcs, invokeIndex, invoke, init, k, t)
    ensures RunGetsClosest(gs, invokeIndex, invoke, init, k, t)
  {
    hide CodedEarly, LeftFrom, Closest;
    assert Alike(funcs[invoke], gs[invoke]);
    SourcesAlike(funcs, gs, init, k, t);
    SourcesAlike(funcs, gs, init, |funcs|, t);
    LatestAlike(funcs, gs, k, t, RunOnes);
    var closest := Closest(gs, k, t);
    ClosestIs(funcs, k, t);
    if closest.Some? {
      assert Alike(funcs[closest.value], gs[closest.value]);
    }
    if closest.None? || Early(gs[closest.value]) {
      LeftAlike(funcs, gs, invokeIndex, init, t, closest);
    }
  }

  lemma ClosestIs(funcs: seq<Func>, n: nat, t: TypeCode)
    requires n <= |funcs|
    ensures Closest(funcs, n, t).Some? ==> Closest(funcs, n, t).value < n
  {
  }

  lemma PreparedAlike(funcs: seq<Func>, gs: seq<Func>, invokeIndex: nat, invoke: nat, init: Option<nat>)
    requires AllAlike(funcs, gs) && Prepared(funcs, invokeIndex, invoke, init)
    ensures Prepared(gs, invokeIndex, invoke, init)
  {
    hide StaticPhase, RunPhase;
    assert Alike(funcs[invoke], gs[invoke]);
    forall i: nat | i < |gs| && i != invoke ensures StaticPhase(gs[i]) || RunPhase(gs[i]) {
      assert Alike(funcs[i], gs[i]);
      PhaseAlike(funcs[i], gs[i]);
    }
    var last := FinalAt(funcs, invokeIndex, invoke);
    FinalAlike(funcs, gs, last);
    forall i: nat | i < |gs| && gs[i].kind.Init? ensures init == Some(i) {
      assert Alike(funcs[i], gs[i]);
    }
    if init.Some? {
      assert Alike(funcs[init.value], gs[init.value]);
    }
  }

  lemma PhaseAlike(f: Func, g: Func)
    requires Alike(f, g) && (StaticPhase(f) || RunPhase(f))
    ensures StaticPhase(g) || RunPhase(g)
  {
  }

  lemma FinalAlike(funcs: seq<Func>, gs: seq<Func>, last: nat)
    requires AllAlike(funcs, gs) && OneFinal(funcs, last)
    ensures OneFinal(gs, last)
  {
    assert Alike(funcs[last], gs[last]);
    forall i: nat | i < |gs| && gs[i].kind.Final? ensures i == last {
      assert Alike(funcs[i], gs[i]);
    }
  }

  lemma ValuesAreAlike(funcs: seq<Func>, values: seq<Value>)
    requires |values| == |funcs|
    ensures AllAlike(funcs, WithValues(funcs, values)) && AllAlike(WithValues(funcs, values), funcs)
  {
  }

  // Every history that starts with the init function, if there is one, and in which wrappers not marked Parallel
  // make at most one inner call, goes as the order of the list says.
  ghost predicate RunsInOrder(funcs: seq<Func>, invokeIndex: nat, invoke: nat, init: Option<nat>)
    requires Prepared(funcs, invokeIndex, invoke, init)
    requires invokeIndex <= |funcs| && invoke < |funcs| && (init.Some? ==> init.value < |funcs|)
  {
    forall w, ops :: OpsOk(funcs, invoke, init, ops) && SingleCalls(w, ChainOf(funcs, invokeIndex)) ==>
      SameHistory(w, funcs, invokeIndex, invoke, init, ops)
  }

  lemma InOrderIfClosest(funcs: seq<Func>, invokeIndex: nat, invoke: nat, init: Option<nat>)
    requires Prepared(funcs, invokeIndex, invoke, init)
    requires invokeIndex <= |funcs| && invoke < |funcs| && (init.Some? ==> init.value < |funcs|)
    requires ClosestWins(funcs, invokeIndex, invoke, init)
    ensures RunsInOrder(funcs, invokeIndex, invoke, init)
  {
    hide *;
    ListFacts(funcs, invokeIndex, invoke, init);
    forall w, ops | OpsOk(funcs, invoke, init, ops) && SingleCalls(w, ChainOf(funcs, invokeIndex))
      ensures SameHistory(w, funcs, invokeIndex, invoke, init, ops)
    {
      OpsFit(funcs, invokeIndex, invoke, init, ops);
      var s := Shared(false, LiteralFlow(funcs, |funcs|), 0);
      Unborn(w, funcs, invokeIndex, init);
      HistoryIsDirect(w, funcs, invokeIndex, invoke, init, s, UNBORN, ops);
      SameHistoryIs(w, funcs, invokeIndex, invoke, init, ops);
      NoResultsYet(History(AsCoded, w, PlanFor(funcs, invokeIndex, invoke, init), s, ops, []).results);
    }
    AllInOrder(funcs, invokeIndex, invoke, init);
  }

  lemma NoResultsYet(results: seq<seq<Value>>)
    ensures UNBORN.results + results == results && UNBORN.trace == [] && UNBORN.sent.None?
  {
  }

  lemma Unborn(w: World, funcs: seq<Func>, invokeIndex: nat, init: Option<nat>)
    requires invokeIndex <= |funcs| && (init.Some? ==> init.value < |funcs|)
    requires forall i: nat :: i < |funcs| && funcs[i].kind.Literal? ==> funcs[i].outputs != []
    ensures SameLife(w, funcs, invokeIndex, init, Shared(false, LiteralFlow(funcs, |funcs|), 0), UNBORN)
  {
  }

  lemma AllInOrder(funcs: seq<Func>, invokeIndex: nat, invoke: nat, init: Option<nat>)
    requires Prepared(funcs, invokeIndex, invoke, init)
    requires invokeIndex <= |funcs| && invoke < |funcs| && (init.Some? ==> init.value < |funcs|)
    requires forall w, ops :: OpsOk(funcs, invoke, init, ops) && SingleCalls(w, ChainOf(funcs, invokeIndex)) ==>
               SameHistory(w, funcs, invokeIndex, invoke, init, ops)
    ensures RunsInOrder(funcs, invokeIndex, invoke, init)
  {
  }

  lemma NotInOrder(w: World, funcs: seq<Func>, invokeIndex: nat, invoke: nat, init: Option<nat>, ops: seq<Op>)
    requires Prepared(funcs, invokeIndex, invoke, init)
    requires invokeIndex <= |funcs| && invoke < |funcs| && (init.Some? ==> init.value < |funcs|)
    requires OpsOk(funcs, invoke, init, ops) && SingleCalls(w, ChainOf(funcs, invokeIndex))
    requires !SameHistory(w, funcs, invokeIndex, invoke, init, ops)
    ensures !RunsInOrder(funcs, invokeIndex, invoke, init)
  {
  }

  // Whatever the literals and whatever the functions do, a bound list does what its order says: exactly if
  // everybody gets what it takes from the closest entry.
  lemma DirectExactlyIf(funcs: seq<Func>, invokeIndex: nat, invoke: nat, init: Option<nat>)
    requires Prepared(funcs, invokeIndex, invoke, init) && DistinctIds(funcs)
    ensures invokeIndex <= |funcs| && invoke < |funcs| && (init.Some? ==> init.value < |funcs|)
    ensures forall values: seq<Value> :: |values| == |funcs| ==>
              Prepared(WithValues(funcs, values), invokeIndex, invoke, init)
    ensures
      (forall values: seq<Value> :: |values| == |funcs| ==>
         RunsInOrder(WithValues(funcs, values), invokeIndex, invoke, init))
      <==> ClosestWins(funcs, invokeIndex, invoke, init)
  {
    hide *;
    ListFacts(funcs, invokeIndex, invoke, init);
    forall values: seq<Value> | |values| == |funcs|
      ensures Prepared(WithValues(funcs, values), invokeIndex, invoke, init)
      ensures ClosestWins(funcs, invokeIndex, invoke, init) ==>
                RunsInOrder(WithValues(funcs, values), invokeIndex, invoke, init)
    {
      var gs := WithValues(funcs, values);
      ValuesAreAlike(funcs, values);
      PreparedAlike(funcs, gs, invokeIndex, invoke, init);
      if ClosestWins(funcs, invokeIndex, invoke, init) {
        WinsAlike(funcs, gs, invokeIndex, invoke, init);
        InOrderIfClosest(gs, invokeIndex, invoke, init);
      }
    }
    if !ClosestWins(funcs, invokeIndex, invoke, init) {
      var values: seq<Value> := seq(|funcs|, i => i);
      var gs := WithValues(funcs, values);
      ValuesAreAlike(funcs, values);
      PositionsAreTags(funcs, values);
      if ClosestWins(gs, invokeIndex, invoke, init) {
        WinsAlike(gs, funcs, invokeIndex, invoke, init);
        assert false;
      }
      var w := SomeTourDiffers(gs, invokeIndex, invoke, init);
      NotInOrder(w, gs, invokeIndex, invoke, init, Tour(gs, invoke, init));
    }
  }

  lemma PositionsAreTags(funcs: seq<Func>, values: seq<Value>)
    requires |values| == |funcs| && DistinctIds(funcs) && forall i :: 0 <= i < |values| ==> values[i] == i
    ensures Tagged(WithValues(funcs, values))
  {
  }
}
