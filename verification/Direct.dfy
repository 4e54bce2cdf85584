/**
 What a list of providers is to do, without any code: each included entry binds what it sends at its own place
 in the list, and takes what has been bound closest before it.  Where the code gets its values from instead.
 */
module Direct {
  import opened Basics
  import opened Interp
  import opened Slots
  import opened Binding
  import opened Binder
  import opened Supply

  // Entries whose values are there before the invoke function is called.
  predicate Early(f: Func) {
    f.kind.Literal? || f.kind.Init? || f.kind.StaticInjector? || f.kind.StaticFallible?
  }

  // ------------------------------------------------------------------ The direct interpreter

  // What the inputs of the init function are, and what is known of the entries, for the static phase.
  ghost predicate Runnable(funcs: seq<Func>, initInputs: seq<Value>) {
    forall i: nat :: i < |funcs| ==>
      && (funcs[i].kind.Literal? ==> |funcs[i].outputs| == 1)
      && (funcs[i].kind.Init? ==> |initInputs| == |funcs[i].outputs|)
      && (InGroup(funcs[i], Statics) ==> IsStatic(funcs[i]))
  }

  // What has been bound when an entry of the static phase at position 'n' gets its turn, given what each
  // entry of that phase has bound.  What entries of the run phase send is not there yet.
  ghost function BoundBefore(funcs: seq<Func>, sent: seq<Flow>, n: nat): Flow
    requires n <= |funcs| && n <= |sent|
  {
    if n == 0 then map[]
    else
      var f, before := funcs[n - 1], BoundBefore(funcs, sent, n - 1);
      if !f.included then before
      else if Early(f) then before + sent[n - 1]
      else before - set t | t in f.outputs
  }

  // The static phase up to position 'n': what each entry has bound, whether one has failed, and the calls.
  datatype Pass = Pass(sent: seq<Flow>, failed: bool, trace: Trace)

  ghost function StaticPass(w: World, funcs: seq<Func>, initInputs: seq<Value>, n: nat, tr: Trace): (p: Pass)
    requires n <= |funcs| && Runnable(funcs, initInputs)
    ensures |p.sent| == n
  {
    if n == 0 then Pass([], false, tr)
    else
      var p, f := StaticPass(w, funcs, initInputs, n - 1, tr), funcs[n - 1];
      if !f.included || !Early(f) then p.(sent := p.sent + [map[]])
      else if p.failed then p.(sent := p.sent + [Interp.Bind(map[], f.outputs, GetAll(w, map[], f.outputs))])
      else if f.kind.Literal? then p.(sent := p.sent + [map[f.outputs[0] := f.kind.value]])
      else if f.kind.Init? then p.(sent := p.sent + [Interp.Bind(map[], f.outputs, initInputs)])
      else
        var tr1 := p.trace + [Call(f.id, GetAll(w, BoundBefore(funcs, p.sent, n - 1), f.inputs))];
        Pass(p.sent + [Interp.Bind(map[], f.outputs, Results(w, f.id, tr1, |f.outputs|))], StaticFails(w, f, tr1), tr1)
  }

  // The run phase from position 'n' on: entries of the static phase bind what they have sent, the invoke
  // function binds its inputs.
  ghost function RunList(w: World, funcs: seq<Func>, invokeIndex: nat, invoke: nat, sent: seq<Flow>, inputs: seq<Value>,
                       n: nat, down: Flow, tr: Trace): Outcome
    requires Phases(funcs, invokeIndex, invoke) && |sent| == |funcs| && |inputs| == |funcs[invoke].outputs|
    requires n <= |funcs|
    decreases |funcs| - n, 1, 0
  {
    if n == |funcs| then Outcome(map[], tr)
    else
      var f := funcs[n];
      if n == invoke then
        RunList(w, funcs, invokeIndex, invoke, sent, inputs, n + 1, Interp.Bind(down, f.outputs, inputs), tr)
      else if !f.included then
        RunList(w, funcs, invokeIndex, invoke, sent, inputs, n + 1, down, tr)
      else if Early(f) then
        RunList(w, funcs, invokeIndex, invoke, sent, inputs, n + 1, down + sent[n], tr)
      else
        var tr1 := tr + [Call(f.id, GetAll(w, down, f.inputs))];
        if f.kind.Final? then
          Outcome(Interp.Bind(map[], f.returned, Results(w, f.id, tr1, |f.returned|)), tr1)
        else if f.kind.Wrapper? then
          var calls := InnerList(w, funcs, invokeIndex, invoke, sent, inputs, n, down, Calls(0, map[], map[], tr1),
                                  w.maxCalls(f.id, tr1));
          Outcome(Above(f, calls, Results(w, f.id, calls.trace, |f.returned|)), calls.trace)
        else if Fails(w, f, tr1) then
          Outcome(map[ERROR := TheError(w, f, tr1)], tr1)
        else
          RunList(w, funcs, invokeIndex, invoke, sent, inputs, n + 1, Interp.Bind(down, f.outputs, Sent(w, f, tr1)),
                  tr1)
  }

  // What is seen upstream of a wrapper: what it returns, over what the last inner call sent up, if anything
  // may pass it.
  function Above(f: Func, calls: Calls, values: seq<Value>): Flow
    requires f.kind.Wrapper? && |values| == |f.returned|
  {
    Interp.Bind(if calls.count == 0 || f.kind.parallel then map[] else calls.last, f.returned, values)
  }

  ghost function InnerList(w: World, funcs: seq<Func>, invokeIndex: nat, invoke: nat, sent: seq<Flow>,
                            inputs: seq<Value>, n: nat, down: Flow, calls: Calls, left: nat): Calls
    requires Phases(funcs, invokeIndex, invoke) && |sent| == |funcs| && |inputs| == |funcs[invoke].outputs|
    requires n < |funcs|
    decreases |funcs| - n, 0, left
  {
    var f := funcs[n];
    if left == 0 || !w.wants(f.id, calls.trace) then calls
    else
      InnerList(w, funcs, invokeIndex, invoke, sent, inputs, n, down,
                 OneCallOn(w, funcs, invokeIndex, invoke, sent, inputs, n, down, calls), left - 1)
  }

  ghost function OneCallOn(w: World, funcs: seq<Func>, invokeIndex: nat, invoke: nat, sent: seq<Flow>,
                           inputs: seq<Value>, n: nat, down: Flow, calls: Calls): Calls
    requires Phases(funcs, invokeIndex, invoke) && |sent| == |funcs| && |inputs| == |funcs[invoke].outputs|
    requires n < |funcs|
    decreases |funcs| - n - 1, 2, 0
  {
    var f := funcs[n];
    var args := InnerArgs(w, f.id, calls.trace, |f.outputs|);
    var o := RunList(w, funcs, invokeIndex, invoke, sent, inputs, n + 1, Interp.Bind(down, f.outputs, args),
                   calls.trace + [Inner(f.id, args)]);
    Calls(calls.count + 1, o.up, o.up, o.trace + [Back(f.id, GetAll(w, o.up, f.received))])
  }

  // Any sequence of calls of the two functions, the init function first if there is one.
  ghost predicate OpsOk(funcs: seq<Func>, invoke: nat, init: Option<nat>, ops: seq<Op>)
    requires invoke < |funcs| && (init.Some? ==> init.value < |funcs|)
  {
    && (init.Some? && ops != [] ==> ops[0].InitCall?)
    && forall op :: op in ops ==> OneOk(funcs, invoke, init, op)
  }

  ghost predicate OneOk(funcs: seq<Func>, invoke: nat, init: Option<nat>, op: Op)
    requires invoke < |funcs| && (init.Some? ==> init.value < |funcs|)
  {
    match op
    case InitCall(inputs) => init.Some? && |inputs| == |funcs[init.value].outputs|
    case InvokeCall(inputs) => |inputs| == |funcs[invoke].outputs|
  }

  // What the entries of the static phase have bound, once that has run; the results of the calls so far, and
  // everything that has happened.
  datatype Lived = Lived(sent: Option<seq<Flow>>, results: seq<seq<Value>>, trace: Trace)

  ghost predicate LivedOk(funcs: seq<Func>, init: Option<nat>, l: Lived) {
    l.sent.Some? ==> |l.sent.value| == |funcs|
  }

  ghost function Live(w: World, funcs: seq<Func>, invokeIndex: nat, invoke: nat, init: Option<nat>, l: Lived, op: Op)
    : (l': Lived)
    requires Prepared(funcs, invokeIndex, invoke, init) && OneOk(funcs, invoke, init, op)
    requires LivedOk(funcs, init, l) && (init.Some? && op.InvokeCall? ==> l.sent.Some?)
    ensures LivedOk(funcs, init, l') && l'.sent.Some?
  {
    match op
    case InitCall(inputs) =>
      PreparedRuns(funcs, invokeIndex, invoke, init, inputs);
      var pass := StaticPass(w, funcs, inputs, |funcs|, l.trace);
      var (sent, tr) := if l.sent.Some? then (l.sent.value, l.trace) else (pass.sent, pass.trace);
      Lived(Some(sent), l.results + [GetAll(w, BoundBefore(funcs, sent, invoke), funcs[init.value].received)], tr)
    case InvokeCall(inputs) =>
      PreparedRuns(funcs, invokeIndex, invoke, init, []);
      var (sent, tr) :=
        if l.sent.Some? then (l.sent.value, l.trace)
        else var pass := StaticPass(w, funcs, [], |funcs|, l.trace); (pass.sent, pass.trace);
      var o := RunList(w, funcs, invokeIndex, invoke, sent, inputs, 0, map[], tr);
      Lived(Some(sent), l.results + [GetAll(w, o.up, funcs[invoke].received)], o.trace)
  }

  lemma PreparedRuns(funcs: seq<Func>, invokeIndex: nat, invoke: nat, init: Option<nat>, initInputs: seq<Value>)
    requires Prepared(funcs, invokeIndex, invoke, init)
    requires init.Some? ==> |initInputs| == |funcs[init.value].outputs| || initInputs == []
    ensures (init.Some? ==> |initInputs| == |funcs[init.value].outputs|) ==> Runnable(funcs, initInputs)
    ensures Phases(funcs, invokeIndex, invoke) && invoke < |funcs|
  {
    PhasesAre(funcs, invokeIndex, invoke);
  }

  // A whole history, from the first call on.
  ghost function LiveAll(w: World, funcs: seq<Func>, invokeIndex: nat, invoke: nat, init: Option<nat>, l: Lived,
                         ops: seq<Op>): Lived
    requires Prepared(funcs, invokeIndex, invoke, init) && LivedOk(funcs, init, l)
    requires (forall op :: op in ops ==> OneOk(funcs, invoke, init, op))
             && (init.Some? && ops != [] && l.sent.None? ==> ops[0].InitCall?)
    decreases |ops|
  {
    if ops == [] then l
    else LiveAll(w, funcs, invokeIndex, invoke, init, Live(w, funcs, invokeIndex, invoke, init, l, ops[0]), ops[1..])
  }

  const UNBORN: Lived := Lived(None, [], [])

  // ------------------------------------------------------------------ Suppliers

  datatype Sort = Anybody | StaticOnes | LiteralOnes | RunOnes

  predicate OfSort(f: Func, s: Sort) {
    match s
    case Anybody => true
    case StaticOnes => InGroup(f, Statics)
    case LiteralOnes => f.kind.Literal?
    case RunOnes => InGroup(f, Runs)
  }

  // The last included entry of a sort before position 'n' that sends the type.
  function Latest(funcs: seq<Func>, n: nat, t: TypeCode, s: Sort): (r: Option<nat>)
    requires n <= |funcs|
    ensures r.Some? ==>
              && r.value < n && funcs[r.value].included && OfSort(funcs[r.value], s) && t in funcs[r.value].outputs
              && forall j: nat :: r.value < j < n && funcs[j].included && OfSort(funcs[j], s) ==> t !in funcs[j].outputs
    ensures r.None? ==> forall j: nat :: j < n && funcs[j].included && OfSort(funcs[j], s) ==> t !in funcs[j].outputs
  {
    if n == 0 then None
    else if funcs[n - 1].included && OfSort(funcs[n - 1], s) && t in funcs[n - 1].outputs then Some(n - 1)
    else Latest(funcs, n - 1, t, s)
  }

  lemma LatestStep(funcs: seq<Func>, n: nat, t: TypeCode, s: Sort)
    requires n < |funcs|
    ensures Latest(funcs, n + 1, t, s) ==
              if funcs[n].included && OfSort(funcs[n], s) && t in funcs[n].outputs then Some(n)
              else Latest(funcs, n, t, s)
  {
  }

  // The closest entry before position 'n'.
  function Closest(funcs: seq<Func>, n: nat, t: TypeCode): Option<nat>
    requires n <= |funcs|
  {
    Latest(funcs, n, t, Anybody)
  }

  // The same for who takes the type in the static phase: what an entry of the run phase sends is not there.
  function ClosestEarly(funcs: seq<Func>, n: nat, t: TypeCode): (r: Option<nat>)
    requires n <= |funcs|
    ensures r.Some? ==> r.value < n && Early(funcs[r.value])
  {
    var r := Closest(funcs, n, t);
    if r.Some? && Early(funcs[r.value]) then r else None
  }

  // Whose value the code finds in the base values when the static chain has come to position 'n': static
  // injectors have overwritten the inputs of the init function, and those have overwritten the literals, the
  // last of the whole list having been written last.
  function CodedEarly(funcs: seq<Func>, init: Option<nat>, n: nat, t: TypeCode): (r: Option<nat>)
    requires n <= |funcs| && (init.Some? ==> init.value < |funcs|)
    ensures r.Some? ==> r.value < |funcs|
  {
    var latest := Latest(funcs, n, t, StaticOnes);
    if latest.Some? then latest
    else if init.Some? && t in funcs[init.value].outputs then init
    else Latest(funcs, |funcs|, t, LiteralOnes)
  }

  // The same for an entry of the run phase: those before it have overwritten the inputs of the invoke function,
  // and these have overwritten the base values.
  function CodedRun(funcs: seq<Func>, invoke: nat, init: Option<nat>, n: nat, t: TypeCode): Option<nat>
    requires n <= |funcs| && invoke < |funcs| && (init.Some? ==> init.value < |funcs|)
  {
    var latest := Latest(funcs, n, t, RunOnes);
    if latest.Some? then latest
    else if t in funcs[invoke].outputs then Some(invoke)
    else CodedEarly(funcs, init, |funcs|, t)
  }

  // Whose values are left in the base values once the static chain is over, if the provider 'failed' has
  // failed or nobody has: what later entries before 'invokeIndex' send is zeroed.
  ghost function CodedLeft(funcs: seq<Func>, invokeIndex: nat, init: Option<nat>, failed: Option<nat>, t: TypeCode)
    : Option<nat>
    requires invokeIndex <= |funcs| && (init.Some? ==> init.value < |funcs|)
    requires failed.Some? ==> failed.value < |funcs|
  {
    if failed.None? then CodedEarly(funcs, init, |funcs|, t)
    else if SentBetween(funcs, failed.value + 1, invokeIndex, t) then None
    else CodedEarly(funcs, init, failed.value + 1, t)
  }

  // Whose values should be: later entries do not get their turn.
  function ShouldBeLeft(failed: Option<nat>, j: Option<nat>): Option<nat> {
    if failed.Some? && j.Some? && j.value > failed.value then None else j
  }

  predicate MayFail(funcs: seq<Func>, failed: Option<nat>) {
    failed.Some? ==> failed.value < |funcs| && funcs[failed.value].included && funcs[failed.value].kind.StaticFallible?
  }

  // After the static phase the type is what entry 'j' has sent, whoever has failed.
  ghost predicate LeftFrom(funcs: seq<Func>, invokeIndex: nat, init: Option<nat>, t: TypeCode, j: Option<nat>)
    requires invokeIndex <= |funcs| && (init.Some? ==> init.value < |funcs|)
  {
    forall failed :: MayFail(funcs, failed) ==>
      CodedLeft(funcs, invokeIndex, init, failed, t) == ShouldBeLeft(failed, j)
  }

  // Everybody who takes a type gets it from the closest entry: static providers, the init function what it
  // returns, and providers of the run phase, all of which come before the final function.
  ghost predicate ClosestWins(funcs: seq<Func>, invokeIndex: nat, invoke: nat, init: Option<nat>)
    requires invokeIndex <= |funcs| && invoke < |funcs| && (init.Some? ==> init.value < |funcs|)
  {
    && (forall k: nat, t :: k < |funcs| && funcs[k].included && InGroup(funcs[k], Statics) && t in funcs[k].inputs ==>
          CodedEarly(funcs, init, k, t) == ClosestEarly(funcs, k, t))
    && (init.Some? ==> forall t :: t in funcs[init.value].received ==>
          LeftFrom(funcs, invokeIndex, init, t, ClosestEarly(funcs, invoke, t)))
    && (forall k: nat, t :: k < |funcs| && RunTaker(funcs[k]) && t in funcs[k].inputs ==>
          RunGetsClosest(funcs, invokeIndex, invoke, init, k, t))
    && (forall k: nat, last: nat :: k < |funcs| && last < |funcs| && RunTaker(funcs[k]) && funcs[last].kind.Final? ==>
          k <= last)
  }

  predicate RunTaker(f: Func) {
    f.included && (InGroup(f, Runs) || f.kind.Final?)
  }

  ghost predicate RunGetsClosest(funcs: seq<Func>, invokeIndex: nat, invoke: nat, init: Option<nat>, k: nat,
                                 t: TypeCode)
    requires invokeIndex <= |funcs| && invoke < |funcs| && (init.Some? ==> init.value < |funcs|) && k <= |funcs|
  {
    var closest := Closest(funcs, k, t);
    && CodedRun(funcs, invoke, init, k, t) == closest
    && (closest.None? || Early(funcs[closest.value]) ==> LeftFrom(funcs, invokeIndex, init, t, closest))
  }

  // When the closest entry is the one whose value is there: a static provider always is; the init function if
  // no static provider up to there sends the type; a literal if neither do, and it is the last of all.
  lemma ClosestExactlyIf(funcs: seq<Func>, init: Option<nat>, k: nat, t: TypeCode)
    requires k <= |funcs|
    requires init.Some? ==> init.value < |funcs| && funcs[init.value].kind.Init? && funcs[init.value].included
    requires forall i: nat :: i < |funcs| && funcs[i].kind.Init? ==> init == Some(i)
    ensures
      var j := ClosestEarly(funcs, k, t);
      CodedEarly(funcs, init, k, t) == j <==>
        if j.None? then !StaticSends(funcs, k, t) && !SendsInit(funcs, init, t) && !SendsLiteral(funcs, 0, t)
        else if funcs[j.value].kind.Init? then !StaticSends(funcs, k, t)
        else funcs[j.value].kind.Literal? ==>
          !StaticSends(funcs, k, t) && !SendsInit(funcs, init, t) && !SendsLiteral(funcs, j.value + 1, t)
  {
  }

  // The same for the run phase: a run provider that is closest is the one; the invoke function if no run
  // provider up to there sends the type; an entry of the static phase if neither do, and it is what the whole
  // static phase leaves.
  lemma RunClosestExactlyIf(funcs: seq<Func>, invokeIndex: nat, invoke: nat, init: Option<nat>, k: nat, t: TypeCode)
    requires Prepared(funcs, invokeIndex, invoke, init) && k <= |funcs|
    ensures invokeIndex <= |funcs| && invoke < |funcs| && (init.Some? ==> init.value < |funcs|)
    ensures
      var j := Closest(funcs, k, t);
      CodedRun(funcs, invoke, init, k, t) == j <==>
        if j.Some? && InGroup(funcs[j.value], Runs) then true
        else if j == Some(invoke) then !RunSends(funcs, k, t)
        else
          && !RunSends(funcs, k, t) && t !in funcs[invoke].outputs
          && if j.None? then !StaticSends(funcs, |funcs|, t) && !SendsInit(funcs, init, t) && !SendsLiteral(funcs, 0, t)
             else if funcs[j.value].kind.Init? then !StaticSends(funcs, |funcs|, t)
             else if funcs[j.value].kind.Literal? then
               !StaticSends(funcs, |funcs|, t) && !SendsInit(funcs, init, t) && !SendsLiteral(funcs, j.value + 1, t)
             else !StaticFollows(funcs, j.value + 1, t)
  {
    hide StaticPhase, RunPhase;
    PhasesAre(funcs, invokeIndex, invoke);
    var j := Closest(funcs, k, t);
    if j.Some? {
      SenderIs(funcs, invokeIndex, invoke, j.value, t);
    }
    hide Prepared, Phases;
  }

  lemma SenderIs(funcs: seq<Func>, invokeIndex: nat, invoke: nat, j: nat, t: TypeCode)
    requires Phases(funcs, invokeIndex, invoke) && j < |funcs| && t in funcs[j].outputs
    ensures j == invoke || InGroup(funcs[j], Runs) || Early(funcs[j])
    ensures funcs[invoke].kind.Invoke?
  {
  }

  ghost predicate RunSends(funcs: seq<Func>, n: nat, t: TypeCode) {
    exists i: nat :: i < n && i < |funcs| && funcs[i].included && InGroup(funcs[i], Runs) && t in funcs[i].outputs
  }

  ghost predicate StaticFollows(funcs: seq<Func>, n: nat, t: TypeCode) {
    exists i: nat :: n <= i < |funcs| && funcs[i].included && InGroup(funcs[i], Statics) && t in funcs[i].outputs
  }

  predicate SendsInit(funcs: seq<Func>, init: Option<nat>, t: TypeCode) {
    init.Some? && init.value < |funcs| && t in funcs[init.value].outputs
  }

  // Some literal from 'k' on sends the type.
  ghost predicate SendsLiteral(funcs: seq<Func>, k: nat, t: TypeCode) {
    exists i: nat :: k <= i < |funcs| && funcs[i].included && funcs[i].kind.Literal? && t in funcs[i].outputs
  }
}
