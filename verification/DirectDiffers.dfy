/**
 If somebody does not get what it takes from the closest entry, there is a history that shows it: one in which
 every value tells where it has come from.
 */
module DirectDiffers {
  import opened Basics
  import opened Interp
  import opened Slots
  import opened Reads
  import opened Binding
  import opened Binder
  import opened Supply
  import opened Direct
  import opened DirectAgrees

  // In this world every function returns its position in the list; the one that fails, if any, returns -2, and
  // what nobody has bound is -1.
  function Tagging(funcs: seq<Func>, failed: Option<nat>): World {
    World(_ => -1, x => x != -2,
          (id: nat, _, _) => if Fails2(funcs, failed, id) then -2 else Position(funcs, id),
          (_, _) => true, (id: nat, _, _) => Position(funcs, id), (_, _) => 1)
  }

  predicate Fails2(funcs: seq<Func>, failed: Option<nat>, id: nat) {
    failed.Some? && failed.value < |funcs| && funcs[failed.value].id == id
  }

  function TagOf(failed: Option<nat>, j: Option<nat>): Value {
    if j.None? then -1 else if failed == j then -2 else j.value
  }

  lemma TagsTell(failed: Option<nat>, j: Option<nat>, j': Option<nat>)
    ensures TagOf(failed, j) == TagOf(failed, j') <==> j == j'
  {
  }

  function Copies(n: nat, x: Value): (r: seq<Value>)
    ensures |r| == n && forall k :: 0 <= k < n ==> r[k] == x
  {
    seq(n, _ => x)
  }

  // The values of literals are their positions.
  ghost predicate Tagged(funcs: seq<Func>) {
    && DistinctIds(funcs)
    && forall i: nat :: i < |funcs| && funcs[i].kind.Literal? ==> funcs[i].kind.value == i
  }

  lemma TagResults(funcs: seq<Func>, failed: Option<nat>, n: nat, tr: Trace, m: nat)
    requires DistinctIds(funcs) && n < |funcs| && (failed.Some? ==> failed.value < |funcs|)
    ensures forall k :: 0 <= k < m ==>
              Results(Tagging(funcs, failed), funcs[n].id, tr, m)[k] == TagOf(failed, Some(n))
    ensures forall k :: 0 <= k < m ==> InnerArgs(Tagging(funcs, failed), funcs[n].id, tr, m)[k] == n
  {
    PositionOf(funcs, n);
    if failed.Some? && failed.value != n {
      assert failed.value < n || n < failed.value;
    }
  }

  lemma BindCopies(w: World, m: Flow, types: seq<TypeCode>, values: seq<Value>, x: Value)
    requires |types| == |values| && forall k :: 0 <= k < |types| ==> values[k] == x
    ensures forall t :: Get(w, Interp.Bind(m, types, values), t) == if t in types then x else Get(w, m, t)
    ensures forall t :: t in types ==> t in Interp.Bind(m, types, values) && Interp.Bind(m, types, values)[t] == x
  {
    BindGets(w, m, types, values);
    forall t | t in types ensures t in Interp.Bind(map[], types, values) && Interp.Bind(map[], types, values)[t] == x {
      BindValues(types, values, t, x);
    }
    hide Interp.Bind;
  }

  // ------------------------------------------------------------------ The static chain

  ghost predicate CodedTags(funcs: seq<Func>, init: Option<nat>, failed: Option<nat>, n: nat, down: Flow)
    requires n <= |funcs| && (init.Some? ==> init.value < |funcs|)
  {
    forall t :: Get(Tagging(funcs, failed), down, t) == TagOf(failed, CodedEarly(funcs, init, n, t))
  }

  // What the call of static provider 'k' looks like, if its inputs come from these entries.
  ghost function CodedCall(funcs: seq<Func>, init: Option<nat>, failed: Option<nat>, k: nat): Event
    requires k < |funcs| && (init.Some? ==> init.value < |funcs|)
  {
    Call(funcs[k].id, seq(|funcs[k].inputs|, i requires 0 <= i < |funcs[k].inputs| =>
                                               TagOf(failed, CodedEarly(funcs, init, k, funcs[k].inputs[i]))))
  }

  ghost function DirectCall(funcs: seq<Func>, failed: Option<nat>, k: nat): Event
    requires k < |funcs|
  {
    Call(funcs[k].id, seq(|funcs[k].inputs|, i requires 0 <= i < |funcs[k].inputs| =>
                                               TagOf(failed, ClosestEarly(funcs, k, funcs[k].inputs[i]))))
  }

  // Where the static phase ends.
  function EndOf(funcs: seq<Func>, failed: Option<nat>): (n: nat)
    requires MayFail(funcs, failed)
    ensures n <= |funcs|
  {
    if failed.Some? then failed.value + 1 else |funcs|
  }

  ghost function Count(funcs: seq<Func>, invokeIndex: nat, n: nat): nat
    requires n <= |funcs| && invokeIndex <= |funcs|
  {
    |Collection(funcs, invokeIndex, Statics, n)|
  }

  // What has happened when the static phase is over.
  ghost predicate CodedTrace(funcs: seq<Func>, invokeIndex: nat, init: Option<nat>, failed: Option<nat>, n: nat,
                             tr: Trace, tr': Trace)
    requires n <= |funcs| && invokeIndex <= |funcs| && MayFail(funcs, failed) && (init.Some? ==> init.value < |funcs|)
  {
    && tr <= tr' && |tr'| + Count(funcs, invokeIndex, n) == |tr| + Count(funcs, invokeIndex, EndOf(funcs, failed))
    && forall k: nat :: n <= k < EndOf(funcs, failed) && funcs[k].included && InGroup(funcs[k], Statics) ==>
         IsAt(tr', |tr| + Count(funcs, invokeIndex, k) - Count(funcs, invokeIndex, n),
              CodedCall(funcs, init, failed, k))
  }

  predicate IsAt(tr: Trace, at: int, e: Event) {
    0 <= at < |tr| && tr[at] == e
  }

  lemma CodedArguments(funcs: seq<Func>, init: Option<nat>, failed: Option<nat>, n: nat, down: Flow)
    requires n < |funcs| && (init.Some? ==> init.value < |funcs|) && CodedTags(funcs, init, failed, n, down)
    ensures Call(funcs[n].id, GetAll(Tagging(funcs, failed), down, funcs[n].inputs))
            == CodedCall(funcs, init, failed, n)
  {
  }

  lemma CodedTagsNext(funcs: seq<Func>, init: Option<nat>, failed: Option<nat>, n: nat, down: Flow, values: seq<Value>)
    requires n < |funcs| && (init.Some? ==> init.value < |funcs|) && CodedTags(funcs, init, failed, n, down)
    requires |values| == |funcs[n].outputs| && forall k :: 0 <= k < |values| ==> values[k] == TagOf(failed, Some(n))
    ensures if funcs[n].included && InGroup(funcs[n], Statics)
            then CodedTags(funcs, init, failed, n + 1, Interp.Bind(down, funcs[n].outputs, values))
            else CodedTags(funcs, init, failed, n + 1, down)
  {
    hide CodedEarly, Interp.Bind;
    BindCopies(Tagging(funcs, failed), down, funcs[n].outputs, values, TagOf(failed, Some(n)));
    forall t ensures CodedEarly(funcs, init, n + 1, t) ==
        if funcs[n].included && InGroup(funcs[n], Statics) && t in funcs[n].outputs then Some(n)
        else CodedEarly(funcs, init, n, t)
    {
      CodedEarlyStep(funcs, init, n, t);
    }
  }

  lemma OnlyThisFails(funcs: seq<Func>, failed: Option<nat>, n: nat, tr: Trace)
    requires DistinctIds(funcs) && n < |funcs| && IsStatic(funcs[n]) && MayFail(funcs, failed)
    ensures StaticFails(Tagging(funcs, failed), funcs[n], tr) <==> failed == Some(n)
  {
    TagResults(funcs, failed, n, tr, |funcs[n].outputs|);
  }

  // What the base values hold in the end.
  ghost predicate BaseTags(funcs: seq<Func>, invokeIndex: nat, init: Option<nat>, failed: Option<nat>, base: Flow)
    requires invokeIndex <= |funcs| && MayFail(funcs, failed) && (init.Some? ==> init.value < |funcs|)
  {
    forall t :: Mentioned(funcs, t) ==>
      Get(Tagging(funcs, failed), base, t) == TagOf(failed, CodedLeft(funcs, invokeIndex, init, failed, t))
  }

  lemma {:induction false} CodedStaticRun(funcs: seq<Func>, invokeIndex: nat, invoke: nat, init: Option<nat>,
                                          failed: Option<nat>, n: nat, down: Flow, tr: Trace)
    requires Prepared(funcs, invokeIndex, invoke, init) && DistinctIds(funcs) && MayFail(funcs, failed)
    requires n <= |funcs| && (failed.Some? ==> n <= failed.value) && (init.Some? ==> init.value < |funcs|)
    requires CodedTags(funcs, init, failed, n, down)
    ensures
      var statics, k := Collection(funcs, invokeIndex, Statics, |funcs|), |Collection(funcs, invokeIndex, Statics, n)|;
      && invokeIndex <= |funcs| && (forall i :: 0 <= i < |statics| ==> IsStatic(statics[i])) && k <= |statics|
      && var o := StaticFrom(Tagging(funcs, failed), statics, k, down, tr);
         CodedTrace(funcs, invokeIndex, init, failed, n, tr, o.trace)
             && BaseTags(funcs, invokeIndex, init, failed, o.down)
    decreases |funcs| - n
  {
    hide *;
    var w := Tagging(funcs, failed);
    PreparedIsPhased(funcs, invokeIndex, invoke, init);
    PhasesAre(funcs, invokeIndex, invoke);
    if n == |funcs| {
      StaticsAreStatic(funcs, invokeIndex, invoke, n);
      NoMoreStatics(w, funcs, invokeIndex, down, tr);
      CodedTraceEnds(funcs, invokeIndex, init, failed, tr);
      BaseTagsEnd(funcs, invokeIndex, init, failed, down);
    } else {
      StaticTurn(w, funcs, invokeIndex, invoke, n, down, tr);
      var f := funcs[n];
      if f.included && InGroup(f, Statics) {
        CodedArguments(funcs, init, failed, n, down);
        var tr1 := tr + [Call(f.id, GetAll(w, down, f.inputs))];
        var results := Results(w, f.id, tr1, |f.outputs|);
        FailedIsOne(funcs, failed);
        TagResults(funcs, failed, n, tr1, |f.outputs|);
        CodedTagsNext(funcs, init, failed, n, down, results);
        OnlyThisFails(funcs, failed, n, tr1);
        var down1 := Interp.Bind(down, f.outputs, results);
        if StaticFails(w, f, tr1) {
          CodedTraceFails(funcs, invokeIndex, init, failed, n, tr);
          BaseTagsFail(funcs, invokeIndex, init, failed, n, down1);
        } else {
          BelowEnd(funcs, failed, n);
          CodedStaticRun(funcs, invokeIndex, invoke, init, failed, n + 1, down1, tr1);
          CodedTraceNext(funcs, invokeIndex, init, failed, n, tr,
                         StaticFrom(w, Collection(funcs, invokeIndex, Statics, |funcs|),
                                    |Collection(funcs, invokeIndex, Statics, n + 1)|, down1, tr1).trace);
        }
      } else {
        FailedIsOne(funcs, failed);
        CodedTagsNext(funcs, init, failed, n, down, Copies(|f.outputs|, TagOf(failed, Some(n))));
        CodedStaticRun(funcs, invokeIndex, invoke, init, failed, n + 1, down, tr);
        CodedTraceSkips(funcs, invokeIndex, init, failed, n, tr,
                        StaticFrom(w, Collection(funcs, invokeIndex, Statics, |funcs|),
                                   |Collection(funcs, invokeIndex, Statics, n + 1)|, down, tr).trace);
      }
    }
  }

  lemma FailedIsOne(funcs: seq<Func>, failed: Option<nat>)
    requires MayFail(funcs, failed)
    ensures failed.Some? ==>
              failed.value < |funcs| && funcs[failed.value].included && InGroup(funcs[failed.value], Statics)
  {
  }

  lemma BelowEnd(funcs: seq<Func>, failed: Option<nat>, n: nat)
    requires MayFail(funcs, failed) && n < |funcs| && (failed.Some? ==> n <= failed.value)
    ensures n < EndOf(funcs, failed)
  {
  }

  lemma CodedTraceEnds(funcs: seq<Func>, invokeIndex: nat, init: Option<nat>, failed: Option<nat>, tr: Trace)
    requires invokeIndex <= |funcs| && MayFail(funcs, failed) && (init.Some? ==> init.value < |funcs|)
    requires failed.Some? ==> |funcs| <= failed.value
    ensures CodedTrace(funcs, invokeIndex, init, failed, |funcs|, tr, tr)
  {
  }

  lemma BaseTagsEnd(funcs: seq<Func>, invokeIndex: nat, init: Option<nat>, failed: Option<nat>, down: Flow)
    requires invokeIndex <= |funcs| && MayFail(funcs, failed) && (init.Some? ==> init.value < |funcs|)
    requires failed.Some? ==> |funcs| <= failed.value
    requires CodedTags(funcs, init, failed, |funcs|, down)
    ensures BaseTags(funcs, invokeIndex, init, failed, down)
  {
  }

  lemma BaseTagsFail(funcs: seq<Func>, invokeIndex: nat, init: Option<nat>, failed: Option<nat>, n: nat, down: Flow)
    requires n < |funcs| && invokeIndex <= |funcs| && MayFail(funcs, failed) && (init.Some? ==> init.value < |funcs|)
    requires failed == Some(n) && CodedTags(funcs, init, failed, n + 1, down)
    ensures BaseTags(funcs, invokeIndex, init, failed,
                     Zeroed(Tagging(funcs, failed), down, WithSkips(funcs, invokeIndex, n).skips))
  {
    hide WithSkips, CodedEarly, SentBetween, Zeroed, Mentioned;
    forall t | Mentioned(funcs, t)
      ensures Get(Tagging(funcs, failed), Zeroed(Tagging(funcs, failed), down,
                                                 WithSkips(funcs, invokeIndex, n).skips), t)
              == TagOf(failed, CodedLeft(funcs, invokeIndex, init, failed, t))
    {
      ZeroedGets(Tagging(funcs, failed), funcs, invokeIndex, n, down, t);
    }
  }

  lemma CountSteps(funcs: seq<Func>, invokeIndex: nat, n: nat)
    requires n < |funcs| && invokeIndex <= |funcs|
    ensures Count(funcs, invokeIndex, n + 1) ==
              Count(funcs, invokeIndex, n) + if funcs[n].included && InGroup(funcs[n], Statics) then 1 else 0
  {
    OneMoreCollected(funcs, invokeIndex, Statics, n);
  }

  lemma CodedTraceFails(funcs: seq<Func>, invokeIndex: nat, init: Option<nat>, failed: Option<nat>, n: nat, tr: Trace)
    requires n < |funcs| && invokeIndex <= |funcs| && MayFail(funcs, failed) && (init.Some? ==> init.value < |funcs|)
    requires failed == Some(n)
    ensures CodedTrace(funcs, invokeIndex, init, failed, n, tr, tr + [CodedCall(funcs, init, failed, n)])
  {
    CountSteps(funcs, invokeIndex, n);
    hide Count, CodedCall;
    var tr' := tr + [CodedCall(funcs, init, failed, n)];
    forall k: nat | n <= k < EndOf(funcs, failed) && funcs[k].included && InGroup(funcs[k], Statics)
      ensures IsAt(tr', |tr| + Count(funcs, invokeIndex, k) - Count(funcs, invokeIndex, n),
                   CodedCall(funcs, init, failed, k))
    {
    }
  }

  lemma CodedTraceNext(funcs: seq<Func>, invokeIndex: nat, init: Option<nat>, failed: Option<nat>, n: nat, tr: Trace,
                       tr': Trace)
    requires n < |funcs| && invokeIndex <= |funcs| && MayFail(funcs, failed) && (init.Some? ==> init.value < |funcs|)
    requires funcs[n].included && InGroup(funcs[n], Statics) && n < EndOf(funcs, failed)
    requires CodedTrace(funcs, invokeIndex, init, failed, n + 1, tr + [CodedCall(funcs, init, failed, n)], tr')
    ensures CodedTrace(funcs, invokeIndex, init, failed, n, tr, tr')
  {
    CountSteps(funcs, invokeIndex, n);
    hide Count, CodedCall, IsAt;
    HappensThere(tr, CodedCall(funcs, init, failed, n), tr');
    forall k: nat | n <= k < EndOf(funcs, failed) && funcs[k].included && InGroup(funcs[k], Statics)
      ensures IsAt(tr', |tr| + Count(funcs, invokeIndex, k) - Count(funcs, invokeIndex, n),
                   CodedCall(funcs, init, failed, k))
    {
      if n < k {
        var at := |tr| + 1 + Count(funcs, invokeIndex, k) - Count(funcs, invokeIndex, n + 1);
        assert IsAt(tr', at, CodedCall(funcs, init, failed, k));
      }
    }
  }

  lemma HappensThere(tr: Trace, e: Event, tr': Trace)
    requires tr + [e] <= tr'
    ensures IsAt(tr', |tr|, e) && tr <= tr'
  {
  }

  lemma CodedTraceSkips(funcs: seq<Func>, invokeIndex: nat, init: Option<nat>, failed: Option<nat>, n: nat, tr: Trace,
                        tr': Trace)
    requires n < |funcs| && invokeIndex <= |funcs| && MayFail(funcs, failed) && (init.Some? ==> init.value < |funcs|)
    requires !(funcs[n].included && InGroup(funcs[n], Statics))
    requires CodedTrace(funcs, invokeIndex, init, failed, n + 1, tr, tr')
    ensures CodedTrace(funcs, invokeIndex, init, failed, n, tr, tr')
  {
    CountSteps(funcs, invokeIndex, n);
    hide Count, CodedCall, IsAt;
    forall k: nat | n <= k < EndOf(funcs, failed) && funcs[k].included && InGroup(funcs[k], Statics)
      ensures IsAt(tr', |tr| + Count(funcs, invokeIndex, k) - Count(funcs, invokeIndex, n),
                   CodedCall(funcs, init, failed, k))
    {
      var at := |tr| + Count(funcs, invokeIndex, k) - Count(funcs, invokeIndex, n + 1);
      assert IsAt(tr', at, CodedCall(funcs, init, failed, k));
    }
  }

  // ------------------------------------------------------------------ The static phase in the order of the list

  // The inputs of the init function.
  function InitTags(funcs: seq<Func>, init: Option<nat>): seq<Value>
    requires init.Some? ==> init.value < |funcs|
  {
    if init.Some? then Copies(|funcs[init.value].outputs|, init.value) else []
  }

  predicate HasTag(m: Flow, t: TypeCode, x: Value) {
    t in m && m[t] == x
  }

  ghost predicate SentTags(funcs: seq<Func>, failed: Option<nat>, sent: seq<Flow>) {
    && SentOk(funcs, sent)
    && forall j: nat, t :: j < |sent| && funcs[j].included && Early(funcs[j]) && t in funcs[j].outputs ==>
         HasTag(sent[j], t, TagOf(failed, ShouldBeLeft(failed, Some(j))))
  }

  function Earlier(n: nat, m: nat): nat {
    if n < m then n else m
  }

  ghost predicate DirectTrace(funcs: seq<Func>, invokeIndex: nat, failed: Option<nat>, n: nat, tr: Trace, tr': Trace)
    requires n <= |funcs| && invokeIndex <= |funcs| && MayFail(funcs, failed)
  {
    DirectCalls(funcs, invokeIndex, failed, Earlier(n, EndOf(funcs, failed)), tr, tr')
  }

  ghost predicate DirectCalls(funcs: seq<Func>, invokeIndex: nat, failed: Option<nat>, end: nat, tr: Trace, tr': Trace)
    requires end <= |funcs| && invokeIndex <= |funcs|
  {
    && tr <= tr' && |tr'| == |tr| + Count(funcs, invokeIndex, end)
    && forall k: nat :: k < end && funcs[k].included && InGroup(funcs[k], Statics) ==>
         IsAt(tr', |tr| + Count(funcs, invokeIndex, k), DirectCall(funcs, failed, k))
  }

  lemma {:induction false} PassTags(funcs: seq<Func>, invokeIndex: nat, invoke: nat, init: Option<nat>,
                                    failed: Option<nat>, n: nat, tr: Trace)
    requires Prepared(funcs, invokeIndex, invoke, init) && Tagged(funcs) && MayFail(funcs, failed) && n <= |funcs|
    ensures invokeIndex <= |funcs| && (init.Some? ==> init.value < |funcs|) && Runnable(funcs, InitTags(funcs, init))
    ensures
      var p := StaticPass(Tagging(funcs, failed), funcs, InitTags(funcs, init), n, tr);
      && SentTags(funcs, failed, p.sent) && (p.failed <==> failed.Some? && failed.value < n)
      && DirectTrace(funcs, invokeIndex, failed, n, tr, p.trace)
  {
    hide *;
    ListFacts(funcs, invokeIndex, invoke, init);
    InitTagsFit(funcs, invokeIndex, invoke, init);
    var w, inputs := Tagging(funcs, failed), InitTags(funcs, init);
    PassIs(w, funcs, inputs, n, tr);
    if n == 0 {
      PassStarts(w, funcs, inputs, tr);
      NothingTagged(funcs, invokeIndex, failed, tr);
    } else {
      PassTags(funcs, invokeIndex, invoke, init, failed, n - 1, tr);
      var p, q := StaticPass(w, funcs, inputs, n - 1, tr), StaticPass(w, funcs, inputs, n, tr);
      if p.failed {
        AfterFailure(w, funcs, inputs, n - 1, n, tr);
        TagsAfterFailure(w, funcs, failed, p.sent, q.sent);
        DirectTraceStays(funcs, invokeIndex, failed, n - 1, tr, p.trace);
      } else {
        PassNext(w, funcs, inputs, n - 1, tr);
        PassTagsNext(funcs, invokeIndex, invoke, init, failed, n - 1, tr);
      }
    }
  }

  lemma InitTagsFit(funcs: seq<Func>, invokeIndex: nat, invoke: nat, init: Option<nat>)
    requires Prepared(funcs, invokeIndex, invoke, init)
    ensures init.Some? ==> init.value < |funcs| && |InitTags(funcs, init)| == |funcs[init.value].outputs|
    ensures init.None? ==> InitTags(funcs, init) == []
    ensures Runnable(funcs, InitTags(funcs, init))
  {
    PreparedRuns(funcs, invokeIndex, invoke, init, InitTags(funcs, init));
  }

  lemma NothingTagged(funcs: seq<Func>, invokeIndex: nat, failed: Option<nat>, tr: Trace)
    requires invokeIndex <= |funcs| && MayFail(funcs, failed)
    ensures SentTags(funcs, failed, []) && DirectTrace(funcs, invokeIndex, failed, 0, tr, tr)
    ensures !(failed.Some? && failed.value < 0)
  {
  }

  lemma TagsAfterFailure(w: World, funcs: seq<Func>, failed: Option<nat>, sent: seq<Flow>, sent': seq<Flow>)
    requires w == Tagging(funcs, failed) && failed.Some? && failed.value < |sent| && |sent'| == |sent| + 1
    requires SentTags(funcs, failed, sent) && SentOk(funcs, sent') && sent <= sent' && ZeroSent(w, funcs, sent', |sent|)
    ensures SentTags(funcs, failed, sent')
  {
    forall j: nat, t | j < |sent'| && funcs[j].included && Early(funcs[j]) && t in funcs[j].outputs
      ensures HasTag(sent'[j], t, TagOf(failed, ShouldBeLeft(failed, Some(j))))
    {
      if j < |sent| {
        assert sent'[j] == sent[j] && HasTag(sent[j], t, TagOf(failed, ShouldBeLeft(failed, Some(j))));
      } else {
        assert IsZero(w, sent'[j], t);
      }
    }
  }

  lemma DirectTraceStays(funcs: seq<Func>, invokeIndex: nat, failed: Option<nat>, n: nat, tr: Trace, tr': Trace)
    requires n < |funcs| && invokeIndex <= |funcs| && MayFail(funcs, failed) && failed.Some? && failed.value < n
    requires DirectTrace(funcs, invokeIndex, failed, n, tr, tr')
    ensures DirectTrace(funcs, invokeIndex, failed, n + 1, tr, tr') && failed.value < n + 1
  {
  }

  // The next entry binds its tag.
  lemma PassTagsNext(funcs: seq<Func>, invokeIndex: nat, invoke: nat, init: Option<nat>, failed: Option<nat>, n: nat,
                     tr: Trace)
    requires Prepared(funcs, invokeIndex, invoke, init) && Tagged(funcs) && MayFail(funcs, failed) && n < |funcs|
    requires invokeIndex <= |funcs| && (init.Some? ==> init.value < |funcs|) && Runnable(funcs, InitTags(funcs, init))
    requires
      var p := StaticPass(Tagging(funcs, failed), funcs, InitTags(funcs, init), n, tr);
      && SentTags(funcs, failed, p.sent) && !p.failed && !(failed.Some? && failed.value < n)
      && DirectTrace(funcs, invokeIndex, failed, n, tr, p.trace)
    ensures
      var q := StaticPass(Tagging(funcs, failed), funcs, InitTags(funcs, init), n + 1, tr);
      && SentTags(funcs, failed, q.sent) && (q.failed <==> failed.Some? && failed.value < n + 1)
      && DirectTrace(funcs, invokeIndex, failed, n + 1, tr, q.trace)
  {
    hide *;
    var w, inputs, f := Tagging(funcs, failed), InitTags(funcs, init), funcs[n];
    var p, q := StaticPass(w, funcs, inputs, n, tr), StaticPass(w, funcs, inputs, n + 1, tr);
    PassNext(w, funcs, inputs, n, tr);
    PassIs(w, funcs, inputs, n + 1, tr);
    ListFacts(funcs, invokeIndex, invoke, init);
    PhasesAre(funcs, invokeIndex, invoke);
    FailedIsOne(funcs, failed);
    TaggedParts(funcs);
    BelowEnd(funcs, failed, n);
    if f.included && InGroup(f, Statics) {
      DirectArguments(funcs, failed, n, p.sent);
      var tr1 := p.trace + [Call(f.id, GetAll(w, BoundBefore(funcs, p.sent, n), f.inputs))];
      TagResults(funcs, failed, n, tr1, |f.outputs|);
      OnlyThisFails(funcs, failed, n, tr1);
      BindCopies(w, map[], f.outputs, Results(w, f.id, tr1, |f.outputs|), TagOf(failed, Some(n)));
      DirectTraceNext(funcs, invokeIndex, failed, n, tr, p.trace);
    } else {
      OtherTag(funcs, invokeIndex, invoke, init, failed, n, tr);
      DirectTraceSkips(funcs, invokeIndex, failed, n, tr, p.trace);
    }
    OneMoreTag(funcs, failed, p.sent, q.sent);
  }

  lemma TaggedParts(funcs: seq<Func>)
    requires Tagged(funcs)
    ensures DistinctIds(funcs)
  {
  }

  lemma OneMoreTag(funcs: seq<Func>, failed: Option<nat>, sent: seq<Flow>, sent': seq<Flow>)
    requires |sent| < |funcs| && |sent'| == |sent| + 1 && sent <= sent' && SentTags(funcs, failed, sent)
    requires SentOk(funcs, sent') && (failed.Some? ==> |sent| <= failed.value)
    requires
      var f := funcs[|sent|];
      f.included && Early(f) ==>
        forall t :: t in f.outputs ==> t in sent'[|sent|] && sent'[|sent|][t] == TagOf(failed, Some(|sent|))
    ensures SentTags(funcs, failed, sent')
  {
    forall j: nat, t | j < |sent'| && funcs[j].included && Early(funcs[j]) && t in funcs[j].outputs
      ensures HasTag(sent'[j], t, TagOf(failed, ShouldBeLeft(failed, Some(j))))
    {
      if j < |sent| {
        assert sent'[j] == sent[j] && HasTag(sent[j], t, TagOf(failed, ShouldBeLeft(failed, Some(j))));
      }
    }
  }

  lemma DirectArguments(funcs: seq<Func>, failed: Option<nat>, n: nat, sent: seq<Flow>)
    requires n < |funcs| && |sent| == n && SentTags(funcs, failed, sent) && (failed.Some? ==> n <= failed.value)
    ensures Call(funcs[n].id, GetAll(Tagging(funcs, failed), BoundBefore(funcs, sent, n), funcs[n].inputs)) ==
              DirectCall(funcs, failed, n)
  {
    var w := Tagging(funcs, failed);
    forall i | 0 <= i < |funcs[n].inputs|
      ensures Get(w, BoundBefore(funcs, sent, n), funcs[n].inputs[i]) ==
                TagOf(failed, ClosestEarly(funcs, n, funcs[n].inputs[i]))
    {
      DirectReads(funcs, failed, n, sent, funcs[n].inputs[i]);
    }
  }

  // What is read at position 'n' of the list.
  lemma DirectReads(funcs: seq<Func>, failed: Option<nat>, n: nat, sent: seq<Flow>, t: TypeCode)
    requires n <= |sent| && SentTags(funcs, failed, sent)
    ensures Get(Tagging(funcs, failed), BoundBefore(funcs, sent, n), t) ==
              TagOf(failed, ShouldBeLeft(failed, ClosestEarly(funcs, n, t)))
    ensures (failed.Some? ==> n <= failed.value) ==>
              ShouldBeLeft(failed, ClosestEarly(funcs, n, t)) == ClosestEarly(funcs, n, t)
  {
    hide BoundBefore;
    BoundIs(funcs, sent, n, t);
    var j := ClosestEarly(funcs, n, t);
    if j.Some? {
      assert HasTag(sent[j.value], t, TagOf(failed, ShouldBeLeft(failed, Some(j.value))));
    }
  }

  lemma DirectTraceNext(funcs: seq<Func>, invokeIndex: nat, failed: Option<nat>, n: nat, tr: Trace, tr': Trace)
    requires n < |funcs| && invokeIndex <= |funcs| && MayFail(funcs, failed) && n < EndOf(funcs, failed)
    requires funcs[n].included && InGroup(funcs[n], Statics) && DirectTrace(funcs, invokeIndex, failed, n, tr, tr')
    ensures DirectTrace(funcs, invokeIndex, failed, n + 1, tr, tr' + [DirectCall(funcs, failed, n)])
  {
    DirectCallsNext(funcs, invokeIndex, failed, n, tr, tr');
    hide DirectCalls;
  }

  lemma DirectCallsNext(funcs: seq<Func>, invokeIndex: nat, failed: Option<nat>, n: nat, tr: Trace, tr': Trace)
    requires n < |funcs| && invokeIndex <= |funcs| && DirectCalls(funcs, invokeIndex, failed, n, tr, tr')
    requires funcs[n].included && InGroup(funcs[n], Statics)
    ensures DirectCalls(funcs, invokeIndex, failed, n + 1, tr, tr' + [DirectCall(funcs, failed, n)])
  {
    CountSteps(funcs, invokeIndex, n);
    hide Count, DirectCall, IsAt;
    var tr2 := tr' + [DirectCall(funcs, failed, n)];
    forall k: nat | k < n + 1 && funcs[k].included && InGroup(funcs[k], Statics)
      ensures IsAt(tr2, |tr| + Count(funcs, invokeIndex, k), DirectCall(funcs, failed, k))
    {
      OneMoreEvent(tr', DirectCall(funcs, failed, n), |tr| + Count(funcs, invokeIndex, k),
                   DirectCall(funcs, failed, k));
    }
  }

  lemma OneMoreEvent(tr: Trace, e: Event, at: int, x: Event)
    requires (at == |tr| && x == e) || IsAt(tr, at, x)
    ensures IsAt(tr + [e], at, x)
  {
  }

  lemma DirectTraceSkips(funcs: seq<Func>, invokeIndex: nat, failed: Option<nat>, n: nat, tr: Trace, tr': Trace)
    requires n < |funcs| && invokeIndex <= |funcs| && MayFail(funcs, failed) && n < EndOf(funcs, failed)
    requires !(funcs[n].included && InGroup(funcs[n], Statics)) && DirectTrace(funcs, invokeIndex, failed, n, tr, tr')
    ensures DirectTrace(funcs, invokeIndex, failed, n + 1, tr, tr')
  {
    DirectCallsSkip(funcs, invokeIndex, failed, n, tr, tr');
    hide DirectCalls;
  }

  lemma DirectCallsSkip(funcs: seq<Func>, invokeIndex: nat, failed: Option<nat>, n: nat, tr: Trace, tr': Trace)
    requires n < |funcs| && invokeIndex <= |funcs| && DirectCalls(funcs, invokeIndex, failed, n, tr, tr')
    requires !(funcs[n].included && InGroup(funcs[n], Statics))
    ensures DirectCalls(funcs, invokeIndex, failed, n + 1, tr, tr')
  {
    CountSteps(funcs, invokeIndex, n);
    hide Count, DirectCall, IsAt;
    forall k: nat | k < n + 1 && funcs[k].included && InGroup(funcs[k], Statics)
      ensures IsAt(tr', |tr| + Count(funcs, invokeIndex, k), DirectCall(funcs, failed, k))
    {
      assert k < n;
    }
  }

  // Literals and the init function bind their tags.
  lemma OtherTag(funcs: seq<Func>, invokeIndex: nat, invoke: nat, init: Option<nat>, failed: Option<nat>, n: nat,
                 tr: Trace)
    requires Prepared(funcs, invokeIndex, invoke, init) && Tagged(funcs) && MayFail(funcs, failed) && n < |funcs|
    requires (init.Some? ==> init.value < |funcs|) && Runnable(funcs, InitTags(funcs, init))
    requires !StaticPass(Tagging(funcs, failed), funcs, InitTags(funcs, init), n, tr).failed
    requires !(funcs[n].included && InGroup(funcs[n], Statics))
    ensures
      var x := StaticPass(Tagging(funcs, failed), funcs, InitTags(funcs, init), n + 1, tr).sent[n];
      funcs[n].included && Early(funcs[n]) ==>
        forall t :: t in funcs[n].outputs ==> t in x && x[t] == TagOf(failed, Some(n))
  {
    hide Prepared;
    var f, w := funcs[n], Tagging(funcs, failed);
    FailedIsOne(funcs, failed);
    if f.included && f.kind.Init? {
      IsTheInit(funcs, invokeIndex, invoke, init, n);
      BindCopies(w, map[], f.outputs, InitTags(funcs, init), n);
    }
  }

  lemma IsTheInit(funcs: seq<Func>, invokeIndex: nat, invoke: nat, init: Option<nat>, n: nat)
    requires Prepared(funcs, invokeIndex, invoke, init) && n < |funcs| && funcs[n].kind.Init?
    ensures init == Some(n)
  {
  }

  // ------------------------------------------------------------------ The run phase

  lemma {:induction false} CodedGrows(w: World, chain: seq<Func>, i: nat, down: Flow, tr: Trace)
    requires RunChain(chain) && i < |chain|
    ensures tr + [Call(chain[i].id, GetAll(w, down, chain[i].inputs))] <= RunFrom(AsCoded, w, chain, i, down, tr).trace
    decreases |chain| - i, 1, 0
  {
    var p := chain[i];
    var tr1 := tr + [Call(p.id, GetAll(w, down, p.inputs))];
    if p.kind.Wrapper? {
      CodedInnersGrow(w, chain, i, down, Calls(0, map[], map[], tr1), w.maxCalls(p.id, tr1));
    } else if !p.kind.Final? && !Fails(w, p, tr1) {
      CodedGrows(w, chain, i + 1, Interp.Bind(down, p.outputs, Sent(w, p, tr1)), tr1);
    }
  }

  lemma {:induction false} CodedInnersGrow(w: World, chain: seq<Func>, i: nat, down: Flow, calls: Calls, left: nat)
    requires RunChain(chain) && i + 1 < |chain|
    ensures calls.trace <= RunInner(AsCoded, w, chain, i, down, calls, left).trace
    decreases |chain| - i, 0, left
  {
    if left > 0 && w.wants(chain[i].id, calls.trace) {
      var args := InnerArgs(w, chain[i].id, calls.trace, |chain[i].outputs|);
      CodedGrows(w, chain, i + 1, Interp.Bind(down, chain[i].outputs, args), calls.trace + [Inner(chain[i].id, args)]);
      CodedInnersGrow(w, chain, i, down, OneCall(AsCoded, w, chain, i, down, calls), left - 1);
    }
  }

  lemma {:induction false} ListGrows(w: World, funcs: seq<Func>, invokeIndex: nat, invoke: nat, sent: seq<Flow>,
                                     inputs: seq<Value>, n: nat, down: Flow, tr: Trace)
    requires Phases(funcs, invokeIndex, invoke) && |sent| == |funcs| && |inputs| == |funcs[invoke].outputs|
    requires n <= |funcs|
    ensures
      var o := RunList(w, funcs, invokeIndex, invoke, sent, inputs, n, down, tr);
      && tr <= o.trace
      && (n < |funcs| && n != invoke && funcs[n].included && !Early(funcs[n]) ==>
            tr + [Call(funcs[n].id, GetAll(w, down, funcs[n].inputs))] <= o.trace)
    decreases |funcs| - n, 1, 0
  {
    hide Phases, StaticPhase, RunPhase;
    if n < |funcs| {
      KindsAt(funcs, invokeIndex, invoke, n);
      var f := funcs[n];
      var tr1 := tr + [Call(f.id, GetAll(w, down, f.inputs))];
      if n == invoke {
        ListGrows(w, funcs, invokeIndex, invoke, sent, inputs, n + 1, Interp.Bind(down, f.outputs, inputs), tr);
      } else if !f.included {
        ListGrows(w, funcs, invokeIndex, invoke, sent, inputs, n + 1, down, tr);
      } else if Early(f) {
        ListGrows(w, funcs, invokeIndex, invoke, sent, inputs, n + 1, down + sent[n], tr);
      } else if f.kind.Wrapper? {
        InnersGrow(w, funcs, invokeIndex, invoke, sent, inputs, n, down, Calls(0, map[], map[], tr1),
                   w.maxCalls(f.id, tr1));
      } else if !f.kind.Final? && !Fails(w, f, tr1) {
        ListGrows(w, funcs, invokeIndex, invoke, sent, inputs, n + 1, Interp.Bind(down, f.outputs, Sent(w, f, tr1)),
                  tr1);
      }
    }
  }

  lemma {:induction false} InnersGrow(w: World, funcs: seq<Func>, invokeIndex: nat, invoke: nat, sent: seq<Flow>,
                                      inputs: seq<Value>, n: nat, down: Flow, calls: Calls, left: nat)
    requires Phases(funcs, invokeIndex, invoke) && |sent| == |funcs| && |inputs| == |funcs[invoke].outputs|
    requires n < |funcs|
    ensures calls.trace <= InnerList(w, funcs, invokeIndex, invoke, sent, inputs, n, down, calls, left).trace
    decreases |funcs| - n, 0, left
  {
    hide Phases;
    if left > 0 && w.wants(funcs[n].id, calls.trace) {
      var args := InnerArgs(w, funcs[n].id, calls.trace, |funcs[n].outputs|);
      ListGrows(w, funcs, invokeIndex, invoke, sent, inputs, n + 1, Interp.Bind(down, funcs[n].outputs, args),
                calls.trace + [Inner(funcs[n].id, args)]);
      InnersGrow(w, funcs, invokeIndex, invoke, sent, inputs, n, down,
                 OneCallOn(w, funcs, invokeIndex, invoke, sent, inputs, n, down, calls), left - 1);
    }
  }

  lemma KindsAt(funcs: seq<Func>, invokeIndex: nat, invoke: nat, n: nat)
    requires Phases(funcs, invokeIndex, invoke) && n < |funcs|
    ensures n != invoke && !Early(funcs[n]) ==>
              (InGroup(funcs[n], Runs) && (IsInjector(funcs[n]) || funcs[n].kind.Wrapper?)) || funcs[n].kind.Final?
    ensures n == invoke ==> funcs[n].kind.Invoke? && funcs[n].included
    ensures InGroup(funcs[n], Runs) ==> IsInjector(funcs[n]) || funcs[n].kind.Wrapper?
  {
  }

  // How many events there are before the turn of position 'n', if every wrapper calls inner().
  function Steps(funcs: seq<Func>, n: nat): nat
    requires n <= |funcs|
  {
    if n == 0 then 0
    else
      Steps(funcs, n - 1)
      + if !(funcs[n - 1].included && InGroup(funcs[n - 1], Runs)) then 0 else if funcs[n - 1].kind.Wrapper? then 2
          else 1
  }

  lemma {:induction false} StepsGrow(funcs: seq<Func>, n: nat, m: nat)
    requires n <= m <= |funcs|
    ensures Steps(funcs, n) <= Steps(funcs, m)
  {
    if n < m {
      StepsGrow(funcs, n, m - 1);
    }
  }

  // What the code has at position 'n' of the run phase.
  ghost function RunTag(funcs: seq<Func>, invoke: nat, failed: Option<nat>, base: Flow, n: nat, t: TypeCode): Value
    requires n <= |funcs| && invoke < |funcs|
  {
    var latest := Latest(funcs, n, t, RunOnes);
    if latest.Some? then latest.value
    else if t in funcs[invoke].outputs then invoke
    else Get(Tagging(funcs, failed), base, t)
  }

  ghost predicate RunTags(funcs: seq<Func>, invoke: nat, failed: Option<nat>, base: Flow, n: nat, down: Flow)
    requires n <= |funcs| && invoke < |funcs|
  {
    forall t :: Get(Tagging(funcs, failed), down, t) == RunTag(funcs, invoke, failed, base, n, t)
  }

  ghost function RunCall(funcs: seq<Func>, invoke: nat, failed: Option<nat>, base: Flow, k: nat): Event
    requires k < |funcs| && invoke < |funcs|
  {
    Call(funcs[k].id, seq(|funcs[k].inputs|, i requires 0 <= i < |funcs[k].inputs| =>
                                               RunTag(funcs, invoke, failed, base, k, funcs[k].inputs[i])))
  }

  lemma RunTagsStart(funcs: seq<Func>, invoke: nat, failed: Option<nat>, base: Flow)
    requires invoke < |funcs|
    ensures RunTags(funcs, invoke, failed, base, 0,
                    Interp.Bind(base, funcs[invoke].outputs, Copies(|funcs[invoke].outputs|, invoke)))
  {
    BindCopies(Tagging(funcs, failed), base, funcs[invoke].outputs, Copies(|funcs[invoke].outputs|, invoke), invoke);
  }

  lemma RunTagsNext(funcs: seq<Func>, invoke: nat, failed: Option<nat>, base: Flow, n: nat, down: Flow,
                    values: seq<Value>)
    requires n < |funcs| && invoke < |funcs| && RunTags(funcs, invoke, failed, base, n, down)
    requires |values| == |funcs[n].outputs| && forall k :: 0 <= k < |values| ==> values[k] == n
    ensures if funcs[n].included && InGroup(funcs[n], Runs)
            then RunTags(funcs, invoke, failed, base, n + 1, Interp.Bind(down, funcs[n].outputs, values))
            else RunTags(funcs, invoke, failed, base, n + 1, down)
  {
    hide Latest, Interp.Bind;
    BindCopies(Tagging(funcs, failed), down, funcs[n].outputs, values, n);
    forall t ensures Latest(funcs, n + 1, t, RunOnes) ==
        if funcs[n].included && InGroup(funcs[n], Runs) && t in funcs[n].outputs then Some(n)
        else Latest(funcs, n, t, RunOnes)
    {
      LatestStep(funcs, n, t, RunOnes);
    }
  }

  // Nobody in the run phase fails, and what everybody sends is the position.
  lemma RunResults(funcs: seq<Func>, failed: Option<nat>, n: nat, tr: Trace)
    requires DistinctIds(funcs) && MayFail(funcs, failed) && n < |funcs| && InGroup(funcs[n], Runs)
    ensures IsInjector(funcs[n]) ==>
              && !Fails(Tagging(funcs, failed), funcs[n], tr)
              && forall k :: 0 <= k < |funcs[n].outputs| ==> Sent(Tagging(funcs, failed), funcs[n], tr)[k] == n
    ensures forall k :: 0 <= k < |funcs[n].outputs| ==>
              InnerArgs(Tagging(funcs, failed), funcs[n].id, tr, |funcs[n].outputs|)[k] == n
  {
    FailedIsOne(funcs, failed);
    TagResults(funcs, failed, n, tr, |funcs[n].outputs|);
    TagResults(funcs, failed, n, tr, |funcs[n].outputs| + 1);
  }

  ghost predicate TakerAt(funcs: seq<Func>, k: nat) {
    && k < |funcs| && RunTaker(funcs[k])
    && (funcs[k].kind.Final? ==> forall j: nat :: k < j < |funcs| ==> !RunTaker(funcs[j]))
  }

  // The code gets to everybody in the run phase, and the call tells where the arguments come from.
  lemma {:induction false} CodedReaches(funcs: seq<Func>, invokeIndex: nat, invoke: nat, failed: Option<nat>,
                                        base: Flow,
                                        n: nat, k: nat, down: Flow, tr: Trace)
    requires Phases(funcs, invokeIndex, invoke) && DistinctIds(funcs) && MayFail(funcs, failed)
    requires invoke < |funcs| && n <= k && TakerAt(funcs, k) && RunTags(funcs, invoke, failed, base, n, down)
    ensures
      var c, chain := |Collection(funcs, invokeIndex, Runs, n)|, ChainOf(funcs, invokeIndex);
      && invokeIndex <= |funcs| && RunChain(chain) && c < |chain| && Steps(funcs, n) <= Steps(funcs, k)
      && var o := RunFrom(AsCoded, Tagging(funcs, failed), chain, c, down, tr);
         var at := |tr| + Steps(funcs, k) - Steps(funcs, n);
         at < |o.trace| && o.trace[at] == RunCall(funcs, invoke, failed, base, k)
    decreases k - n
  {
    hide *;
    var w := Tagging(funcs, failed);
    TakerParts(funcs, k);
    RunTurn(funcs, invokeIndex, invoke, n);
    SkipsAside(funcs, invokeIndex, n);
    StepsGrow(funcs, n, k);
    var f, c, chain := funcs[n], |Collection(funcs, invokeIndex, Runs, n)|, ChainOf(funcs, invokeIndex);
    if n == k {
      RunArguments(funcs, invoke, failed, base, n, down);
      CodedGrows(w, chain, c, down, tr);
    } else if f.included && InGroup(f, Runs) {
      StepsStep(funcs, n);
      KindsAt(funcs, invokeIndex, invoke, n);
      var tr1 := tr + [Call(f.id, GetAll(w, down, f.inputs))];
      RunResults(funcs, failed, n, tr1);
      if f.kind.Wrapper? {
        var args := InnerArgs(w, f.id, tr1, |f.outputs|);
        RunTagsNext(funcs, invoke, failed, base, n, down, args);
        CodedReaches(funcs, invokeIndex, invoke, failed, base, n + 1, k, Interp.Bind(down, f.outputs, args),
                     tr1 + [Inner(f.id, args)]);
        CodedCallsInner(funcs, failed, chain, c, n, down, tr);
      } else {
        RunTagsNext(funcs, invoke, failed, base, n, down, Sent(w, f, tr1));
        CodedReaches(funcs, invokeIndex, invoke, failed, base, n + 1, k,
                     Interp.Bind(down, f.outputs, Sent(w, f, tr1)), tr1);
        CodedGoesOn(w, f, chain, c, down, tr);
      }
    } else {
      StepsStep(funcs, n);
      RunTagsNext(funcs, invoke, failed, base, n, down, Copies(|f.outputs|, n));
      CodedReaches(funcs, invokeIndex, invoke, failed, base, n + 1, k, down, tr);
    }
  }

  lemma TakerParts(funcs: seq<Func>, k: nat)
    requires TakerAt(funcs, k)
    ensures k < |funcs| && funcs[k].included && (InGroup(funcs[k], Runs) || funcs[k].kind.Final?)
    ensures funcs[k].kind.Final? ==> forall j: nat :: k < j < |funcs| ==> !RunTaker(funcs[j])
  {
  }

  lemma StepsStep(funcs: seq<Func>, n: nat)
    requires n < |funcs|
    ensures Steps(funcs, n + 1) ==
              Steps(funcs, n)
              + if !(funcs[n].included && InGroup(funcs[n], Runs)) then 0 else if funcs[n].kind.Wrapper? then 2 else 1
  {
  }

  lemma RunArguments(funcs: seq<Func>, invoke: nat, failed: Option<nat>, base: Flow, n: nat, down: Flow)
    requires n < |funcs| && invoke < |funcs| && RunTags(funcs, invoke, failed, base, n, down)
    ensures Call(funcs[n].id, GetAll(Tagging(funcs, failed), down, funcs[n].inputs)) ==
              RunCall(funcs, invoke, failed, base, n)
  {
  }

  lemma CodedGoesOn(w: World, f: Func, chain: seq<Func>, c: nat, down: Flow, tr: Trace)
    requires RunChain(chain) && c + 1 < |chain| && chain[c] == f.(skips := chain[c].skips) && IsInjector(f)
    requires !Fails(w, f, tr + [Call(f.id, GetAll(w, down, f.inputs))]) && !f.kind.Wrapper?
    ensures
      var tr1 := tr + [Call(f.id, GetAll(w, down, f.inputs))];
      RunFrom(AsCoded, w, chain, c, down, tr) ==
        RunFrom(AsCoded, w, chain, c + 1, Interp.Bind(down, f.outputs, Sent(w, f, tr1)), tr1)
  {
  }

  lemma CodedCallsInner(funcs: seq<Func>, failed: Option<nat>, chain: seq<Func>, c: nat, n: nat, down: Flow, tr: Trace)
    requires n < |funcs| && RunChain(chain) && c + 1 < |chain| && chain[c] == funcs[n].(skips := chain[c].skips)
    requires funcs[n].kind.Wrapper?
    ensures
      var w, f := Tagging(funcs, failed), funcs[n];
      var tr1 := tr + [Call(f.id, GetAll(w, down, f.inputs))];
      var args := InnerArgs(w, f.id, tr1, |f.outputs|);
      RunFrom(AsCoded, w, chain, c + 1, Interp.Bind(down, f.outputs, args), tr1 + [Inner(f.id, args)]).trace
        <= RunFrom(AsCoded, w, chain, c, down, tr).trace
  {
    var w, f := Tagging(funcs, failed), funcs[n];
    var tr1 := tr + [Call(f.id, GetAll(w, down, f.inputs))];
    var start := Calls(0, map[], map[], tr1);
    CodedInnersGrow(w, chain, c, down, OneCall(AsCoded, w, chain, c, down, start), 0);
    assert RunInner(AsCoded, w, chain, c, down, start, 1)
        == RunInner(AsCoded, w, chain, c, down, OneCall(AsCoded, w, chain, c, down, start), 0);
  }

  // What should be there at position 'n' of the run phase.
  function ListTag(funcs: seq<Func>, failed: Option<nat>, n: nat, t: TypeCode): Value
    requires n <= |funcs|
  {
    var j := Closest(funcs, n, t);
    if j.None? || Early(funcs[j.value]) then TagOf(failed, ShouldBeLeft(failed, j)) else j.value
  }

  ghost predicate ListTags(funcs: seq<Func>, failed: Option<nat>, n: nat, down: Flow)
    requires n <= |funcs|
  {
    forall t :: Get(Tagging(funcs, failed), down, t) == ListTag(funcs, failed, n, t)
  }

  ghost function ListCall(funcs: seq<Func>, failed: Option<nat>, k: nat): Event
    requires k < |funcs|
  {
    Call(funcs[k].id, seq(|funcs[k].inputs|, i requires 0 <= i < |funcs[k].inputs| =>
                                               ListTag(funcs, failed, k, funcs[k].inputs[i])))
  }

  lemma ClosestStep(funcs: seq<Func>, failed: Option<nat>, n: nat, t: TypeCode)
    requires n < |funcs|
    ensures ListTag(funcs, failed, n + 1, t) ==
              if !(funcs[n].included && t in funcs[n].outputs) then ListTag(funcs, failed, n, t)
              else if Early(funcs[n]) then TagOf(failed, ShouldBeLeft(failed, Some(n))) else n
  {
    LatestStep(funcs, n, t, Anybody);
  }

  lemma ListArguments(funcs: seq<Func>, failed: Option<nat>, n: nat, down: Flow)
    requires n < |funcs| && ListTags(funcs, failed, n, down)
    ensures Call(funcs[n].id, GetAll(Tagging(funcs, failed), down, funcs[n].inputs)) == ListCall(funcs, failed, n)
  {
  }

  // The invoke function and providers of the run phase bind their position, others what they have sent.
  lemma ListTagsNext(funcs: seq<Func>, failed: Option<nat>, n: nat, down: Flow, values: seq<Value>)
    requires n < |funcs| && ListTags(funcs, failed, n, down) && !Early(funcs[n]) && funcs[n].included
    requires |values| == |funcs[n].outputs| && forall k :: 0 <= k < |values| ==> values[k] == n
    ensures ListTags(funcs, failed, n + 1, Interp.Bind(down, funcs[n].outputs, values))
  {
    hide ListTag, Interp.Bind;
    BindCopies(Tagging(funcs, failed), down, funcs[n].outputs, values, n);
    var down' := Interp.Bind(down, funcs[n].outputs, values);
    forall t ensures Get(Tagging(funcs, failed), down', t) == ListTag(funcs, failed, n + 1, t) {
      ClosestStep(funcs, failed, n, t);
    }
  }

  lemma ListTagsEarly(funcs: seq<Func>, failed: Option<nat>, n: nat, down: Flow, sent: seq<Flow>)
    requires n < |funcs| == |sent| && ListTags(funcs, failed, n, down) && SentTags(funcs, failed, sent)
    requires funcs[n].included && Early(funcs[n])
    ensures ListTags(funcs, failed, n + 1, down + sent[n])
  {
    hide ListTag;
    var w, x := Tagging(funcs, failed), sent[n];
    forall t ensures Get(w, down + x, t) == ListTag(funcs, failed, n + 1, t) {
      ClosestStep(funcs, failed, n, t);
      assert t in x <==> t in funcs[n].outputs;
      if t in x {
        assert HasTag(sent[n], t, TagOf(failed, ShouldBeLeft(failed, Some(n))));
      }
    }
  }

  lemma ListTagsSkip(funcs: seq<Func>, failed: Option<nat>, n: nat, down: Flow)
    requires n < |funcs| && ListTags(funcs, failed, n, down) && !funcs[n].included
    ensures ListTags(funcs, failed, n + 1, down)
  {
    hide ListTag;
    forall t ensures Get(Tagging(funcs, failed), down, t) == ListTag(funcs, failed, n + 1, t) {
      ClosestStep(funcs, failed, n, t);
    }
  }

  lemma ListTagsStart(funcs: seq<Func>, failed: Option<nat>)
    ensures ListTags(funcs, failed, 0, map[])
  {
  }

  // In the order of the list everybody up to the final function gets its turn.
  lemma {:induction false} ListReaches(funcs: seq<Func>, invokeIndex: nat, invoke: nat, failed: Option<nat>,
                                       sent: seq<Flow>, n: nat, k: nat, down: Flow, tr: Trace)
    requires Phases(funcs, invokeIndex, invoke) && DistinctIds(funcs) && MayFail(funcs, failed)
    requires invoke < |funcs| == |sent| && n <= k < |funcs| && RunTaker(funcs[k]) && SentTags(funcs, failed, sent)
    requires ListTags(funcs, failed, n, down) && forall j: nat :: n <= j < k ==> !funcs[j].kind.Final?
    ensures Steps(funcs, n) <= Steps(funcs, k)
    ensures
      var inputs := Copies(|funcs[invoke].outputs|, invoke);
      var o := RunList(Tagging(funcs, failed), funcs, invokeIndex, invoke, sent, inputs, n, down, tr);
      var at := |tr| + Steps(funcs, k) - Steps(funcs, n);
      at < |o.trace| && o.trace[at] == ListCall(funcs, failed, k)
    decreases k - n
  {
    hide *;
    var w, inputs, f := Tagging(funcs, failed), Copies(|funcs[invoke].outputs|, invoke), funcs[n];
    StepsGrow(funcs, n, k);
    TakerIs(funcs[k]);
    KindsAt(funcs, invokeIndex, invoke, n);
    KindsAt(funcs, invokeIndex, invoke, k);
    RunListIs(w, funcs, invokeIndex, invoke, sent, inputs, n, down, tr);
    TakerIsLate(funcs[k]);
    if n == k {
      ListArguments(funcs, failed, n, down);
      ListGrows(w, funcs, invokeIndex, invoke, sent, inputs, n, down, tr);
    } else {
      StepsStep(funcs, n);
      if n == invoke {
        InvokeIsNoRun(f);
        InvokeIsLate(f);
        ListTagsNext(funcs, failed, n, down, inputs);
        ListReaches(funcs, invokeIndex, invoke, failed, sent, n + 1, k, Interp.Bind(down, f.outputs, inputs), tr);
      } else if !f.included {
        ListTagsSkip(funcs, failed, n, down);
        ListReaches(funcs, invokeIndex, invoke, failed, sent, n + 1, k, down, tr);
      } else if Early(f) {
        EarlyIsNoRun(f);
        ListTagsEarly(funcs, failed, n, down, sent);
        ListReaches(funcs, invokeIndex, invoke, failed, sent, n + 1, k, down + sent[n], tr);
      } else {
        ListPassesRun(funcs, invokeIndex, invoke, failed, sent, n, k, down, tr);
      }
    }
  }

  lemma TakerIsLate(f: Func)
    requires RunTaker(f)
    ensures !Early(f) && !f.kind.Invoke?
  {
  }

  lemma InvokeIsLate(f: Func)
    requires f.kind.Invoke?
    ensures !Early(f)
  {
  }

  lemma EarlyIsNoRun(f: Func)
    requires Early(f)
    ensures !InGroup(f, Runs)
  {
  }

  lemma {:induction false} ListPassesRun(funcs: seq<Func>, invokeIndex: nat, invoke: nat, failed: Option<nat>,
                                         sent: seq<Flow>, n: nat, k: nat, down: Flow, tr: Trace)
    requires Phases(funcs, invokeIndex, invoke) && DistinctIds(funcs) && MayFail(funcs, failed)
    requires invoke < |funcs| == |sent| && n < k < |funcs| && RunTaker(funcs[k]) && SentTags(funcs, failed, sent)
    requires ListTags(funcs, failed, n, down) && forall j: nat :: n <= j < k ==> !funcs[j].kind.Final?
    requires n != invoke && funcs[n].included && !Early(funcs[n]) && InGroup(funcs[n], Runs)
    ensures Steps(funcs, n) <= Steps(funcs, k)
    ensures
      var inputs := Copies(|funcs[invoke].outputs|, invoke);
      var o := RunList(Tagging(funcs, failed), funcs, invokeIndex, invoke, sent, inputs, n, down, tr);
      var at := |tr| + Steps(funcs, k) - Steps(funcs, n);
      at < |o.trace| && o.trace[at] == ListCall(funcs, failed, k)
    decreases k - n, 0
  {
    hide *;
    var w, inputs, f := Tagging(funcs, failed), Copies(|funcs[invoke].outputs|, invoke), funcs[n];
    StepsGrow(funcs, n, k);
    StepsStep(funcs, n);
    KindsAt(funcs, invokeIndex, invoke, n);
    var tr1 := tr + [Call(f.id, GetAll(w, down, f.inputs))];
    RunResults(funcs, failed, n, tr1);
    if f.kind.Wrapper? {
      var args := InnerArgs(w, f.id, tr1, |f.outputs|);
      ListTagsNext(funcs, failed, n, down, args);
      ListReaches(funcs, invokeIndex, invoke, failed, sent, n + 1, k, Interp.Bind(down, f.outputs, args),
                  tr1 + [Inner(f.id, args)]);
      ListCallsInner(funcs, invokeIndex, invoke, failed, sent, inputs, n, down, tr);
    } else {
      ListTagsNext(funcs, failed, n, down, Sent(w, f, tr1));
      ListReaches(funcs, invokeIndex, invoke, failed, sent, n + 1, k, Interp.Bind(down, f.outputs, Sent(w, f, tr1)),
                  tr1);
      ListGoesOn(w, funcs, invokeIndex, invoke, sent, inputs, n, down, tr);
    }
  }

  lemma ListGoesOn(w: World, funcs: seq<Func>, invokeIndex: nat, invoke: nat, sent: seq<Flow>, inputs: seq<Value>,
                   n: nat, down: Flow, tr: Trace)
    requires Phases(funcs, invokeIndex, invoke) && |sent| == |funcs| && |inputs| == |funcs[invoke].outputs|
    requires n < |funcs| && n != invoke && funcs[n].included && !Early(funcs[n]) && IsInjector(funcs[n])
    requires !Fails(w, funcs[n], tr + [Call(funcs[n].id, GetAll(w, down, funcs[n].inputs))])
    ensures
      var f := funcs[n];
      var tr1 := tr + [Call(f.id, GetAll(w, down, f.inputs))];
      RunList(w, funcs, invokeIndex, invoke, sent, inputs, n, down, tr) ==
        RunList(w, funcs, invokeIndex, invoke, sent, inputs, n + 1, Interp.Bind(down, f.outputs, Sent(w, f, tr1)), tr1)
  {
  }

  lemma ListCallsInner(funcs: seq<Func>, invokeIndex: nat, invoke: nat, failed: Option<nat>, sent: seq<Flow>,
                       inputs: seq<Value>, n: nat, down: Flow, tr: Trace)
    requires Phases(funcs, invokeIndex, invoke) && |sent| == |funcs| && |inputs| == |funcs[invoke].outputs|
    requires n < |funcs| && n != invoke && funcs[n].included && funcs[n].kind.Wrapper?
    ensures
      var w, f := Tagging(funcs, failed), funcs[n];
      var tr1 := tr + [Call(f.id, GetAll(w, down, f.inputs))];
      var args := InnerArgs(w, f.id, tr1, |f.outputs|);
      RunList(w, funcs, invokeIndex, invoke, sent, inputs, n + 1, Interp.Bind(down, f.outputs, args),
              tr1 + [Inner(f.id, args)]).trace
        <= RunList(w, funcs, invokeIndex, invoke, sent, inputs, n, down, tr).trace
  {
    hide Phases;
    var w, f := Tagging(funcs, failed), funcs[n];
    var tr1 := tr + [Call(f.id, GetAll(w, down, f.inputs))];
    var start := Calls(0, map[], map[], tr1);
    InnersGrow(w, funcs, invokeIndex, invoke, sent, inputs, n, down,
               OneCallOn(w, funcs, invokeIndex, invoke, sent, inputs, n, down, start), 0);
    assert InnerList(w, funcs, invokeIndex, invoke, sent, inputs, n, down, start, 1)
        == InnerList(w, funcs, invokeIndex, invoke, sent, inputs, n, down,
                     OneCallOn(w, funcs, invokeIndex, invoke, sent, inputs, n, down, start), 0);
  }
}
