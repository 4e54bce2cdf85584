/**
 The chain a traversal leaves behind, compared with the one it has been given.
 */
module SpliceResult {
  import opened Splice
  import opened SpliceLaws

  // Providers without a directive are in their original relative order.
  ghost predicate Tidy(items: seq<Item>, order: seq<nat>)
    requires forall k :: 0 <= k < |order| ==> order[k] < |items|
  {
    forall k, l :: 0 <= k < l < |order| && !Directed(items[order[k]]) && !Directed(items[order[l]]) ==>
        order[k] < order[l]
  }

  // The provider and its original successor have the same name, which can still be found, and no
  // directive.
  ghost predicate Joined(items: seq<Item>, gone: set<string>, i: nat) {
    && i + 1 < |items| && items[i].origin == items[i + 1].origin && items[i].origin != ""
    && items[i].origin !in gone && !Directed(items[i]) && !Directed(items[i + 1])
  }

  // Such pairs are not separated.
  ghost predicate Together(items: seq<Item>, gone: set<string>, order: seq<nat>) {
    forall k :: 0 <= k < |order| && Joined(items, gone, order[k]) ==> k + 1 < |order| && order[k + 1] == order[k] + 1
  }

  // Directives that have been dealt with have had their effect.
  ghost predicate Effective(items: seq<Item>, s: State) {
    && (forall i: nat :: i < |items| && i in s.order && i in s.done && items[i].replacing != "" ==>
          items[i].replacing in s.gone)
    && (forall g :: g in s.gone ==> g != "" && exists i: nat :: i < |items| && items[i].replacing == g)
  }

  // No provider of the name has a directive.
  ghost predicate Plain(items: seq<Item>, name: string) {
    forall i: nat :: i < |items| && items[i].origin == name ==> !Directed(items[i])
  }

  // Of a name that has been replaced nothing is left, if none of its providers has a directive.
  ghost predicate Gone(items: seq<Item>, s: State) {
    forall i: nat :: i < |items| && items[i].origin in s.gone && Plain(items, items[i].origin) ==> i !in s.order
  }

  ghost predicate Inv(items: seq<Item>, s: State) {
    && StateOk(items, s) && WellDirected(items)
    && Tidy(items, s.order) && Together(items, s.gone, s.order) && Effective(items, s) && Gone(items, s)
  }

  ghost predicate AllDirected(items: seq<Item>, s: seq<nat>) {
    forall x: nat :: x in s ==> x < |items| && Directed(items[x])
  }

  lemma SwapKeepsTidy(items: seq<Item>, s: seq<nat>, a: seq<nat>, b: seq<nat>, c: seq<nat>, d: seq<nat>, s': seq<nat>)
    requires Swap(s, a, b, c, d, s') && forall k :: 0 <= k < |s| ==> s[k] < |items|
    requires Tidy(items, s) && (AllDirected(items, b) || AllDirected(items, c))
    ensures forall k :: 0 <= k < |s'| ==> s'[k] < |items|
    ensures Tidy(items, s')
  {
    ghost var shift := (k: int) => if k < |a| then k else if k < |a| + |c| then k + |b|
        else if k < |a| + |b| + |c| then k - |c| else k;
    assert forall k :: 0 <= k < |s'| ==> 0 <= shift(k) < |s| && s'[k] == s[shift(k)];
    forall k, l | 0 <= k < l < |s'| && !Directed(items[s'[k]]) && !Directed(items[s'[l]]) ensures s'[k] < s'[l] {
      if shift(k) >= shift(l) {
        assert false;
      }
    }
  }

  // No pair is separated where 'order' is cut.
  ghost predicate CutOk(items: seq<Item>, gone: set<string>, s: seq<nat>, at: nat) {
    0 < at < |s| ==> !Joined(items, gone, s[at - 1])
  }

  lemma SwapKeepsTogether(items: seq<Item>, gone: set<string>, s: seq<nat>, a: seq<nat>, b: seq<nat>, c: seq<nat>,
                          d: seq<nat>, s': seq<nat>)
    requires Swap(s, a, b, c, d, s') && Together(items, gone, s)
    requires CutOk(items, gone, s, |a|) && CutOk(items, gone, s, |a| + |b|) && CutOk(items, gone, s, |a| + |b| + |c|)
    ensures Together(items, gone, s')
  {
    hide Joined;
    ghost var shift := (k: int) => if k < |a| then k else if k < |a| + |c| then k + |b|
        else if k < |a| + |b| + |c| then k - |c| else k;
    assert forall k :: 0 <= k < |s'| ==> 0 <= shift(k) < |s| && s'[k] == s[shift(k)];
    forall k | 0 <= k < |s'| && Joined(items, gone, s'[k]) ensures k + 1 < |s'| && s'[k + 1] == s'[k] + 1 {
      var j := shift(k);
      assert s[j] == s'[k] && j + 1 < |s| && s[j + 1] == s[j] + 1;
      assert j + 1 != |a| && j + 1 != |a| + |b| && j + 1 != |a| + |b| + |c|;
      assert shift(k + 1) == j + 1;
    }
  }

  lemma JoinedBefore(items: seq<Item>, gone: set<string>, gone': set<string>)
    requires gone <= gone'
    ensures forall i: nat :: Joined(items, gone', i) ==> Joined(items, gone, i)
  {
  }

  lemma CutKeepsTogether(items: seq<Item>, gone: set<string>, gone': set<string>, a: seq<nat>, b: seq<nat>, c: seq<nat>)
    requires Together(items, gone, a + b + c) && gone <= gone'
    requires a != [] && !Joined(items, gone', a[|a| - 1])
    requires b != [] && !Joined(items, gone', b[|b| - 1])
    ensures Together(items, gone', a + c)
  {
    var s, s' := a + b + c, a + c;
    hide Joined;
    JoinedBefore(items, gone, gone');
    forall k | 0 <= k < |s'| && Joined(items, gone', s'[k]) ensures k + 1 < |s'| && s'[k + 1] == s'[k] + 1 {
      if k < |a| {
        assert s[k] == s'[k] == a[k] && k + 1 < |s|;
        assert k + 1 < |a| && s[k + 1] == a[k + 1];
      } else {
        assert s[k + |b|] == s'[k] && k + 1 < |s'|;
        assert s[k + |b| + 1] == s'[k + 1];
      }
    }
  }

  lemma FirstNamedIsFirst(items: seq<Item>, name: string, from: nat, i: nat)
    requires from <= i < |items| && items[i].origin == name
    ensures FirstNamed(items, name, from) <= i
    decreases |items| - from
  {
  }

  lemma LastNamedIsLast(items: seq<Item>, i: nat)
    requires i < |items|
    ensures forall j: nat :: i <= j <= LastNamed(items, i) ==> items[j].origin == items[i].origin
    ensures LastNamed(items, i) + 1 < |items| ==> items[LastNamed(items, i) + 1].origin != items[i].origin
    decreases |items| - i
  {
    if i + 1 < |items| && items[i + 1].origin == items[i].origin {
      LastNamedIsLast(items, i + 1);
    }
  }

  // A block goes in front of the first or behind the last provider of a name: that separates no pair.
  lemma TargetIsCutOk(items: seq<Item>, s: State, name: string, last: bool)
    requires Inv(items, s) && Findable(items, s.gone, name)
    ensures CutOk(items, s.gone, s.order, TargetAt(items, s, name, last) + if last then 1 else 0)
  {
    var first, t := FirstNamed(items, name, 0), TargetAt(items, s, name, last);
    TargetIs(items, s, name, last);
    LastNamedIsLast(items, first);
    var at := t + if last then 1 else 0;
    if 0 < at < |s.order| && Joined(items, s.gone, s.order[at - 1]) {
      assert s.order[at] == s.order[at - 1] + 1;
      if !last {
        FirstNamedIsFirst(items, name, 0, s.order[t - 1]);
      }
    }
  }

  lemma BlockDirected(items: seq<Item>, s: State, op: Op, name: string)
    requires AtDirective(items, s, op, name)
    ensures AllDirected(items, s.order[s.k..End(items, s)])
    ensures CutOk(items, s.gone, s.order, End(items, s))
    ensures Together(items, s.gone, s.order) ==> CutOk(items, s.gone, s.order, s.k)
  {
    BlocksApart(items, s, items[s.order[s.k]], name);
  }

  lemma MovedKeeps(items: seq<Item>, gone: set<string>, order: seq<nat>, m: nat, e: nat, at: nat)
    requires m <= e <= |order| && at <= |order| && (at <= m || e <= at)
    requires (forall k :: 0 <= k < |order| ==> order[k] < |items|) && Tidy(items, order) && Together(items, gone, order)
    requires CutOk(items, gone, order, m) && CutOk(items, gone, order, e) && CutOk(items, gone, order, at)
    requires AllDirected(items, order[m..e])
    ensures forall k :: 0 <= k < |Moved(order, m, e, at)| ==> Moved(order, m, e, at)[k] < |items|
    ensures Tidy(items, Moved(order, m, e, at)) && Together(items, gone, Moved(order, m, e, at))
  {
    hide *;
    var a, b, c, d := MovedIsSwap(order, m, e, at);
    SwapKeepsTidy(items, order, a, b, c, d, Moved(order, m, e, at));
    SwapKeepsTogether(items, gone, order, a, b, c, d, Moved(order, m, e, at));
  }

  // All providers of a name without directives stand together where the first of them is.
  lemma {:induction false} NamesInARow(items: seq<Item>, s: State, name: string, j: nat)
    requires Inv(items, s) && Findable(items, s.gone, name) && name != "" && Plain(items, name)
    requires FirstNamed(items, name, 0) + j <= LastNamed(items, FirstNamed(items, name, 0))
    ensures
      var t := TargetAt(items, s, name, false);
      t + j < BlockEnd(items, s.order, t, Named(name)) && s.order[t + j] == FirstNamed(items, name, 0) + j
  {
    hide *;
    InvParts(items, s);
    var first, t := FirstNamed(items, name, 0), TargetAt(items, s, name, false);
    if j > 0 {
      NamesInARow(items, s, name, j - 1);
      NextInRow(items, s, name, first + j - 1, t + j - 1);
    } else {
      TargetIs(items, s, name, false);
    }
  }

  lemma TargetIs(items: seq<Item>, s: State, name: string, last: bool)
    requires StateOk(items, s) && Findable(items, s.gone, name)
    ensures
      var first := FirstNamed(items, name, 0);
      && first < |items| && items[first].origin == name
      && s.order[TargetAt(items, s, name, last)] == if last then LastNamed(items, first) else first
  {
    FirstNamedIs(items, name, 0);
    LastNamedIs(items, FirstNamed(items, name, 0));
  }

  lemma NextInRow(items: seq<Item>, s: State, name: string, i: nat, k: nat)
    requires Inv(items, s) && Findable(items, s.gone, name) && name != "" && Plain(items, name)
    requires FirstNamed(items, name, 0) <= i < LastNamed(items, FirstNamed(items, name, 0))
    requires k < BlockEnd(items, s.order, TargetAt(items, s, name, false), Named(name)) && s.order[k] == i
    requires TargetAt(items, s, name, false) <= k
    ensures k + 1 < BlockEnd(items, s.order, TargetAt(items, s, name, false), Named(name)) && s.order[k + 1] == i + 1
  {
    hide TargetAt, Inv, Duplicated, StateOk, BlockEnd;
    InvParts(items, s);
    TargetIs(items, s, name, false);
    LastNamedIsLast(items, FirstNamed(items, name, 0));
    assert items[i].origin == name && items[i + 1].origin == name;
    assert Joined(items, s.gone, s.order[k]);
    BlockFacts(items, s.order, TargetAt(items, s, name, false), Named(name));
  }

  lemma InvParts(items: seq<Item>, s: State)
    requires Inv(items, s)
    ensures forall k :: 0 <= k < |s.order| ==> s.order[k] < |items|
    ensures StateOk(items, s) && Together(items, s.gone, s.order) && Tidy(items, s.order) && Effective(items, s)
  {
  }

  // Nothing of a name without directives is left outside the block that is replaced.
  lemma VictimsAreAll(items: seq<Item>, s: State, name: string, i: nat)
    requires Inv(items, s) && AtDirective(items, s, Replace, name) && Findable(items, s.gone, name) && name != ""
    requires Plain(items, name) && i < |items| && items[i].origin == name
    ensures var (t, u) := Victims(items, s, name); i in s.order[t..u]
  {
    hide *;
    InvParts(items, s);
    AtParts(items, s, Replace, name);
    InTheFirstRow(items, s.gone, name, i);
    var first := FirstNamed(items, name, 0);
    NamesInARow(items, s, name, i - first);
    VictimsStart(items, s, name);
    var (t, u) := Victims(items, s, name);
    assert s.order[t..u][i - first] == i;
  }

  lemma InTheFirstRow(items: seq<Item>, gone: set<string>, name: string, i: nat)
    requires Findable(items, gone, name) && i < |items| && items[i].origin == name
    ensures FirstNamed(items, name, 0) <= i <= LastNamed(items, FirstNamed(items, name, 0))
  {
    FirstNamedIsFirst(items, name, 0, i);
  }

  lemma ReplacedKeeps(items: seq<Item>, gone: set<string>, gone': set<string>, order: seq<nat>, m: nat, e: nat,
                      t: nat, u: nat)
    requires t < u <= |order| && m < e <= |order| && (e <= t || u <= m) && gone <= gone'
    requires (forall k :: 0 <= k < |order| ==> order[k] < |items|) && Tidy(items, order) && Together(items, gone, order)
    requires CutOk(items, gone, order, m) && CutOk(items, gone, order, e) && CutOk(items, gone, order, t)
    requires AllDirected(items, order[m..e]) && items[order[u - 1]].origin in gone'
    ensures forall k :: 0 <= k < |Replaced(order, m, e, t, u)| ==> Replaced(order, m, e, t, u)[k] < |items|
    ensures Tidy(items, Replaced(order, m, e, t, u)) && Together(items, gone', Replaced(order, m, e, t, u))
  {
    hide Moved, Replaced, Together, Tidy, CutOk;
    MovedKeeps(items, gone, order, m, e, t);
    ReplacedIsMovedAndCut(order, m, e, t, u);
    var a := if e <= t then order[..m] + order[e..t] + order[m..e] else order[..t] + order[m..e];
    var b := order[t..u];
    var c := if e <= t then order[u..] else order[u..m] + order[e..];
    assert a[|a| - 1] == order[m..e][e - m - 1] && b[|b| - 1] == order[u - 1];
    CutKeepsTogether(items, gone, gone', a, b, c);
    CutKeepsTidy(items, a, b, c);
  }

  lemma CutKeepsTidy(items: seq<Item>, a: seq<nat>, b: seq<nat>, c: seq<nat>)
    requires (forall k :: 0 <= k < |a + b + c| ==> (a + b + c)[k] < |items|) && Tidy(items, a + b + c)
    ensures (forall k :: 0 <= k < |a + c| ==> (a + c)[k] < |items|) && Tidy(items, a + c)
  {
    var s, s' := a + b + c, a + c;
    ghost var shift := (k: int) => if k < |a| then k else k + |b|;
    assert forall k :: 0 <= k < |s'| ==> 0 <= shift(k) < |s| && s'[k] == s[shift(k)];
  }

  lemma ApplyParts(items: seq<Item>, s: State, op: Op, name: string)
    requires AtDirective(items, s, op, name) && Apply(items, s, op, name).Next?
    ensures Findable(items, s.gone, name) && name != ""
    ensures Apply(items, s, op, name).s.gone == if op == Replace then s.gone + {name} else s.gone
    ensures Apply(items, s, op, name).s.order ==
              if op == Replace then
                var (t, u) := Victims(items, s, name); Replaced(s.order, s.k, End(items, s), t, u)
              else Moved(s.order, s.k, End(items, s), Destination(items, s, op, name))
  {
  }

  lemma InsertKeepsOrder(items: seq<Item>, s: State, op: Op, name: string)
    requires Inv(items, s) && AtDirective(items, s, op, name) && op != Replace && Apply(items, s, op, name).Next?
    ensures
      var s' := Apply(items, s, op, name).s;
      (forall k :: 0 <= k < |s'.order| ==> s'.order[k] < |items|) && Tidy(items, s'.order)
          && Together(items, s'.gone, s'.order)
  {
    hide *;
    InvParts(items, s);
    AtParts(items, s, op, name);
    ApplyParts(items, s, op, name);
    var at := Destination(items, s, op, name);
    TargetIsCutOk(items, s, name, op == After);
    DestinationIs(items, s, op, name);
    BlockDirected(items, s, op, name);
    MovedKeeps(items, s.gone, s.order, s.k, End(items, s), at);
  }

  lemma ReplaceKeepsOrder(items: seq<Item>, s: State, name: string)
    requires Inv(items, s) && AtDirective(items, s, Replace, name) && Apply(items, s, Replace, name).Next?
    ensures
      var s' := Apply(items, s, Replace, name).s;
      (forall k :: 0 <= k < |s'.order| ==> s'.order[k] < |items|) && Tidy(items, s'.order)
          && Together(items, s'.gone, s'.order)
  {
    hide *;
    InvParts(items, s);
    AtParts(items, s, Replace, name);
    ApplyParts(items, s, Replace, name);
    var (t, u) := Victims(items, s, name);
    TargetIsCutOk(items, s, name, false);
    VictimsStart(items, s, name);
    BlockDirected(items, s, Replace, name);
    ReplacedKeeps(items, s.gone, s.gone + {name}, s.order, s.k, End(items, s), t, u);
  }

  lemma AtParts(items: seq<Item>, s: State, op: Op, name: string)
    requires AtDirective(items, s, op, name)
    ensures StateOk(items, s) && s.k < |s.order| && Positions(items, s.order)
  {
  }

  lemma DestinationIs(items: seq<Item>, s: State, op: Op, name: string)
    requires AtDirective(items, s, op, name) && Findable(items, s.gone, name) && op != Replace
    ensures Destination(items, s, op, name) == TargetAt(items, s, name, op == After) + if op == After then 1 else 0
  {
  }

  lemma VictimsStart(items: seq<Item>, s: State, name: string)
    requires AtDirective(items, s, Replace, name) && Findable(items, s.gone, name)
    ensures Victims(items, s, name).0 == TargetAt(items, s, name, false)
    ensures Victims(items, s, name).1 == BlockEnd(items, s.order, Victims(items, s, name).0, Named(name))
  {
  }

  // The directives of a block that has been moved.
  lemma BlockDirectives(items: seq<Item>, s: State, op: Op, name: string, i: nat)
    requires AtDirective(items, s, op, name) && i in s.order[s.k..End(items, s)] && i < |items|
    ensures items[i].replacing != "" ==> op == Replace && items[i].replacing == name
  {
    BlockFacts(items, s.order, s.k, Tagged(op, name));
    assert TargetOf(items[i], op) == name && name != "" && DirectiveCount(items[i]) <= 1;
  }

  lemma EffectiveStays(items: seq<Item>, s: State, op: Op, name: string, moved: seq<nat>, dropped: seq<nat>,
                       p: seq<nat>, q: seq<nat>)
    requires Inv(items, s) && AtDirective(items, s, op, name) && Apply(items, s, op, name).Next?
    requires Goes(items, s, Apply(items, s, op, name).s, moved, dropped, p, q) && moved == s.order[s.k..End(items, s)]
    ensures Effective(items, Apply(items, s, op, name).s)
  {
    hide *;
    InvParts(items, s);
    AtParts(items, s, op, name);
    var s' := Apply(items, s, op, name).s;
    ApplyParts(items, s, op, name);
    forall i: nat | i < |items| && i in s'.order && i in s'.done && items[i].replacing != ""
      ensures items[i].replacing in s'.gone
    {
      GoesDone(items, s, s', moved, dropped, p, q, i);
      if i in moved {
        BlockDirectives(items, s, op, name, i);
      } else {
        EffectiveIs(items, s, i);
      }
    }
    if op == Replace {
      ReplacerIsThere(items, s, name);
    }
    EffectiveFrom(items, s, s', name);
  }

  lemma EffectiveIs(items: seq<Item>, s: State, i: nat)
    requires Effective(items, s) && i < |items| && i in s.order && i in s.done && items[i].replacing != ""
    ensures items[i].replacing in s.gone
  {
  }

  lemma EffectiveFrom(items: seq<Item>, s: State, s': State, name: string)
    requires Effective(items, s)
    requires s'.gone == s.gone
             || (s'.gone == s.gone + {name} && name != "" && exists i: nat :: i < |items| && items[i].replacing == name)
    requires forall i: nat :: i < |items| && i in s'.order && i in s'.done && items[i].replacing != "" ==>
               items[i].replacing in s'.gone
    ensures Effective(items, s')
  {
  }

  lemma GoesDone(items: seq<Item>, s: State, s': State, moved: seq<nat>, dropped: seq<nat>, p: seq<nat>, q: seq<nat>,
                 i: nat)
    requires Goes(items, s, s', moved, dropped, p, q) && i in s'.order && i in s'.done
    ensures i in moved || (i in s.order && i in s.done)
    ensures s.gone <= s'.gone
  {
  }

  lemma ReplacerIsThere(items: seq<Item>, s: State, name: string)
    requires AtDirective(items, s, Replace, name)
    ensures name != "" && exists i: nat :: i < |items| && items[i].replacing == name
  {
  }

  lemma GoneStays(items: seq<Item>, s: State, op: Op, name: string, moved: seq<nat>, dropped: seq<nat>, p: seq<nat>,
                  q: seq<nat>)
    requires Inv(items, s) && AtDirective(items, s, op, name) && Apply(items, s, op, name).Next?
    requires Goes(items, s, Apply(items, s, op, name).s, moved, dropped, p, q)
    requires op == Replace && Findable(items, s.gone, name) ==>
               dropped == s.order[Victims(items, s, name).0..Victims(items, s, name).1]
    ensures Gone(items, Apply(items, s, op, name).s)
  {
    hide Apply, End, Findable, StateOk, Tidy, Together, Effective, Victims, AtDirective;
    var s' := Apply(items, s, op, name).s;
    ApplyParts(items, s, op, name);
    forall i: nat | i < |items| && items[i].origin in s'.gone && Plain(items, items[i].origin) ensures i !in s'.order {
      if items[i].origin !in s.gone {
        VictimsAreAll(items, s, name, i);
      }
    }
  }

  lemma ApplyKeeps(items: seq<Item>, s: State, op: Op, name: string)
    requires Inv(items, s) && AtDirective(items, s, op, name) && s.order[s.k] !in s.done
             && Apply(items, s, op, name).Next?
    ensures Inv(items, Apply(items, s, op, name).s)
  {
    hide Apply, End, Findable, StateOk, Tidy, Together, Effective, Victims, AtDirective, Goes, Gone, WellDirected;
    InvParts(items, s);
    var s' := Apply(items, s, op, name).s;
    var moved, dropped, p, q := ApplyGoes(items, s, op, name);
    GoesIsOk(items, s, s', moved, dropped, p, q);
    if op == Replace {
      ReplaceKeepsOrder(items, s, name);
    } else {
      InsertKeepsOrder(items, s, op, name);
    }
    EffectiveStays(items, s, op, name, moved, dropped, p, q);
    GoneStays(items, s, op, name, moved, dropped, p, q);
  }

  lemma {:induction false} TraverseKeeps(items: seq<Item>, s: State)
    requires Inv(items, s) && Traverse(items, s).Next?
    ensures Inv(items, Traverse(items, s).s) && Traverse(items, s).s.k == |Traverse(items, s).s.order|
    decreases Undone(s), |s.order| - s.k
  {
    if s.k < |s.order| {
      StepIsOk(items, s);
      StepKeeps(items, s);
      TraverseKeeps(items, Step(items, s).s);
    }
  }

  lemma StepKeeps(items: seq<Item>, s: State)
    requires Inv(items, s) && s.k < |s.order| && Step(items, s).Next?
    ensures Inv(items, Step(items, s).s)
  {
    if Pending(items, s) {
      var x := items[s.order[s.k]];
      ApplyKeeps(items, s, OpOf(x), TargetOf(x, OpOf(x)));
    } else {
      StepIsOk(items, s);
    }
  }

  // What the caller gets, unless an error is reported or the chain is torn: every provider at most
  // once; those without directives in their original order; only providers missing whose name
  // has been replaced.
  lemma ChainAfterwards(items: seq<Item>)
    requires WellDirected(items) && Traverse(items, Start(items)).Next?
    ensures
      var order := Traverse(items, Start(items)).s.order;
      && Positions(items, order) && Tidy(items, order)
      && forall i: nat :: i < |items| && i !in order ==>
           items[i].origin != "" && exists j: nat :: j < |items| && items[j].replacing == items[i].origin
  {
    StartInv(items);
    TraverseKeeps(items, Start(items));
    var s := Traverse(items, Start(items)).s;
    forall i: nat | i < |items| && i !in s.order
      ensures items[i].origin != "" && exists j: nat :: j < |items| && items[j].replacing == items[i].origin
    {
      assert items[i].origin in s.gone;
    }
  }

  lemma StartInv(items: seq<Item>)
    requires WellDirected(items)
    ensures Inv(items, Start(items))
  {
  }

  // If no provider that is to be replaced has a directive of its own, exactly the providers are
  // missing whose name some directive asks to replace.
  lemma ExactlyTheReplacedAreMissing(items: seq<Item>, i: nat)
    requires WellDirected(items) && Traverse(items, Start(items)).Next? && i < |items|
    requires forall j: nat :: j < |items| && items[j].replacing != "" ==> Plain(items, items[j].replacing)
    ensures i !in Traverse(items, Start(items)).s.order <==>
              items[i].origin != "" && exists j: nat :: j < |items| && items[j].replacing == items[i].origin
  {
    hide Traverse, Start, Positions, Tidy, Plain, WellDirected;
    ChainAfterwards(items);
    AllHaveHadTheirEffect(items);
    var order := Traverse(items, Start(items)).s.order;
    if items[i].origin != "" && exists j: nat :: j < |items| && items[j].replacing == items[i].origin {
      var j: nat :| j < |items| && items[j].replacing == items[i].origin;
      if j !in order {
        // somebody replaces the name of 'j', so that 'j' has no directive
        var l: nat :| l < |items| && items[l].replacing == items[j].origin;
        PlainMeans(items, items[l].replacing, j);
        assert false;
      }
      assert ReplacedBy(items, order, items[i].origin, j);
    }
  }

  lemma PlainMeans(items: seq<Item>, name: string, j: nat)
    requires Plain(items, name) && j < |items| && items[j].origin == name
    ensures items[j].replacing == ""
  {
  }

  // Provider 'j' is still there and replaces a name of providers without directives.
  ghost predicate ReplacedBy(items: seq<Item>, order: seq<nat>, name: string, j: nat) {
    j < |items| && j in order && name != "" && items[j].replacing == name && Plain(items, name)
  }

  lemma AllHaveHadTheirEffect(items: seq<Item>)
    requires WellDirected(items) && Traverse(items, Start(items)).Next?
    ensures
      var order := Traverse(items, Start(items)).s.order;
      forall i: nat, j: nat :: i < |items| && ReplacedBy(items, order, items[i].origin, j) ==> i !in order
  {
    StartInv(items);
    TraverseKeeps(items, Start(items));
    var s := Traverse(items, Start(items)).s;
    assert s.order[..s.k] == s.order;
    forall j: nat | j < |items| && j in s.order && items[j].replacing != "" ensures items[j].replacing in s.gone {
      assert j in s.done;
    }
  }

  // A replacement that stands on both sides of what it replaces is lost.
  const LEFT: Item := Item("", "target", "", "")
  const TARGET: Item := Item("target", "", "", "")

  lemma TornApart()
    ensures WellDirected([LEFT, TARGET, LEFT])
    ensures Traverse([LEFT, TARGET, LEFT], Start([LEFT, TARGET, LEFT])) == Torn([])
  {
    var items := [LEFT, TARGET, LEFT];
    var s := Start(items);
    assert items[0] == LEFT && items[1] == TARGET && items[2] == LEFT;
    assert s.order == [0, 1, 2];
    assert FirstNamed(items, "target", 0) == 1;
    assert LastNamed(items, 1) == 1;
    assert IndexOf(s.order, 1) == 1;
    assert End(items, s) == 1;
    assert BlockEnd(items, s.order, 1, Named("target")) == 2;
    assert BlockEnd(items, s.order, 2, Tagged(Replace, "target")) == 3;
  }

  // An insertion behind the last node, which the tail does not know yet.
  const BEHIND: Item := Item("", "", "", "target")

  lemma NilPointerFollowed()
    ensures WellDirected([BEHIND, TARGET])
    ensures Traverse([BEHIND, TARGET], Start([BEHIND, TARGET])) == Crashed
  {
    var items := [BEHIND, TARGET];
    var s := Start(items);
    assert items[0] == BEHIND && items[1] == TARGET;
    assert s.order == [0, 1];
    assert FirstNamed(items, "target", 0) == 1;
    assert LastNamed(items, 1) == 1;
    assert IndexOf(s.order, 1) == 1;
    assert AtDirective(items, s, After, "target");
  }

  // A replace directive whose target can be found tears the chain, losing the providers that carry it,
  // exactly if they stand on both sides of what they replace.
  lemma TornExactlyIfSandwiched(items: seq<Item>, s: State, name: string)
    requires AtDirective(items, s, Replace, name) && Findable(items, s.gone, name)
    ensures
      var (t, u) := Victims(items, s, name);
      var o := Apply(items, s, Replace, name);
      && (o.Torn? <==> Sandwiched(items, s.order, End(items, s), t, u, name))
      && (o.Torn? ==> s.order[s.k] !in o.order)
      && (o.Next? ==> s.order[s.k] in o.s.order)
  {
    hide StateOk, AtDirective, BlockEnd, Replaced, Resume, TargetAt, Victims;
    AtParts(items, s, Replace, name);
    StateIsDistinct(items, s);
    var (t, u) := Victims(items, s, name);
    if !Sandwiched(items, s.order, End(items, s), t, u, name) {
      var p, q := ExchangeGoes(items, s, name, t, u);
    }
  }

  // The chain without the block that is next.
  ghost function WithoutBlock(items: seq<Item>, s: State): seq<nat>
    requires Positions(items, s.order) && s.k < |s.order|
  {
    s.order[..s.k] + s.order[End(items, s)..]
  }

  // After an insert directive the block stands directly before the first, or directly behind the last,
  // provider of the name, and nothing else has moved.
  lemma InsertedAtTarget(items: seq<Item>, s: State, op: Op, name: string) returns (a: seq<nat>, b: seq<nat>)
    requires AtDirective(items, s, op, name) && op != Replace && Apply(items, s, op, name).Next?
    ensures
      var block, target := s.order[s.k..End(items, s)], s.order[TargetAt(items, s, name, op == After)];
      && WithoutBlock(items, s) == a + [target] + b
      && Apply(items, s, op, name).s.order == if op == Before then a + block + [target] + b
         else a + [target] + block + b
  {
    hide *;
    AtParts(items, s, op, name);
    ApplyParts(items, s, op, name);
    DestinationIs(items, s, op, name);
    TargetOutside(items, s, op, name);
    WithoutBlockIs(items, s);
    var t := TargetAt(items, s, name, op == After);
    if op == Before {
      a, b := MovedBefore(s.order, s.k, End(items, s), t);
    } else {
      a, b := MovedAfter(s.order, s.k, End(items, s), t);
    }
  }

  lemma WithoutBlockIs(items: seq<Item>, s: State)
    requires Positions(items, s.order) && s.k < |s.order|
    ensures WithoutBlock(items, s) == s.order[..s.k] + s.order[End(items, s)..]
  {
  }

  // After a replace directive the block stands in the place of all the providers it replaces, and nothing
  // else has moved.
  lemma ReplacedInPlace(items: seq<Item>, s: State, name: string) returns (a: seq<nat>, b: seq<nat>)
    requires AtDirective(items, s, Replace, name) && Apply(items, s, Replace, name).Next?
    ensures Findable(items, s.gone, name)
    ensures
      var block, (t, u) := s.order[s.k..End(items, s)], Victims(items, s, name);
      && WithoutBlock(items, s) == a + s.order[t..u] + b
      && Apply(items, s, Replace, name).s.order == a + block + b
      && (forall i :: t <= i < u ==> items[s.order[i]].origin == name)
  {
    hide *;
    AtParts(items, s, Replace, name);
    ApplyParts(items, s, Replace, name);
    WithoutBlockIs(items, s);
    VictimsStart(items, s, name);
    PositionsBounded(items, s.order);
    var (t, u) := Victims(items, s, name);
    a, b := ReplacedBlock(s.order, s.k, End(items, s), t, u);
  }

  lemma PositionsBounded(items: seq<Item>, order: seq<nat>)
    requires Positions(items, order)
    ensures forall k :: 0 <= k < |order| ==> order[k] < |items|
  {
  }

  lemma ReplacedBlock(order: seq<nat>, m: nat, e: nat, t: nat, u: nat) returns (a: seq<nat>, b: seq<nat>)
    requires m < e <= |order| && t < u <= |order| && (e <= t || u <= m)
    ensures order[..m] + order[e..] == a + order[t..u] + b
    ensures Replaced(order, m, e, t, u) == a + order[m..e] + b
  {
    if e <= t {
      a, b := order[..m] + order[e..t], order[u..];
      assert order[e..] == order[e..t] + order[t..u] + order[u..];
    } else {
      a, b := order[..t], order[u..m] + order[e..];
      assert order[..m] == order[..t] + order[t..u] + order[u..m];
    }
  }

  lemma TargetOutside(items: seq<Item>, s: State, op: Op, name: string)
    requires AtDirective(items, s, op, name) && Findable(items, s.gone, name)
    ensures TargetAt(items, s, name, op == After) < s.k || End(items, s) <= TargetAt(items, s, name, op == After)
  {
    var t := TargetAt(items, s, name, op == After);
    BlocksDisjoint(items, s, items[s.order[s.k]], name, t, t + 1);
  }

  lemma MovedAt(order: seq<nat>, m: nat, e: nat, at: nat) returns (p: seq<nat>, q: seq<nat>)
    requires m < e <= |order| && at <= |order| && (at <= m || e <= at)
    ensures Moved(order, m, e, at) == p + order[m..e] + q && order[..m] + order[e..] == p + q
    ensures at < |order| && at != m ==> q != [] && q[0] == order[at]
    ensures 0 < at && at != e ==> p != [] && p[|p| - 1] == order[at - 1]
  {
    if at <= m {
      p, q := order[..at], order[at..m] + order[e..];
    } else {
      p, q := order[..m] + order[e..at], order[at..];
    }
  }

  lemma MovedBefore(order: seq<nat>, m: nat, e: nat, t: nat) returns (a: seq<nat>, b: seq<nat>)
    requires m < e <= |order| && t < |order| && (t < m || e <= t)
    ensures Moved(order, m, e, t) == a + order[m..e] + [order[t]] + b
    ensures order[..m] + order[e..] == a + [order[t]] + b
  {
    hide Moved;
    var p, q := MovedAt(order, m, e, t);
    a, b := p, q[1..];
    assert q == [order[t]] + b;
  }

  lemma MovedAfter(order: seq<nat>, m: nat, e: nat, t: nat) returns (a: seq<nat>, b: seq<nat>)
    requires m < e <= |order| && t < |order| && (t < m || e <= t)
    ensures Moved(order, m, e, t + 1) == a + [order[t]] + order[m..e] + b
    ensures order[..m] + order[e..] == a + [order[t]] + b
  {
    hide Moved;
    var p, q := MovedAt(order, m, e, t + 1);
    a, b := p[..|p| - 1], q;
    assert p == a + [order[t]];
  }

  // What a replace directive makes of the state.
  lemma ReplaceApplied(items: seq<Item>, s: State, name: string)
    requires AtDirective(items, s, Replace, name) && Findable(items, s.gone, name)
    ensures
      var t := TargetAt(items, s, name, false);
      var e, u := BlockEnd(items, s.order, s.k, Tagged(Replace, name)), BlockEnd(items, s.order, t, Named(name));
      var o := Apply(items, s, Replace, name);
      && (e <= t || u <= s.k)
      && if Sandwiched(items, s.order, e, t, u, name)
         then o == Torn(s.order[..s.k] + s.order[BlockEnd(items, s.order, u, Tagged(Replace, name))..])
         else
           var order, next := Replaced(s.order, s.k, e, t, u), if e == t then u else e;
           && o == Next(State(order, s.done + Block(s.order, s.k, e) + Block(s.order, t, u), s.gone + {name},
                              s.tailSet || u == |s.order| || e == |s.order|, Resume(s.order, next, order)))
           && (next < |s.order| ==> s.order[next] in order)
  {
    hide StateOk, BlockEnd, Replaced, Resume, TargetAt, Findable;
    AtParts(items, s, Replace, name);
    VictimsStart(items, s, name);
    var (t, u) := Victims(items, s, name);
    var e := End(items, s);
    StateIsDistinct(items, s);
    if !Sandwiched(items, s.order, e, t, u, name) {
      ReplacedMembers(s.order, s.k, e, t, u);
    }
  }

  // What an insert directive makes of the state.
  lemma InsertApplied(items: seq<Item>, s: State, op: Op, name: string)
    requires AtDirective(items, s, op, name) && op != Replace && Findable(items, s.gone, name)
    ensures
      var t := TargetAt(items, s, name, op == After);
      var e := BlockEnd(items, s.order, s.k, Tagged(op, name));
      var o := Apply(items, s, op, name);
      && (t < s.k || e <= t)
      && if op == After && t + 1 == |s.order| && !s.tailSet then o == Crashed
         else
           var order := Moved(s.order, s.k, e, if op == Before then t else t + 1);
           && o == Next(State(order, s.done + Block(s.order, s.k, e), s.gone, s.tailSet || e == |s.order|,
                              Resume(s.order, e, order)))
           && (e < |s.order| ==> s.order[e] in order)
  {
    hide StateOk, BlockEnd, Moved, Resume, TargetAt, Findable;
    AtParts(items, s, op, name);
    DestinationIs(items, s, op, name);
    TargetOutside(items, s, op, name);
    StateIsDistinct(items, s);
    MovedMembers(s.order, s.k, End(items, s), Destination(items, s, op, name));
    SameAre(s.order, Moved(s.order, s.k, End(items, s), Destination(items, s, op, name)));
  }
}
