/**
 What replace.go does to a chain of named providers, on sequences: blocks are cut and spliced in at
 their targets, one directive after the other.  Providers are identified by their original position.
 */
module Splice {
  import opened Basics

  // The name of a provider and its directives; "" stands for none.
  datatype Item = Item(origin: string, replacing: string, before: string, after: string)

  datatype Op = Replace | Before | After

  // What the members of a block have in common: a name, or a directive.
  datatype Mark = Named(name: string) | Tagged(op: Op, name: string)

  predicate Directed(x: Item) {
    x.replacing != "" || x.before != "" || x.after != ""
  }

  function DirectiveCount(x: Item): nat {
    (if x.replacing != "" then 1 else 0) + (if x.before != "" then 1 else 0) + (if x.after != "" then 1 else 0)
  }

  function OpOf(x: Item): Op {
    if x.replacing != "" then Replace else if x.before != "" then Before else After
  }

  function TargetOf(x: Item, op: Op): string {
    match op
    case Replace => x.replacing
    case Before => x.before
    case After => x.after
  }

  predicate Has(x: Item, mark: Mark) {
    match mark
    case Named(name) => x.origin == name
    case Tagged(op, name) => TargetOf(x, op) == name
  }

  // No provider has more than one directive, and none refers to its own name.
  ghost predicate WellDirected(items: seq<Item>) {
    && (forall i: nat :: i < |items| ==> DirectiveCount(items[i]) <= 1)
    && NoSelfTarget(items)
  }

  ghost predicate NoSelfTarget(items: seq<Item>) {
    forall i: nat :: i < |items| && Directed(items[i]) ==> TargetOf(items[i], OpOf(items[i])) != items[i].origin
  }

  // Different positions of 'items', in some order.
  ghost predicate Positions(items: seq<Item>, order: seq<nat>) {
    && (forall k :: 0 <= k < |order| ==> order[k] < |items|)
    && Distinct(order)
  }

  // The end of the block that starts at 'from'.
  function BlockEnd(items: seq<Item>, order: seq<nat>, from: nat, mark: Mark): (e: nat)
    requires from < |order| && forall k :: 0 <= k < |order| ==> order[k] < |items|
    ensures from < e <= |order|
    decreases |order| - from
  {
    if from + 1 < |order| && Has(items[order[from + 1]], mark) then BlockEnd(items, order, from + 1, mark) else from + 1
  }

  lemma {:induction false} BlockFacts(items: seq<Item>, order: seq<nat>, from: nat, mark: Mark)
    requires from < |order| && forall k :: 0 <= k < |order| ==> order[k] < |items|
    ensures
      var e := BlockEnd(items, order, from, mark);
      && (forall k :: from < k < e ==> Has(items[order[k]], mark))
      && (e < |order| ==> !Has(items[order[e]], mark))
    decreases |order| - from
  {
    if from + 1 < |order| && Has(items[order[from + 1]], mark) {
      BlockFacts(items, order, from + 1, mark);
    }
  }

  function IndexOf(s: seq<nat>, x: nat): (k: nat)
    ensures k <= |s| && (k < |s| ==> s[k] == x) && (k == |s| <==> x !in s)
  {
    if s == [] then 0 else if s[0] == x then 0 else 1 + IndexOf(s[1..], x)
  }

  lemma IndexIs(s: seq<nat>, k: nat)
    requires k < |s| && forall i, j :: 0 <= i < j < |s| ==> s[i] != s[j]
    ensures IndexOf(s, s[k]) == k
  {
  }

  // The first provider of a name, and the last one of the block it starts.
  function FirstNamed(items: seq<Item>, name: string, from: nat): (i: nat)
    requires from <= |items|
    ensures from <= i <= |items|
    decreases |items| - from
  {
    if from == |items| || items[from].origin == name then from else FirstNamed(items, name, from + 1)
  }

  function LastNamed(items: seq<Item>, i: nat): (j: nat)
    requires i < |items|
    ensures i <= j < |items|
    decreases |items| - i
  {
    if i + 1 < |items| && items[i + 1].origin == items[i].origin then LastNamed(items, i + 1) else i
  }

  ghost predicate Duplicated(items: seq<Item>, name: string) {
    var i := FirstNamed(items, name, 0);
    i < |items| && exists j: nat :: LastNamed(items, i) < j < |items| && items[j].origin == name
  }

  // The traversal: the chain as it is, whose directives have been dealt with, the names that have been
  // replaced, whether the last node of the chain is known to the tail, and where the traversal is.
  datatype State = State(order: seq<nat>, done: set<nat>, gone: set<string>, tailSet: bool, k: nat)

  // 'Crashed' stands for following a nil pointer, 'Torn' for a chain that has lost a block.
  datatype Outcome = Next(s: State) | Failed | Crashed | Torn(order: seq<nat>)

  ghost predicate Findable(items: seq<Item>, gone: set<string>, name: string) {
    name !in gone && FirstNamed(items, name, 0) < |items| && !Duplicated(items, name)
  }

  function Block(order: seq<nat>, from: nat, to: nat): set<nat>
    requires from <= to <= |order|
  {
    set x | x in order[from..to]
  }

  // The block from 'm' up to 'e' is cut and put in front of position 'at'.
  function Moved(order: seq<nat>, m: nat, e: nat, at: nat): seq<nat>
    requires m <= e <= |order| && at <= |order| && (at <= m || e <= at)
  {
    if at <= m then order[..at] + order[m..e] + order[at..m] + order[e..]
    else order[..m] + order[e..at] + order[m..e] + order[at..]
  }

  // The block from 'm' up to 'e' takes the place of the one from 't' up to 'u'.
  function Replaced(order: seq<nat>, m: nat, e: nat, t: nat, u: nat): seq<nat>
    requires t <= u <= |order| && m <= e <= |order| && (e <= t || u <= m)
  {
    if e <= t then order[..m] + order[e..t] + order[m..e] + order[u..]
    else order[..t] + order[m..e] + order[u..m] + order[e..]
  }

  // Where the traversal goes on: at the node that followed the block that has been moved.
  function Resume(order: seq<nat>, next: nat, order': seq<nat>): nat
    requires next <= |order|
  {
    if next == |order| then |order'| else IndexOf(order', order[next])
  }

  ghost predicate StateOk(items: seq<Item>, s: State) {
    && Positions(items, s.order) && s.k <= |s.order|
    && (forall i: nat :: i < |items| && i !in s.order ==> items[i].origin in s.gone)
    && (forall i: nat :: i in s.order[..s.k] && Directed(items[i]) ==> i in s.done)
  }

  // The block with the directive that is next.
  ghost function End(items: seq<Item>, s: State): (e: nat)
    requires Positions(items, s.order) && s.k < |s.order|
    ensures s.k < e <= |s.order|
  {
    var x := items[s.order[s.k]];
    BlockEnd(items, s.order, s.k, Tagged(OpOf(x), TargetOf(x, OpOf(x))))
  }

  lemma FirstNamedIs(items: seq<Item>, name: string, from: nat)
    requires from <= |items|
    ensures FirstNamed(items, name, from) < |items| ==> items[FirstNamed(items, name, from)].origin == name
    decreases |items| - from
  {
  }

  lemma LastNamedIs(items: seq<Item>, i: nat)
    requires i < |items|
    ensures items[LastNamed(items, i)].origin == items[i].origin
    decreases |items| - i
  {
  }

  // The position in the chain of the first (last) provider of a name that can still be found.
  ghost function TargetAt(items: seq<Item>, s: State, name: string, last: bool): (t: nat)
    requires StateOk(items, s) && Findable(items, s.gone, name)
    ensures t < |s.order| && items[s.order[t]].origin == name
  {
    var first := FirstNamed(items, name, 0);
    FirstNamedIs(items, name, 0);
    LastNamedIs(items, first);
    IndexOf(s.order, if last then LastNamed(items, first) else first)
  }

  // No block with a directive reaches into a block it refers to.
  lemma BlocksApart(items: seq<Item>, s: State, x: Item, name: string)
    requires StateOk(items, s) && WellDirected(items) && s.k < |s.order|
    requires x == items[s.order[s.k]] && Directed(x) && name == TargetOf(x, OpOf(x))
    ensures forall i :: s.k <= i < End(items, s) ==> items[s.order[i]].origin != name && Directed(items[s.order[i]])
  {
    BlockFacts(items, s.order, s.k, Tagged(OpOf(x), name));
    forall i | s.k <= i < End(items, s) ensures items[s.order[i]].origin != name && Directed(items[s.order[i]]) {
      var y := items[s.order[i]];
      assert TargetOf(y, OpOf(x)) == name && name != "" && DirectiveCount(y) <= 1;
    }
  }

  lemma BlocksDisjoint(items: seq<Item>, s: State, x: Item, name: string, t: nat, u: nat)
    requires StateOk(items, s) && WellDirected(items) && s.k < |s.order|
    requires x == items[s.order[s.k]] && Directed(x) && name == TargetOf(x, OpOf(x))
    requires t < u <= |s.order| && forall i :: t <= i < u ==> items[s.order[i]].origin == name
    ensures End(items, s) <= t || u <= s.k
  {
    BlocksApart(items, s, x, name);
    var first, here := items[s.order[t]].origin, items[s.order[s.k]].origin;
    assert t < s.k || End(items, s) <= t;
    assert !(t <= s.k < u);
  }

  // The providers to be replaced stand between two blocks that are both to replace them.
  ghost predicate Sandwiched(items: seq<Item>, order: seq<nat>, e: nat, t: nat, u: nat, name: string)
    requires u <= |order| && Positions(items, order)
  {
    e == t && u < |order| && items[order[u]].replacing == name
  }

  ghost predicate AtDirective(items: seq<Item>, s: State, op: Op, name: string) {
    && StateOk(items, s) && WellDirected(items) && s.k < |s.order|
    && Directed(items[s.order[s.k]]) && op == OpOf(items[s.order[s.k]]) && name == TargetOf(items[s.order[s.k]], op)
  }

  // Cutting the block that is next and putting it in front of position 'at'.
  ghost function Move(items: seq<Item>, s: State, at: nat): Outcome
    requires StateOk(items, s) && s.k < |s.order| && at <= |s.order| && (at <= s.k || End(items, s) <= at)
  {
    var e := End(items, s);
    var order := Moved(s.order, s.k, e, at);
    Next(State(order, s.done + Block(s.order, s.k, e), s.gone, s.tailSet || e == |s.order|, Resume(s.order, e, order)))
  }

  // Cutting the block that is next and putting it in the place of the one from 't' up to 'u'.
  ghost function Exchange(items: seq<Item>, s: State, name: string, t: nat, u: nat): Outcome
    requires StateOk(items, s) && s.k < |s.order| && t < u <= |s.order| && (End(items, s) <= t || u <= s.k)
  {
    var e := End(items, s);
    if Sandwiched(items, s.order, e, t, u, name) then
      var e' := BlockEnd(items, s.order, u, Tagged(Replace, name));
      Torn(s.order[..s.k] + s.order[e'..])
    else
      var order := Replaced(s.order, s.k, e, t, u);
      Next(State(order, s.done + Block(s.order, s.k, e) + Block(s.order, t, u), s.gone + {name},
                 s.tailSet || u == |s.order| || e == |s.order|,
                 Resume(s.order, if e == t then u else e, order)))
  }

  // The providers to be replaced.
  ghost function Victims(items: seq<Item>, s: State, name: string): (r: (nat, nat))
    requires AtDirective(items, s, Replace, name) && Findable(items, s.gone, name)
    ensures r.0 < r.1 <= |s.order| && (End(items, s) <= r.0 || r.1 <= s.k)
    ensures forall i :: r.0 <= i < r.1 ==> items[s.order[i]].origin == name
  {
    var t := TargetAt(items, s, name, false);
    var u := BlockEnd(items, s.order, t, Named(name));
    BlockFacts(items, s.order, t, Named(name));
    BlocksDisjoint(items, s, items[s.order[s.k]], name, t, u);
    (t, u)
  }

  // Where a block with an insert directive goes.
  ghost function Destination(items: seq<Item>, s: State, op: Op, name: string): (at: nat)
    requires AtDirective(items, s, op, name) && Findable(items, s.gone, name) && op != Replace
    ensures at <= |s.order| && (at <= s.k || End(items, s) <= at)
  {
    var t := TargetAt(items, s, name, op == After);
    BlocksDisjoint(items, s, items[s.order[s.k]], name, t, t + 1);
    if op == After then t + 1 else t
  }

  // One directive.
  ghost function Apply(items: seq<Item>, s: State, op: Op, name: string): (o: Outcome)
    requires AtDirective(items, s, op, name)
  {
    if !Findable(items, s.gone, name) then Failed
    else if op == Replace then
      var (t, u) := Victims(items, s, name);
      Exchange(items, s, name, t, u)
    else
      var at := Destination(items, s, op, name);
      if at == |s.order| && !s.tailSet then Crashed else Move(items, s, at)
  }
}
