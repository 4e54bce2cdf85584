/**
 utils.go: Curry.  A function is called with some of its arguments filled in beforehand: which parameter
 of the original function is fed from where.
 */
module Curry {
  import opened Basics

  // The positions below 'n' at which a type occurs, in order.
  function Occurrences(s: seq<TypeCode>, t: TypeCode, n: nat): seq<nat>
    requires n <= |s|
  {
    if n == 0 then []
    else Occurrences(s, t, n - 1) + if s[n - 1] == t then [n - 1] else []
  }

  function All(s: seq<TypeCode>, t: TypeCode): seq<nat> {
    Occurrences(s, t, |s|)
  }

  // The positions below 'n' whose type does not occur in 'other', in order.
  function Missing(s: seq<TypeCode>, other: seq<TypeCode>, n: nat): (r: seq<nat>)
    requires n <= |s|
    ensures forall k :: 0 <= k < |r| ==> r[k] < n
  {
    if n == 0 then []
    else Missing(s, other, n - 1) + if s[n - 1] !in other then [n - 1] else []
  }

  lemma {:induction false} OccurrencesAre(s: seq<TypeCode>, t: TypeCode, n: nat)
    requires n <= |s|
    ensures forall k :: 0 <= k < |Occurrences(s, t, n)| ==>
              Occurrences(s, t, n)[k] < n
              && s[Occurrences(s, t, n)[k]] == t
    ensures forall k, l :: 0 <= k < l < |Occurrences(s, t, n)| ==> Occurrences(s, t, n)[k] < Occurrences(s, t, n)[l]
    ensures forall p: nat :: p < n && s[p] == t ==> p in Occurrences(s, t, n)
  {
    if n > 0 {
      OccurrencesAre(s, t, n - 1);
    }
  }

  lemma {:induction false} MissingAre(s: seq<TypeCode>, other: seq<TypeCode>, n: nat)
    requires n <= |s|
    ensures forall k :: 0 <= k < |Missing(s, other, n)| ==>
              Missing(s, other, n)[k] < n
              && s[Missing(s, other, n)[k]] !in other
    ensures forall k, l :: 0 <= k < l < |Missing(s, other, n)| ==> Missing(s, other, n)[k] < Missing(s, other, n)[l]
    ensures forall p: nat :: p < n && s[p] !in other ==> p in Missing(s, other, n)
  {
    if n > 0 {
      MissingAre(s, other, n - 1);
    }
  }

  // What Curry works out.
  datatype Maps = Maps(passMap: seq<nat>, curryMap: seq<nat>, curried: seq<TypeCode>)

  // The k-th parameter of a type of the curried function feeds the k-th parameter of that type of the
  // original one; the others are injected.
  ghost predicate Feeds(original: seq<TypeCode>, current: seq<TypeCode>, m: Maps) {
    && |m.passMap| == |current|
    && m.curryMap == Missing(original, current, |original|)
    && |m.curried| == |m.curryMap|
    && (forall k :: 0 <= k < |m.curried| ==> m.curryMap[k] < |original| && m.curried[k] == original[m.curryMap[k]])
    && (forall t :: t in current ==> FedInOrder(original, current, m.passMap, t, |original|))
    && (forall t :: t in current ==> |All(original, t)| == |All(current, t)|)
  }

  ghost predicate FedInOrder(original: seq<TypeCode>, current: seq<TypeCode>, passMap: seq<nat>, t: TypeCode, n: nat)
    requires n <= |original|
  {
    && |Occurrences(original, t, n)| <= |All(current, t)|
    && forall k :: 0 <= k < |Occurrences(original, t, n)| ==>
         All(current, t)[k] < |passMap| && passMap[All(current, t)[k]] == Occurrences(original, t, n)[k]
  }

  // Every parameter of the original function is fed exactly once, with its type.
  ghost predicate Complete(original: seq<TypeCode>, current: seq<TypeCode>, m: Maps) {
    && |m.passMap| == |current| && |m.curryMap| == |m.curried| && |current| + |m.curried| == |original|
    && (forall j :: 0 <= j < |current| ==> m.passMap[j] < |original| && original[m.passMap[j]] == current[j])
    && (forall j :: 0 <= j < |m.curried| ==> m.curryMap[j] < |original| && original[m.curryMap[j]] == m.curried[j])
    && (forall j, l :: 0 <= j < l < |current| ==> m.passMap[j] != m.passMap[l])
    && (forall j, l :: 0 <= j < l < |m.curried| ==> m.curryMap[j] < m.curryMap[l])
    && (forall j, l :: 0 <= j < |current| && 0 <= l < |m.curried| ==> m.passMap[j] != m.curryMap[l])
    && (forall p: nat :: p < |original| ==> p in m.passMap || p in m.curryMap)
  }

  // The parameter of the original function that parameter 'j' of the curried one feeds.
  lemma PassedOn(original: seq<TypeCode>, current: seq<TypeCode>, m: Maps, j: nat) returns (k: nat)
    requires Feeds(original, current, m) && j < |current|
    ensures k < |All(current, current[j])| == |All(original, current[j])|
    ensures All(current, current[j])[k] == j && m.passMap[j] == All(original, current[j])[k]
    ensures m.passMap[j] < |original| && original[m.passMap[j]] == current[j]
  {
    var t := current[j];
    assert t in current;
    OccurrencesAre(current, t, |current|);
    OccurrencesAre(original, t, |original|);
    k :| 0 <= k < |All(current, t)| && All(current, t)[k] == j;
    assert FedInOrder(original, current, m.passMap, t, |original|);
  }

  // Parameters of one type keep their order.
  lemma OrderIsKept(original: seq<TypeCode>, current: seq<TypeCode>, m: Maps, j: nat, l: nat)
    requires Feeds(original, current, m) && j < l < |current| && current[j] == current[l]
    ensures |m.passMap| == |current| && m.passMap[j] < m.passMap[l]
  {
    var t := current[j];
    var k := PassedOn(original, current, m, j);
    var k' := PassedOn(original, current, m, l);
    OccurrencesAre(current, t, |current|);
    OccurrencesAre(original, t, |original|);
    assert k < k';
  }

  lemma PassedOnOnce(original: seq<TypeCode>, current: seq<TypeCode>, m: Maps, j: nat, l: nat)
    requires Feeds(original, current, m) && j < l < |current|
    ensures |m.passMap| == |current| && m.passMap[j] != m.passMap[l]
  {
    var k := PassedOn(original, current, m, j);
    var k' := PassedOn(original, current, m, l);
    OccurrencesAre(original, current[j], |original|);
  }

  lemma PassedOnAll(original: seq<TypeCode>, current: seq<TypeCode>, m: Maps, p: nat)
    requires Feeds(original, current, m) && p < |original| && original[p] in current
    ensures p in m.passMap
  {
    var t := original[p];
    OccurrencesAre(original, t, |original|);
    var k :| 0 <= k < |All(original, t)| && All(original, t)[k] == p;
    assert FedInOrder(original, current, m.passMap, t, |original|);
  }

  lemma Injected(original: seq<TypeCode>, current: seq<TypeCode>, m: Maps)
    requires Feeds(original, current, m)
    ensures |m.passMap| == |current| && |m.curried| == |m.curryMap|
    ensures forall j :: 0 <= j < |m.curried| ==>
              && m.curryMap[j] < |original| && original[m.curryMap[j]] == m.curried[j]
              && original[m.curryMap[j]] !in current
    ensures forall j, l :: 0 <= j < l < |m.curried| ==> m.curryMap[j] < m.curryMap[l]
    ensures forall p: nat :: p < |original| && original[p] !in current ==> p in m.curryMap
  {
    MissingAre(original, current, |original|);
  }

  // Whatever Curry works out leaves no gaps and fills none twice.
  lemma NoGaps(original: seq<TypeCode>, current: seq<TypeCode>, m: Maps)
    requires Feeds(original, current, m)
    ensures Complete(original, current, m)
  {
    hide Feeds;
    Injected(original, current, m);
    forall j: nat | j < |current| ensures m.passMap[j] < |original| && original[m.passMap[j]] == current[j] {
      var k := PassedOn(original, current, m, j);
    }
    forall j: nat, l: nat | j < l < |current| ensures m.passMap[j] != m.passMap[l] {
      PassedOnOnce(original, current, m, j, l);
    }
    forall j: nat, l: nat | j < |current| && l < |m.curried| ensures m.passMap[j] != m.curryMap[l] {
      assert current[j] in current;
    }
    forall p: nat | p < |original| && original[p] in current ensures p in m.passMap {
      PassedOnAll(original, current, m, p);
    }
    Pigeonholes(m.passMap + m.curryMap, |original|);
  }

  // Different numbers below 'n', and all of them, are 'n' numbers.
  lemma {:induction false} Pigeonholes(s: seq<nat>, n: nat)
    requires (forall k, l :: 0 <= k < l < |s| ==> s[k] != s[l]) && (forall k :: 0 <= k < |s| ==> s[k] < n)
    requires forall p: nat :: p < n ==> p in s
    ensures |s| == n
  {
    if n > 0 {
      var top: nat := n - 1;
      assert top in s;
      var k :| 0 <= k < |s| && s[k] == top;
      var rest := s[..k] + s[k + 1..];
      forall p: nat | p < n - 1 ensures p in rest {
        assert p in s;
        var j :| 0 <= j < |s| && s[j] == p;
        assert s[j] == if j < k then rest[j] else rest[j - 1];
      }
      Pigeonholes(rest, n - 1);
    }
  }

  datatype Result = Curried(maps: Maps) | Failed

  // When Curry succeeds.
  ghost predicate Curriable(original: seq<TypeCode>, current: seq<TypeCode>, outputs: seq<TypeCode>,
                            currentOutputs: seq<TypeCode>, isFunc: TypeCode -> bool) {
    && outputs == currentOutputs && |current| < |original|
    && (forall t :: t in current ==> |All(original, t)| == |All(current, t)|)
    && (forall t :: t !in current ==> |All(original, t)| <= 1)
    && var injected := Missing(original, current, |original|);
       injected != [] ==> !isFunc(original[injected[0]])
  }

  // The index of the types up to position 'n'.
  ghost predicate Indexed(current: seq<TypeCode>, n: nat, ntypes: map<TypeCode, seq<nat>>)
    requires n <= |current|
  {
    forall t :: PositionsOf(ntypes, t) == Occurrences(current, t, n)
        && (t in ntypes <==> Occurrences(current, t, n) != [])
  }

  lemma IndexedOne(current: seq<TypeCode>, i: nat, ntypes: map<TypeCode, seq<nat>>)
    requires i < |current| && Indexed(current, i, ntypes)
    ensures Indexed(current, i + 1, ntypes[current[i] := PositionsOf(ntypes, current[i]) + [i]])
  {
    hide Occurrences;
    forall t
      ensures Occurrences(current, t, i + 1) == Occurrences(current, t, i) + if current[i] == t then [i] else []
    {
      NextOccurrence(current, t, i);
    }
  }

  // Where the parameters of each type of the curried function are.
  method IndexTypes(current: seq<TypeCode>) returns (ntypes: map<TypeCode, seq<nat>>)
    ensures forall t :: t in ntypes <==> t in current
    ensures forall t :: t in ntypes ==> ntypes[t] == All(current, t)
  {
    hide Indexed;
    ntypes := map[];
    NothingIndexed(current);
    for i := 0 to |current|
      invariant Indexed(current, i, ntypes)
    {
      IndexedOne(current, i, ntypes);
      ntypes := ntypes[current[i] := PositionsOf(ntypes, current[i]) + [i]];
    }
    AllIndexed(current, ntypes);
  }

  lemma NothingIndexed(current: seq<TypeCode>)
    ensures Indexed(current, 0, map[])
  {
  }

  lemma AllIndexed(current: seq<TypeCode>, ntypes: map<TypeCode, seq<nat>>)
    requires Indexed(current, |current|, ntypes)
    ensures forall t :: t in ntypes <==> t in current
    ensures forall t :: t in ntypes ==> ntypes[t] == All(current, t)
  {
    forall t ensures t in ntypes <==> t in current {
      OccurrencesAre(current, t, |current|);
      if t in ntypes {
        assert PositionsOf(ntypes, t)[0] < |current|;
      }
    }
  }
  function PositionsOf(ntypes: map<TypeCode, seq<nat>>, t: TypeCode): seq<nat> {
    if t in ntypes then ntypes[t] else []
  }

  function Used(used: map<TypeCode, nat>, t: TypeCode): nat {
    if t in used then used[t] else 0
  }

  // The loop over the parameters of the original function, up to 'i'.
  ghost predicate SoFar(original: seq<TypeCode>, current: seq<TypeCode>, i: nat, used: map<TypeCode, nat>,
                        already: set<TypeCode>, m: Maps)
    requires i <= |original|
  {
    && |m.passMap| == |current|
    && (forall t :: t in current ==>
          FedInOrder(original, current, m.passMap, t, i)
          && Used(used, t) == |Occurrences(original, t, i)|)
    && m.curryMap == Missing(original, current, i)
    && |m.curried| == |m.curryMap| && (forall k :: 0 <= k < |m.curried| ==> m.curried[k] == original[m.curryMap[k]])
    && (forall t :: t !in current ==> |Occurrences(original, t, i)| == if t in already then 1 else 0)
  }

  method Curry(original: seq<TypeCode>, outputs: seq<TypeCode>, current: seq<TypeCode>, currentOutputs: seq<TypeCode>,
               isFunc: TypeCode -> bool)
    returns (r: Result)
    ensures r.Curried? <==> Curriable(original, current, outputs, currentOutputs, isFunc)
    ensures r.Curried? ==> Feeds(original, current, r.maps)
  {
    if outputs != currentOutputs {
      return Failed;
    }
    var ntypes := IndexTypes(current);
    if |original| - |current| < 1 {
      return Failed;
    }
    var ok, used, already, m := FeedAll(original, current, ntypes);
    if !ok {
      return Failed;
    }
    var all := AllUsed(ntypes, used);
    if !all {
      return Failed;
    }
    if |m.curried| > 0 && isFunc(m.curried[0]) {
      return Failed;
    }
    return Curried(m);
  }

  // The types do not match up.
  ghost predicate Mismatched(original: seq<TypeCode>, current: seq<TypeCode>) {
    exists t :: |All(original, t)| > if t in current then |All(current, t)| else 1
  }

  // The loop over the parameters of the original function.
  method FeedAll(original: seq<TypeCode>, current: seq<TypeCode>, ntypes: map<TypeCode, seq<nat>>)
    returns (ok: bool, used: map<TypeCode, nat>, already: set<TypeCode>, m: Maps)
    requires forall t :: t in ntypes <==> t in current
    requires forall t :: t in ntypes ==> ntypes[t] == All(current, t)
    ensures !ok ==> Mismatched(original, current)
    ensures ok ==> SoFar(original, current, |original|, used, already, m)
  {
    hide *;
    ok, used, already, m := false, map[], {}, Maps(seq(|current|, _ => 0), [], []);
    NothingYet(original, current, m);
    for i := 0 to |original|
      invariant SoFar(original, current, i, used, already, m)
    {
      var t := original[i];
      TooMany(original, current, i, used, already, m);
      if t in ntypes {
        var k := if t in used then used[t] else 0;
        UsedIs(used, t);
        if k < |ntypes[t]| {
          PassOne(original, current, i, used, already, m);
          m := m.(passMap := m.passMap[ntypes[t][k] := i]);
          used := used[t := k + 1];
        } else {
          return;
        }
      } else {
        if t in already {
          return;
        }
        CurryOne(original, current, i, used, already, m);
        already := already + {t};
        m := m.(curryMap := m.curryMap + [i], curried := m.curried + [t]);
      }
    }
    ok := true;
  }

  method AllUsed(ntypes: map<TypeCode, seq<nat>>, used: map<TypeCode, nat>) returns (all: bool)
    ensures all <==> forall t :: t in ntypes ==> |ntypes[t]| <= Used(used, t)
  {
    all := AllUsedAmong(ntypes, used, ntypes.Keys);
  }

  method AllUsedAmong(ntypes: map<TypeCode, seq<nat>>, used: map<TypeCode, nat>, keys: set<TypeCode>)
    returns (all: bool)
    ensures all <==> forall t :: t in keys && t in ntypes ==> |ntypes[t]| <= Used(used, t)
    decreases |keys|
  {
    all := true;
    if keys != {} {
      assert (forall t :: t !in keys) ==> keys == {};
      var t :| t in keys;
      all := AllUsedAmong(ntypes, used, keys - {t});
      all := all && (t in ntypes ==> |ntypes[t]| <= Used(used, t));
    }
  }

  lemma UsedIs(used: map<TypeCode, nat>, t: TypeCode)
    ensures Used(used, t) == if t in used then used[t] else 0
  {
  }

  lemma NothingYet(original: seq<TypeCode>, current: seq<TypeCode>, m: Maps)
    requires m == Maps(m.passMap, [], []) && |m.passMap| == |current|
    ensures SoFar(original, current, 0, map[], {}, m)
  {
  }

  lemma {:induction false} MoreOccurrences(s: seq<TypeCode>, t: TypeCode, i: nat, n: nat)
    requires i <= n <= |s|
    ensures |Occurrences(s, t, i)| <= |Occurrences(s, t, n)|
    decreases n - i
  {
    if i < n {
      MoreOccurrences(s, t, i, n - 1);
    }
  }

  // Why Curry gives up in the loop.
  lemma TooMany(original: seq<TypeCode>, current: seq<TypeCode>, i: nat, used: map<TypeCode, nat>,
                already: set<TypeCode>, m: Maps)
    requires i < |original| && SoFar(original, current, i, used, already, m)
    ensures
      var t := original[i];
      (if t in current then Used(used, t) >= |All(current, t)| else t in already) ==> Mismatched(original, current)
  {
    var t := original[i];
    MoreOccurrences(original, t, i + 1, |original|);
    assert |Occurrences(original, t, i + 1)| == |Occurrences(original, t, i)| + 1;
  }

  lemma AllAre(s: seq<TypeCode>, t: TypeCode)
    ensures forall k :: 0 <= k < |All(s, t)| ==> All(s, t)[k] < |s| && s[All(s, t)[k]] == t
    ensures forall k, l :: 0 <= k < l < |All(s, t)| ==> All(s, t)[k] < All(s, t)[l]
  {
    OccurrencesAre(s, t, |s|);
  }

  lemma NextOccurrence(s: seq<TypeCode>, t: TypeCode, i: nat)
    requires i < |s|
    ensures Occurrences(s, t, i + 1) == Occurrences(s, t, i) + if s[i] == t then [i] else []
  {
  }

  lemma NextMissing(s: seq<TypeCode>, other: seq<TypeCode>, i: nat)
    requires i < |s|
    ensures s[i] in other ==> Missing(s, other, i + 1) == Missing(s, other, i)
  {
  }

  // A parameter that is not injected.
  lemma PassOne(original: seq<TypeCode>, current: seq<TypeCode>, i: nat, used: map<TypeCode, nat>,
                already: set<TypeCode>, m: Maps)
    requires i < |original| && SoFar(original, current, i, used, already, m) && original[i] in current
    requires Used(used, original[i]) < |All(current, original[i])|
    ensures
      var t := original[i];
      var k := All(current, t)[Used(used, t)];
      && k < |m.passMap|
      && SoFar(original, current, i + 1, used[t := Used(used, t) + 1], already, m.(passMap := m.passMap[k := i]))
  {
    hide FedInOrder, All, Occurrences, Missing;
    var t := original[i];
    AllAre(current, t);
    NextMissing(original, current, i);
    var k := All(current, t)[Used(used, t)];
    forall u ensures Occurrences(original, u, i + 1) == Occurrences(original, u, i) + if u == t then [i] else [] {
      NextOccurrence(original, u, i);
    }
    forall u | u in current ensures FedInOrder(original, current, m.passMap[k := i], u, i + 1) {
      FedOneMore(original, current, i, m.passMap, u, Used(used, t));
    }
  }

  lemma FedOneMore(original: seq<TypeCode>, current: seq<TypeCode>, i: nat, passMap: seq<nat>, u: TypeCode, used: nat)
    requires i < |original| && used < |All(current, original[i])| && |passMap| == |current|
    requires FedInOrder(original, current, passMap, u, i) && used == |Occurrences(original, original[i], i)|
    ensures All(current, original[i])[used] < |passMap|
    ensures FedInOrder(original, current, passMap[All(current, original[i])[used] := i], u, i + 1)
  {
    hide All, Occurrences;
    var t := original[i];
    AllAre(current, t);
    AllAre(current, u);
    NextOccurrence(original, u, i);
    var k := All(current, t)[used];
    forall j | 0 <= j < |Occurrences(original, u, i + 1)|
      ensures All(current, u)[j] < |passMap| && passMap[k := i][All(current, u)[j]]
              == Occurrences(original, u, i + 1)[j]
    {
      if u != t {
        assert current[All(current, u)[j]] == u && current[k] == t;
      }
    }
  }

  // A parameter that is injected.
  lemma CurryOne(original: seq<TypeCode>, current: seq<TypeCode>, i: nat, used: map<TypeCode, nat>,
                 already: set<TypeCode>, m: Maps)
    requires i < |original| && SoFar(original, current, i, used, already, m)
    requires original[i] !in current && original[i] !in already
    ensures SoFar(original, current, i + 1, used, already + {original[i]},
                  m.(curryMap := m.curryMap + [i], curried := m.curried + [original[i]]))
  {
    forall t | t in current ensures FedInOrder(original, current, m.passMap, t, i + 1) {
      assert FedInOrder(original, current, m.passMap, t, i);
      assert Occurrences(original, t, i + 1) == Occurrences(original, t, i);
    }
  }

  // The arguments the original function is called with.
  ghost predicate Arguments<T>(m: Maps, inputs: seq<T>, injected: seq<T>, args: seq<T>)
    requires |inputs| == |m.passMap| && |injected| == |m.curryMap|
  {
    && (forall j :: 0 <= j < |inputs| ==> m.passMap[j] < |args| && args[m.passMap[j]] == inputs[j])
    && (forall j :: 0 <= j < |injected| ==> m.curryMap[j] < |args| && args[m.curryMap[j]] == injected[j])
  }

  // The curried function: the injected values are set when the provider is run.
  class CurriedFunction<T(==)> {
    const m: Maps
    const numIn: nat
    ghost const original: seq<TypeCode>
    ghost const current: seq<TypeCode>
    var injected: Option<seq<T>>

    ghost predicate Valid()
      reads this
    {
      && Complete(original, current, m) && numIn == |original|
      && (injected.Some? ==> |injected.value| == |m.curryMap|)
    }

    constructor (m: Maps, numIn: nat, ghost original: seq<TypeCode>, ghost current: seq<TypeCode>)
      requires Feeds(original, current, m) && numIn == |original|
      ensures Valid() && injected == None && this.m == m && this.numIn == numIn
    {
      NoGaps(original, current, m);
      this.m, this.numIn, this.original, this.current, injected := m, numIn, original, current, None;
    }

    method Inject(inputs: seq<T>)
      requires Valid() && |inputs| == |m.curryMap|
      modifies this
      ensures Valid() && injected == Some(inputs)
    {
      injected := Some(inputs);
    }

    // Every argument of the original function is set, and to the right value.
    method Call(inputs: seq<T>) returns (args: seq<T>)
      requires Valid() && injected.Some? && |inputs| == |m.passMap|
      ensures |args| == numIn && Arguments(m, inputs, injected.value, args)
      ensures forall args' :: |args'| == numIn && Arguments(m, inputs, injected.value, args') ==> args' == args
    {
      var oi := new Option<T>[numIn](_ => None);
      for i := 0 to |inputs|
        invariant forall j :: 0 <= j < i ==> oi[m.passMap[j]] == Some(inputs[j])
      {
        oi[m.passMap[i]] := Some(inputs[i]);
      }
      for i := 0 to |injected.value|
        invariant forall j :: 0 <= j < |inputs| ==> oi[m.passMap[j]] == Some(inputs[j])
        invariant forall j :: 0 <= j < i ==> oi[m.curryMap[j]] == Some(injected.value[j])
      {
        oi[m.curryMap[i]] := Some(injected.value[i]);
      }
      AllSet(oi[..], inputs);
      args := seq(numIn, k requires 0 <= k < numIn && oi[k].Some? reads oi => oi[k].value);
      OnlyOne(inputs, args);
    }

    lemma AllSet(oi: seq<Option<T>>, inputs: seq<T>)
      requires Valid() && injected.Some? && |inputs| == |m.passMap| && |oi| == numIn
      requires forall j :: 0 <= j < |inputs| ==> oi[m.passMap[j]] == Some(inputs[j])
      requires forall j :: 0 <= j < |injected.value| ==> oi[m.curryMap[j]] == Some(injected.value[j])
      ensures forall k :: 0 <= k < numIn ==> oi[k].Some?
    {
      forall k: nat | k < numIn ensures oi[k].Some? {
        assert k in m.passMap || k in m.curryMap;
      }
    }

    lemma OnlyOne(inputs: seq<T>, args: seq<T>)
      requires Valid() && injected.Some? && |inputs| == |m.passMap| && |args| == numIn
      requires Arguments(m, inputs, injected.value, args)
      ensures forall args' :: |args'| == numIn && Arguments(m, inputs, injected.value, args') ==> args' == args
    {
      forall args': seq<T> | |args'| == numIn && Arguments(m, inputs, injected.value, args') ensures args' == args {
        forall k: nat | k < numIn ensures args'[k] == args[k] {
          assert k in m.passMap || k in m.curryMap;
        }
      }
    }
  }
}
