/**
 cache.go: memoised providers and singletons, and what the wrapper of a fallible injector does to a
 remembered result.
 */
module Cache {
  import opened Basics

  type Value = int
  type Key = int

  // The empty string as part of a key.
  const BLANK: Key := 0

  // An argument as far as keys are concerned.  Not-a-number is not equal to itself.
  datatype Arg = Invalid | NilInterface | Val(key: Key) | NotANumber

  const UNLIKE: Key := 1

  function KeyPart(a: Arg): Key {
    if a.Val? then a.key else if a.NotANumber? then UNLIKE else BLANK
  }

  // What has been stored for a key can be found again.
  predicate Findable(inputs: seq<Arg>) {
    NotANumber !in inputs
  }

  // The key for the inputs, padded to the size of the array type.
  function KeyOf(inputs: seq<Arg>, width: nat): (key: seq<Key>)
    requires |inputs| <= width
    ensures |key| == width
  {
    seq(width, i requires 0 <= i < width => if i < |inputs| then KeyPart(inputs[i]) else BLANK)
  }

  // The sizes there are array types for; None: too many inputs to be remembered.
  function Width(l: nat): (w: Option<nat>)
    ensures w.Some? <==> l <= 90
    ensures w.Some? ==> l <= w.value
  {
    if l <= 3 then Some(3) else if l <= 10 then Some(10) else if l <= 30 then Some(30) else if l <= 90 then Some(90)
        else None
  }

  method FillKeyFromInputs(key: array<Key>, inputs: seq<Arg>)
    requires |inputs| <= key.Length
    modifies key
    ensures key[..] == KeyOf(inputs, key.Length)
  {
    for i := 0 to |inputs|
      invariant forall k :: 0 <= k < i ==> key[k] == KeyPart(inputs[k])
    {
      if inputs[i].Invalid? {
        key[i] := BLANK;
      } else if inputs[i].NilInterface? {
        key[i] := BLANK;
      } else {
        key[i] := if inputs[i].NotANumber? then UNLIKE else inputs[i].key;
      }
    }
    for i := |inputs| to key.Length
      invariant forall k :: 0 <= k < |inputs| ==> key[k] == KeyPart(inputs[k])
      invariant forall k :: |inputs| <= k < i ==> key[k] == BLANK
    {
      key[i] := BLANK;
    }
  }

  // Inputs that share a key: equal, up to what is taken for the empty string.
  ghost predicate Alike(a: seq<Arg>, b: seq<Arg>) {
    && |a| == |b| && NotANumber !in a
    && forall i :: 0 <= i < |a| ==> a[i] == b[i] || (IsBlank(a[i]) && IsBlank(b[i]))
  }

  predicate IsBlank(a: Arg) {
    a == Invalid || a == NilInterface || a == Val(BLANK)
  }

  // Padding confuses nothing: two argument lists of a function share a key exactly if they are alike.
  lemma KeysTellApart(a: seq<Arg>, b: seq<Arg>, width: nat)
    requires |a| == |b| <= width
    ensures Findable(a) && Findable(b) && KeyOf(a, width) == KeyOf(b, width) <==> Alike(a, b)
  {
    if Alike(a, b) {
      forall i | 0 <= i < |b| ensures b[i] != NotANumber {
        assert a[i] in a;
      }
    }
    if Findable(a) && Findable(b) && KeyOf(a, width) == KeyOf(b, width) {
      forall i | 0 <= i < |a| ensures a[i] == b[i] || (IsBlank(a[i]) && IsBlank(b[i])) {
        assert a[i] in a && b[i] in b;
        assert KeyOf(a, width)[i] == KeyOf(b, width)[i];
      }
    }
  }

  // A provider's function: what it returns when it is called for the n-th time, the number of its
  // inputs, and the check that decides whether inputs can be a key.
  datatype Function = Function(result: (seq<Arg>, nat) -> seq<Value>, numIn: nat, check: seq<Arg> -> bool)

  predicate Cacheable(f: Function, inputs: seq<Arg>) {
    Width(f.numIn).Some? && f.check(inputs) && Findable(inputs)
  }

  function KeyFor(f: Function, inputs: seq<Arg>): seq<Key>
    requires Width(f.numIn).Some? && |inputs| == f.numIn
  {
    KeyOf(inputs, Width(f.numIn).value)
  }

  // What is remembered, and the inputs of all calls of the function so far.
  datatype Memo = Memo(cache: map<seq<Key>, seq<Value>>, calls: seq<seq<Arg>>)

  function Look(f: Function, m: Memo, inputs: seq<Arg>): (Memo, seq<Value>)
    requires |inputs| == f.numIn
  {
    var out := f.result(inputs, |m.calls|);
    if !Cacheable(f, inputs) then (m.(calls := m.calls + [inputs]), out)
    else if KeyFor(f, inputs) in m.cache then (m, m.cache[KeyFor(f, inputs)])
    else (Memo(m.cache[KeyFor(f, inputs) := out], m.calls + [inputs]), out)
  }

  // A history of calls of the provider, with the results.
  function Results(f: Function, m: Memo, history: seq<seq<Arg>>): (r: (Memo, seq<seq<Value>>))
    requires forall inputs :: inputs in history ==> |inputs| == f.numIn
    ensures |r.1| == |history|
    decreases |history|
  {
    if history == [] then (m, [])
    else
      var (m1, out) := Look(f, m, history[0]);
      var (m2, outs) := Results(f, m1, history[1..]);
      (m2, [out] + outs)
  }

  // What is remembered stays.
  lemma {:induction false} RememberedForEver(f: Function, m: Memo, history: seq<seq<Arg>>, i: nat)
    requires (forall inputs :: inputs in history ==> |inputs| == f.numIn) && i < |history|
    requires Cacheable(f, history[i]) && KeyFor(f, history[i]) in m.cache
    ensures Results(f, m, history).1[i] == m.cache[KeyFor(f, history[i])]
    decreases |history|
  {
    if i > 0 {
      RememberedForEver(f, Look(f, m, history[0]).0, history[1..], i - 1);
    }
  }

  // Inputs that pass the check, of a function of at most 90, are remembered: later inputs alike that pass it too get
  // the values of the first call, whatever happens in between, and nothing is called for them.
  lemma {:induction false} HitsReturnTheFirst(f: Function, m: Memo, history: seq<seq<Arg>>, i: nat, j: nat)
    requires (forall inputs :: inputs in history ==> |inputs| == f.numIn) && i < j < |history|
    requires f.numIn <= 90 && f.check(history[i]) && f.check(history[j]) && Alike(history[i], history[j])
    ensures Results(f, m, history).1[j] == Results(f, m, history).1[i]
    ensures
      var before := Results(f, m, history[..j]).0;
      Look(f, before, history[j]).0 == before
    decreases |history|
  {
    AlikeAreFindable(history[i], history[j]);
    KeysTellApart(history[i], history[j], Width(f.numIn).value);
    var (m1, out) := Look(f, m, history[0]);
    assert history[..j][0] == history[0] && history[..j][1..] == history[1..][..j - 1];
    if i > 0 {
      assert history[1..][i - 1] == history[i] && history[1..][j - 1] == history[j];
      HitsReturnTheFirst(f, m1, history[1..], i - 1, j - 1);
    } else {
      assert history[1..][j - 1] == history[j];
      RememberedForEver(f, m1, history[1..], j - 1);
      StaysRemembered(f, m1, history[1..][..j - 1], KeyFor(f, history[j]));
    }
  }

  lemma AlikeAreFindable(a: seq<Arg>, b: seq<Arg>)
    requires Alike(a, b)
    ensures Findable(a) && Findable(b)
  {
    forall i | 0 <= i < |b| ensures b[i] != NotANumber {
      assert a[i] in a;
    }
  }

  lemma {:induction false} StaysRemembered(f: Function, m: Memo, history: seq<seq<Arg>>, key: seq<Key>)
    requires (forall inputs :: inputs in history ==> |inputs| == f.numIn) && key in m.cache
    ensures key in Results(f, m, history).0.cache
    decreases |history|
  {
    if history != [] {
      StaysRemembered(f, Look(f, m, history[0]).0, history[1..], key);
    }
  }

  // Everything else goes past the memory: inputs that fail the check, of functions of more than 90, or with a NaN.
  lemma OthersAreCalled(f: Function, m: Memo, inputs: seq<Arg>)
    requires |inputs| == f.numIn && (f.numIn > 90 || !f.check(inputs) || NotANumber in inputs)
    ensures Look(f, m, inputs) == (Memo(m.cache, m.calls + [inputs]), f.result(inputs, |m.calls|))
  {
  }

  // The function has been called at most once for each key, and what is remembered for a key is the
  // result of that call.
  ghost predicate OncePerKey(f: Function, m: Memo) {
    && (forall inputs :: inputs in m.calls ==> |inputs| == f.numIn)
    && ResultsRemembered(f, m) && NothingElseRemembered(f, m) && NoTwoAlike(f, m.calls)
  }

  ghost predicate ResultsRemembered(f: Function, m: Memo)
    requires forall inputs :: inputs in m.calls ==> |inputs| == f.numIn
  {
    forall k: nat :: k < |m.calls| && Cacheable(f, m.calls[k]) ==>
      KeyFor(f, m.calls[k]) in m.cache && m.cache[KeyFor(f, m.calls[k])] == f.result(m.calls[k], k)
  }

  ghost predicate NothingElseRemembered(f: Function, m: Memo)
    requires forall inputs :: inputs in m.calls ==> |inputs| == f.numIn
  {
    forall key :: key in m.cache ==>
      exists k: nat :: k < |m.calls| && Cacheable(f, m.calls[k]) && KeyFor(f, m.calls[k]) == key
  }

  ghost predicate NoTwoAlike(f: Function, calls: seq<seq<Arg>>)
    requires forall inputs :: inputs in calls ==> |inputs| == f.numIn
  {
    forall k: nat, l: nat :: k < l < |calls| && Cacheable(f, calls[k]) && Cacheable(f, calls[l]) ==>
        !Alike(calls[k], calls[l])
  }

  lemma LookOnce(f: Function, m: Memo, inputs: seq<Arg>)
    requires OncePerKey(f, m) && |inputs| == f.numIn
    ensures OncePerKey(f, Look(f, m, inputs).0)
    ensures Cacheable(f, inputs) ==> KeyFor(f, inputs) in Look(f, m, inputs).0.cache
    ensures m.cache.Keys <= Look(f, m, inputs).0.cache.Keys
  {
    var (m', out) := Look(f, m, inputs);
    if m'.calls != m.calls {
      forall k: nat | k < |m.calls| && Cacheable(f, m.calls[k]) && Cacheable(f, inputs)
        ensures !Alike(m.calls[k], inputs) && KeyFor(f, m.calls[k]) != KeyFor(f, inputs)
      {
        KeysTellApart(m.calls[k], inputs, Width(f.numIn).value);
      }
      OneMoreCall(f, m, inputs, m');
    }
  }

  // A call that was necessary.
  lemma OneMoreCall(f: Function, m: Memo, inputs: seq<Arg>, m': Memo)
    requires OncePerKey(f, m) && |inputs| == f.numIn && m'.calls == m.calls + [inputs]
    requires m'.cache == if Cacheable(f, inputs) then m.cache[KeyFor(f, inputs) := f.result(inputs, |m.calls|)]
             else m.cache
    requires forall k: nat :: k < |m.calls| && Cacheable(f, m.calls[k]) && Cacheable(f, inputs) ==>
               !Alike(m.calls[k], inputs) && KeyFor(f, m.calls[k]) != KeyFor(f, inputs)
    ensures OncePerKey(f, m')
  {
    hide Alike, KeyFor, ResultsRemembered, NothingElseRemembered, NoTwoAlike;
    assert forall i :: i in m'.calls ==> i in m.calls || i == inputs;
    NewRemembered(f, m, inputs, m');
    NewNotAlike(f, m.calls, inputs);
    forall key | key in m'.cache
      ensures exists k: nat :: k < |m'.calls| && Cacheable(f, m'.calls[k]) && KeyFor(f, m'.calls[k]) == key
    {
      CalledFor(f, m, inputs, m', key);
    }
    assert NothingElseRemembered(f, m') by { NothingElse(f, m'); }
  }

  lemma NothingElse(f: Function, m: Memo)
    requires forall inputs :: inputs in m.calls ==> |inputs| == f.numIn
    requires forall key :: key in m.cache ==>
               exists k: nat :: k < |m.calls| && Cacheable(f, m.calls[k]) && KeyFor(f, m.calls[k]) == key
    ensures NothingElseRemembered(f, m)
  {
  }

  lemma NewRemembered(f: Function, m: Memo, inputs: seq<Arg>, m': Memo)
    requires OncePerKey(f, m) && |inputs| == f.numIn && m'.calls == m.calls + [inputs]
    requires m'.cache == if Cacheable(f, inputs) then m.cache[KeyFor(f, inputs) := f.result(inputs, |m.calls|)]
             else m.cache
    requires forall k: nat :: k < |m.calls| && Cacheable(f, m.calls[k]) && Cacheable(f, inputs) ==>
               KeyFor(f, m.calls[k]) != KeyFor(f, inputs)
    ensures forall i :: i in m'.calls ==> |i| == f.numIn
    ensures ResultsRemembered(f, m')
  {
    hide Alike, KeyFor, NothingElseRemembered, NoTwoAlike;
    assert forall i :: i in m'.calls ==> i in m.calls || i == inputs;
  }

  lemma NewNotAlike(f: Function, calls: seq<seq<Arg>>, inputs: seq<Arg>)
    requires (forall i :: i in calls ==> |i| == f.numIn) && |inputs| == f.numIn && NoTwoAlike(f, calls)
    requires forall k: nat :: k < |calls| && Cacheable(f, calls[k]) && Cacheable(f, inputs) ==> !Alike(calls[k], inputs)
    ensures (forall i :: i in calls + [inputs] ==> |i| == f.numIn) && NoTwoAlike(f, calls + [inputs])
  {
    hide Alike, Cacheable;
  }

  lemma CalledFor(f: Function, m: Memo, inputs: seq<Arg>, m': Memo, key: seq<Key>)
    requires OncePerKey(f, m) && |inputs| == f.numIn && m'.calls == m.calls + [inputs] && key in m'.cache
    requires m'.cache == if Cacheable(f, inputs) then m.cache[KeyFor(f, inputs) := f.result(inputs, |m.calls|)]
             else m.cache
    ensures exists k: nat :: k < |m'.calls| && Cacheable(f, m'.calls[k]) && KeyFor(f, m'.calls[k]) == key
  {
    hide Alike, KeyOf, KeyFor;
    if key in m.cache {
      var k: nat :| k < |m.calls| && Cacheable(f, m.calls[k]) && KeyFor(f, m.calls[k]) == key;
      assert m'.calls[k] == m.calls[k];
    } else {
      assert KeyFor(f, m'.calls[|m.calls|]) == key;
    }
  }

  // So in every history: for each key that occurs there is exactly one call, and no two calls are alike that could
  // be remembered.
  lemma {:induction false} RunsOncePerKey(f: Function, m: Memo, history: seq<seq<Arg>>)
    requires OncePerKey(f, m) && forall inputs :: inputs in history ==> |inputs| == f.numIn
    ensures OncePerKey(f, Results(f, m, history).0)
    ensures m.cache.Keys <= Results(f, m, history).0.cache.Keys
    ensures forall inputs ::
              inputs in history && f.numIn <= 90 && f.check(inputs) && NotANumber !in inputs ==>
                KeyFor(f, inputs) in Results(f, m, history).0.cache
    ensures
      var calls := Results(f, m, history).0.calls;
      forall k: nat, l: nat :: k < l < |calls| && f.numIn <= 90 && f.check(calls[k]) && f.check(calls[l]) ==>
        !Alike(calls[k], calls[l])
    decreases |history|
  {
    if history != [] {
      LookOnce(f, m, history[0]);
      RunsOncePerKey(f, Look(f, m, history[0]).0, history[1..]);
      assert forall inputs :: inputs in history <==> inputs == history[0] || inputs in history[1..];
    }
  }

  // A function whose results depend on its inputs alone.
  ghost predicate Pure(f: Function) {
    forall inputs, n, n' :: f.result(inputs, n) == f.result(inputs, n')
  }

  // The remembered results are those of the function.
  ghost predicate Faithful(f: Function) {
    forall history: seq<seq<Arg>> :: (forall inputs :: inputs in history ==> |inputs| == f.numIn) ==>
      forall i :: 0 <= i < |history| ==> Results(f, Memo(map[], []), history).1[i] == f.result(history[i], 0)
  }

  // Remembering the results of a pure function cannot be noticed, exactly if the function returns the
  // same for a nil interface, an invalid value and the empty string.
  lemma FaithfulExactlyIf(f: Function)
    requires Pure(f)
    ensures Faithful(f) <==>
              forall a, b :: |a| == |b| == f.numIn <= 90 && f.check(a) && f.check(b) && Alike(a, b) ==>
                f.result(a, 0) == f.result(b, 0)
  {
    forall a, b ensures |a| == |b| == f.numIn <= 90 && f.check(a) && f.check(b) && Alike(a, b) <==>
        |a| == |b| == f.numIn && Cacheable(f, a) && Cacheable(f, b) && Alike(a, b)
    {
      if Alike(a, b) {
        AlikeAreFindable(a, b);
      }
    }
    if Faithful(f) {
      forall a, b | |a| == |b| == f.numIn && Cacheable(f, a) && Cacheable(f, b) && Alike(a, b)
        ensures f.result(a, 0) == f.result(b, 0)
      {
        var history := [a, b];
        HitsReturnTheFirst(f, Memo(map[], []), history, 0, 1);
        assert Results(f, Memo(map[], []), history).1[0] == f.result(history[0], 0);
        assert Results(f, Memo(map[], []), history).1[1] == f.result(history[1], 0);
      }
    }
    if forall a, b :: |a| == |b| == f.numIn && Cacheable(f, a) && Cacheable(f, b) && Alike(a, b) ==>
        f.result(a, 0) == f.result(b, 0)
    {
      forall history: seq<seq<Arg>>, i: nat | (forall inputs :: inputs in history ==> |inputs| == f.numIn)
          && i < |history|
        ensures Results(f, Memo(map[], []), history).1[i] == f.result(history[i], 0)
      {
        RemembersItsResults(f, Memo(map[], []), history, i);
      }
    }
  }

  lemma {:induction false} RemembersItsResults(f: Function, m: Memo, history: seq<seq<Arg>>, i: nat)
    requires Pure(f) && (forall inputs :: inputs in history ==> |inputs| == f.numIn) && i < |history|
    requires forall a, b :: |a| == |b| == f.numIn && Cacheable(f, a) && Cacheable(f, b) && Alike(a, b) ==>
               f.result(a, 0) == f.result(b, 0)
    requires forall a :: |a| == f.numIn && Cacheable(f, a) && KeyFor(f, a) in m.cache ==>
               m.cache[KeyFor(f, a)] == f.result(a, 0)
    ensures Results(f, m, history).1[i] == f.result(history[i], 0)
    decreases |history|
  {
    var (m1, out) := Look(f, m, history[0]);
    if i > 0 {
      forall a | |a| == f.numIn && Cacheable(f, a) && KeyFor(f, a) in m1.cache
        ensures m1.cache[KeyFor(f, a)] == f.result(a, 0) {
        if KeyFor(f, a) !in m.cache {
          KeysTellApart(a, history[0], Width(f.numIn).value);
        }
      }
      RemembersItsResults(f, m1, history[1..], i - 1);
    }
  }

  // What taking the TerminalError out of a result leaves ...
  function Strip(s: seq<Value>, e: nat): seq<Value>
    requires e < |s|
  {
    s[..e] + s[e + 1..]
  }

  // ... and what it does to the result itself, since that is shifted in place.
  function Shift(s: seq<Value>, e: nat): (r: seq<Value>)
    requires e < |s|
    ensures |r| == |s|
  {
    s[..e] + s[e + 1..] + [s[|s| - 1]]
  }

  // By position: what has been taken out is the TerminalError, and what followed it has moved.
  lemma TakenOut(s: seq<Value>, e: nat)
    requires e < |s|
    ensures |Strip(s, e)| == |s| - 1 && forall k :: 0 <= k < |s| - 1 ==> Strip(s, e)[k] == s[if k < e then k else k + 1]
    ensures forall k :: 0 <= k < |s| ==> Shift(s, e)[k] == s[if e <= k < |s| - 1 then k + 1 else k]
  {
  }

  datatype Use = Ok(values: seq<Value>) | Error(value: Value)

  // One use of a result by the wrapper of a fallible injector, and the result afterwards.
  function Used(isNil: Value -> bool, s: seq<Value>, e: nat): (Use, seq<Value>)
    requires e < |s|
  {
    if isNil(s[e]) then (Ok(Strip(s, e)), Shift(s, e)) else (Error(s[e]), s)
  }

  // Whatever has been remembered, every later use is like the first.
  ghost predicate Reusable(isNil: Value -> bool, n: nat, e: nat)
    requires e < n
  {
    forall s: seq<Value> :: |s| == n ==> Used(isNil, Used(isNil, s, e).1, e).0 == Used(isNil, s, e).0
  }

  // That is so exactly if the TerminalError is the last result.
  lemma ReusableExactlyIfLast(isNil: Value -> bool, n: nat, e: nat, no: Value, error: Value)
    requires e < n && isNil(no) && !isNil(error)
    ensures Reusable(isNil, n, e) <==> e == n - 1
  {
    if e < n - 1 {
      var s := seq(n, i => if i == e then no else error);
      assert Used(isNil, s, e).0.Ok?;
      assert Shift(s, e)[e] == error;
      assert Used(isNil, Used(isNil, s, e).1, e).0.Error?;
    } else {
      forall s: seq<Value> | |s| == n ensures Shift(s, e) == s {
        assert s == s[..e] + [s[e]];
      }
    }
  }

  // A memoised fallible injector of the run set.
  function LookAndUse(f: Function, isNil: Value -> bool, e: nat, m: Memo, inputs: seq<Arg>): (Memo, Use)
    requires |inputs| == f.numIn && e < |Look(f, m, inputs).1|
  {
    var (m1, out) := Look(f, m, inputs);
    var (use, out') := Used(isNil, out, e);
    (if Cacheable(f, inputs) then m1.(cache := m1.cache[KeyFor(f, inputs) := out']) else m1, use)
  }

  // With the TerminalError last, its wrapper leaves what is remembered alone.
  lemma RememberedUndisturbed(f: Function, isNil: Value -> bool, m: Memo, inputs: seq<Arg>)
    requires |inputs| == f.numIn && |Look(f, m, inputs).1| > 0
    ensures
      var e := |Look(f, m, inputs).1| - 1;
      LookAndUse(f, isNil, e, m, inputs).0 == Look(f, m, inputs).0
  {
    var (m1, out) := Look(f, m, inputs);
    var e := |out| - 1;
    assert Shift(out, e) == out;
    if Cacheable(f, inputs) {
      assert m1.cache[KeyFor(f, inputs) := out] == m1.cache;
    }
  }

  // The function defineCacher returns.  Results are shared arrays: a hit hands out the very array that
  // has been remembered.
  class Cacher {
    const f: Function
    var cache: map<seq<Key>, array<Value>>
    var count: nat
    ghost var calls: seq<seq<Arg>>

    ghost predicate Valid()
      reads this
    {
      && count == |calls|
      && forall k, l :: k in cache && l in cache && k != l ==> cache[k] != cache[l]
    }

    ghost function Remembered(): Memo
      reads this, cache.Values
    {
      Memo(map k | k in cache :: cache[k][..], calls)
    }

    constructor (f: Function)
      ensures Valid() && this.f == f && Remembered() == Memo(map[], []) && cache == map[]
    {
      this.f, cache, count, calls := f, map[], 0, [];
    }

    // fv.Call
    method Call(inputs: seq<Arg>) returns (out: array<Value>)
      modifies this`count, this`calls
      ensures fresh(out) && out[..] == f.result(inputs, old(count))
      ensures count == old(count) + 1 && calls == old(calls) + [inputs]
    {
      var values := f.result(inputs, count);
      out := new Value[|values|](i requires 0 <= i < |values| => values[i]);
      count, calls := count + 1, calls + [inputs];
    }

    method Lookup(inputs: seq<Arg>) returns (out: array<Value>)
      requires Valid() && |inputs| == f.numIn
      modifies this
      ensures Valid() && fresh(cache.Values - old(cache.Values))
      ensures (Remembered(), out[..]) == Look(f, old(Remembered()), inputs)
      ensures if Cacheable(f, inputs) then KeyFor(f, inputs) in cache && cache[KeyFor(f, inputs)] == out else fresh(out)
      ensures f.numIn > 90 || !f.check(inputs) || NotANumber in inputs ==>
                cache == old(cache) && count == old(count) + 1 && out[..] == f.result(inputs, old(count))
      ensures f.numIn <= 90 && f.check(inputs) && NotANumber !in inputs ==>
                KeyFor(f, inputs) in cache
                && if KeyFor(f, inputs) in old(cache) then cache == old(cache) && count == old(count)
                   else count == old(count) + 1 && out[..] == f.result(inputs, old(count))
    {
      hide KeyOf;
      var width := Width(f.numIn);
      if width == None || !f.check(inputs) {
        out := Call(inputs);
        assert Remembered().cache == old(Remembered()).cache;
      } else {
        var buffer := new Key[width.value];
        FillKeyFromInputs(buffer, inputs);
        var key := buffer[..];
        if NotANumber in inputs {
          // What is stored now is never found again.
          out := Call(inputs);
          assert Remembered().cache == old(Remembered()).cache;
          return;
        }
        out := Recall(inputs, key);
      }
    }

    // What is remembered for the key, or what the function returns now.
    method Recall(inputs: seq<Arg>, key: seq<Key>) returns (out: array<Value>)
      requires Valid()
      modifies this
      ensures Valid() && fresh(cache.Values - old(cache.Values)) && key in cache && cache[key] == out
      ensures
        if key in old(cache) then Remembered() == old(Remembered()) && cache == old(cache) && count == old(count)
        else
          && count == old(count) + 1 && out[..] == f.result(inputs, old(count))
          && Remembered() == Memo(old(Remembered()).cache[key := out[..]], old(calls) + [inputs])
    {
      if key in cache {
        assert Remembered().cache == old(Remembered()).cache;
        return cache[key];
      }
      out := Call(inputs);
      cache := cache[key := out];
      assert Remembered().cache == old(Remembered()).cache[key := out[..]];
    }

    // The wrapper of a memoised fallible injector: append(out[:e], out[e+1:]...) moves what follows the
    // TerminalError within the array.
    method RunFallible(inputs: seq<Arg>, isNil: Value -> bool, e: nat) returns (use: Use)
      requires Valid() && |inputs| == f.numIn && e < |Look(f, Remembered(), inputs).1|
      modifies this, cache.Values
      ensures Valid() && (Remembered(), use) == LookAndUse(f, isNil, e, old(Remembered()), inputs)
    {
      hide Look, KeyFor, Shift;
      var out := Lookup(inputs);
      ghost var looked := Remembered();
      if !isNil(out[e]) {
        assert Cacheable(f, inputs) ==> looked.cache[KeyFor(f, inputs) := out[..]] == looked.cache;
        return Error(out[e]);
      }
      ShiftOut(out, e);
      forall k | k in cache ensures cache[k][..] == if cache[k] == out then out[..] else looked.cache[k] {
      }
      assert Remembered() == if Cacheable(f, inputs) then looked.(cache := looked.cache[KeyFor(f, inputs) := out[..]])
             else looked;
      return Ok(out[..out.Length - 1]);
    }
  }

  method ShiftOut(out: array<Value>, e: nat)
    requires e < out.Length
    modifies out
    ensures out[..] == Shift(old(out[..]), e)
    ensures out[..out.Length - 1] == Strip(old(out[..]), e)
  {
    for i := e to out.Length - 1
      invariant forall k :: 0 <= k < out.Length ==> out[k] == old(out[if e <= k < i then k + 1 else k])
    {
      out[i] := out[i + 1];
    }
  }

  // The function generateSingleton returns.
  class Singleton {
    const f: Function
    var out: Option<seq<Value>>
    var count: nat

    constructor (f: Function)
      ensures this.f == f && out == None && count == 0
    {
      this.f, out, count := f, None, 0;
    }

    // sync.Once: the inputs of the first call decide, for ever.
    method Get(inputs: seq<Arg>) returns (r: seq<Value>)
      modifies this
      ensures out == Some(r) && r == (if old(out).Some? then old(out).value else f.result(inputs, old(count)))
      ensures count == old(count) + if old(out).Some? then 0 else 1
    {
      if out == None {
        out := Some(f.result(inputs, count));
        count := count + 1;
      }
      r := out.value;
    }
  }
}
