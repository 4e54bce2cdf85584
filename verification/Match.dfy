/**
 match.go: finding the provided type that suits a wanted type best.
 */
module Match {
  import opened Basics

  datatype MatchData = MatchData(layer: nat, plist: seq<nat>, consumed: bool)

  // What reflection knows of types: the methods decide what implements what.
  datatype Types = Types(
    isInterface: TypeCode -> bool,
    implements: (TypeCode, TypeCode) -> bool,
    pkgPath: TypeCode -> string,
    numMethod: TypeCode -> nat)

  datatype Answer = Found(tc: TypeCode, plist: seq<nat>) | NoMatch

  // The first difference decides; of two equal lists the longer one is greater.
  function AGreaterBInts(a: seq<int>, b: seq<int>): (r: bool)
  {
    if a == [] || b == [] then |a| >= |b|
    else if a[0] != b[0] then a[0] > b[0]
    else AGreaterBInts(a[1..], b[1..])
  }

  method AGreaterB(a: seq<int>, b: seq<int>) returns (r: bool)
    ensures r == AGreaterBInts(a, b)
  {
    var i := 0;
    while i < |a| && i < |b|
      invariant i <= |a| && i <= |b|
      invariant AGreaterBInts(a[i..], b[i..]) == AGreaterBInts(a, b)
    {
      if a[i] > b[i] {
        return true;
      }
      if a[i] < b[i] {
        return false;
      }
      i := i + 1;
    }
    return |a| >= |b|;
  }

  lemma {:induction false} GreaterIsTransitive(a: seq<int>, b: seq<int>, c: seq<int>)
    requires |a| == |b| == |c| && AGreaterBInts(a, b) && AGreaterBInts(b, c)
    ensures AGreaterBInts(a, c)
  {
    if a != [] && a[0] == b[0] == c[0] {
      GreaterIsTransitive(a[1..], b[1..], c[1..]);
    }
  }

  lemma {:induction false} GreaterIsTotal(a: seq<int>, b: seq<int>)
    requires |a| == |b|
    ensures AGreaterBInts(a, b) || AGreaterBInts(b, a)
    ensures AGreaterBInts(a, b) && AGreaterBInts(b, a) ==> a == b
  {
    if a != [] {
      GreaterIsTotal(a[1..], b[1..]);
      assert a == [a[0]] + a[1..] && b == [b[0]] + b[1..];
    }
  }

  // The first number in which they differ.
  predicate DifferAt(a: seq<int>, b: seq<int>, k: nat) {
    k < |a| && k < |b| && a[..k] == b[..k] && a[k] != b[k]
  }

  // One list is greater exactly if it is in the first place where they differ, or goes on where the other ends.
  lemma {:induction false} GreaterExactlyIf(a: seq<int>, b: seq<int>)
    ensures AGreaterBInts(a, b) <==> (exists k: nat :: DifferAt(a, b, k) && a[k] > b[k]) || b <= a
  {
    if a == [] || b == [] {
    } else if a[0] != b[0] {
      assert DifferAt(a, b, 0) <==> a[..0] == b[..0];
    } else {
      GreaterExactlyIf(a[1..], b[1..]);
      assert b <= a <==> b[1..] <= a[1..] by {
        assert a == [a[0]] + a[1..] && b == [b[0]] + b[1..];
      }
      forall k: nat ensures DifferAt(a, b, k + 1) <==> DifferAt(a[1..], b[1..], k) {
        if k < |a[1..]| && k < |b[1..]| {
          assert a[..k + 1] == [a[0]] + a[1..][..k] && b[..k + 1] == [b[0]] + b[1..][..k];
        }
      }
      if k: nat :| DifferAt(a, b, k) && a[k] > b[k] {
        assert DifferAt(a[1..], b[1..], k - 1);
      }
      if k: nat :| DifferAt(a[1..], b[1..], k) && a[1..][k] > b[1..][k] {
        assert DifferAt(a, b, k + 1);
      }
    }
  }

  function Score(types: Types, wanted: TypeCode, tc: TypeCode, d: MatchData): (s: seq<int>)
    ensures |s| == 4
  {
    [d.layer, if types.pkgPath(tc) == types.pkgPath(wanted) then 1 else 0, types.numMethod(tc), tc]
  }

  predicate Candidate(types: Types, m: map<TypeCode, MatchData>, wanted: TypeCode, tc: TypeCode) {
    tc in m && types.implements(tc, wanted)
  }

  // No candidate has a higher score.
  ghost predicate Best(types: Types, m: map<TypeCode, MatchData>, wanted: TypeCode, tc: TypeCode) {
    && Candidate(types, m, wanted, tc)
    && forall other :: Candidate(types, m, wanted, other) ==>
         AGreaterBInts(Score(types, wanted, tc, m[tc]), Score(types, wanted, other, m[other]))
  }

  // 'tc' is the better match: it has the higher layer; or else it alone is of the package of the wanted type; or
  // else it has more methods; or else the higher code.
  predicate Better(types: Types, m: map<TypeCode, MatchData>, wanted: TypeCode, tc: TypeCode, other: TypeCode)
    requires tc in m && other in m
  {
    var home, otherHome := types.pkgPath(tc) == types.pkgPath(wanted), types.pkgPath(other) == types.pkgPath(wanted);
    if m[tc].layer != m[other].layer then m[tc].layer > m[other].layer
    else if home != otherHome then home
    else if types.numMethod(tc) != types.numMethod(other) then types.numMethod(tc) > types.numMethod(other)
    else tc >= other
  }

  lemma BestExactlyIf(types: Types, m: map<TypeCode, MatchData>, wanted: TypeCode, tc: TypeCode)
    ensures Best(types, m, wanted, tc) <==>
              && tc in m && types.implements(tc, wanted)
              && forall other :: other in m && types.implements(other, wanted) ==> Better(types, m, wanted, tc, other)
  {
    if tc in m {
      forall other | other in m
        ensures AGreaterBInts(Score(types, wanted, tc, m[tc]), Score(types, wanted, other, m[other])) <==>
                  Better(types, m, wanted, tc, other)
      {
        FourNumbers(Score(types, wanted, tc, m[tc]), Score(types, wanted, other, m[other]));
      }
    }
  }

  lemma FourNumbers(a: seq<int>, b: seq<int>)
    requires |a| == |b| == 4
    ensures AGreaterBInts(a, b) <==>
              if a[0] != b[0] then a[0] > b[0] else if a[1] != b[1] then a[1] > b[1]
              else if a[2] != b[2] then a[2] > b[2] else a[3] >= b[3]
  {
    assert AGreaterBInts(a, b) == if a[0] != b[0] then a[0] > b[0] else AGreaterBInts(a[1..], b[1..]);
    assert a[1..][0] == a[1] && b[1..][0] == b[1] && a[1..][1..] == a[2..] && b[1..][1..] == b[2..];
    assert a[2..][0] == a[2] && b[2..][0] == b[2] && a[2..][1..] == a[3..] && b[2..][1..] == b[3..];
    assert a[3..] == [a[3]] && b[3..] == [b[3]];
    assert AGreaterBInts([a[3]], [b[3]]) <==> a[3] >= b[3] by {
      assert [a[3]][1..] == [] && [b[3]][1..] == [];
    }
  }

  // There is but one: the order in which the map is walked does not matter.
  lemma OneIsBest(types: Types, m: map<TypeCode, MatchData>, wanted: TypeCode, tc: TypeCode, other: TypeCode)
    requires Best(types, m, wanted, tc) && Best(types, m, wanted, other)
    ensures tc == other
  {
    var a, b := Score(types, wanted, tc, m[tc]), Score(types, wanted, other, m[other]);
    GreaterIsTotal(a, b);
    assert a[3] == tc && b[3] == other;
  }

  // Everything else being equal, the highest type code wins.
  lemma HighestCodeWins(types: Types, m: map<TypeCode, MatchData>, wanted: TypeCode, tc: TypeCode, other: TypeCode)
    requires Best(types, m, wanted, tc) && Candidate(types, m, wanted, other)
    requires m[tc].layer == m[other].layer && types.numMethod(tc) == types.numMethod(other)
    requires types.pkgPath(tc) == types.pkgPath(other)
    ensures other <= tc
  {
    var a, b := Score(types, wanted, tc, m[tc]), Score(types, wanted, other, m[other]);
    assert AGreaterBInts(a, b) && a == [a[0], a[1], a[2], a[3]] && b == [a[0], a[1], a[2], b[3]];
    assert AGreaterBInts(a[1..], b[1..]);
    assert AGreaterBInts(a[1..][1..], b[1..][1..]);
    assert AGreaterBInts(a[1..][1..][1..], b[1..][1..][1..]);
    assert a[1..][1..][1..] == [a[3]] && b[1..][1..][1..] == [b[3]];
  }

  // The closest layer beats everything else.
  lemma ClosestLayerWins(types: Types, m: map<TypeCode, MatchData>, wanted: TypeCode, tc: TypeCode, other: TypeCode)
    requires Best(types, m, wanted, tc) && Candidate(types, m, wanted, other)
    ensures m[other].layer <= m[tc].layer
  {
  }

  function LooseOnly(loose: nat -> set<TypeCode>, wanted: TypeCode, plist: seq<nat>): (r: seq<nat>)
    ensures forall p: nat :: p in r <==> p in plist && wanted in loose(p)
  {
    if plist == [] then []
    else (if wanted in loose(plist[0]) then [plist[0]] else []) + LooseOnly(loose, wanted, plist[1..])
  }

  // Those marked Loose for the wanted type keep their order.
  lemma {:induction false} LooseInOrder(loose: nat -> set<TypeCode>, wanted: TypeCode, a: seq<nat>, b: seq<nat>)
    ensures LooseOnly(loose, wanted, a + b) == LooseOnly(loose, wanted, a) + LooseOnly(loose, wanted, b)
  {
    if a == [] {
      assert a + b == b;
    } else {
      var rest := a[1..] + b;
      assert (a + b)[0] == a[0] && (a + b)[1..] == rest;
      LooseInOrder(loose, wanted, a[1..], b);
      LooseFirst(loose, wanted, a);
      LooseFirst(loose, wanted, a + b);
      hide LooseOnly;
    }
  }

  lemma LooseFirst(loose: nat -> set<TypeCode>, wanted: TypeCode, plist: seq<nat>)
    requires plist != []
    ensures LooseOnly(loose, wanted, plist) ==
              (if wanted in loose(plist[0]) then [plist[0]] else []) + LooseOnly(loose, wanted, plist[1..])
  {
  }

  class InterfaceMap {
    var m: map<TypeCode, MatchData>

    constructor ()
      ensures m == map[]
    {
      m := map[];
    }

    // The layer stays that of the first provider of the type.
    method Add(t: TypeCode, layer: nat, fm: nat)
      modifies this
      ensures m == old(m)[t := if t in old(m) then old(m)[t].(plist := old(m)[t].plist + [fm])
                          else MatchData(layer, [fm], false)]
    {
      if t in m {
        m := m[t := m[t].(plist := m[t].plist + [fm])];
        return;
      }
      m := m[t := MatchData(layer, [fm], false)];
    }

    method BestMatch(types: Types, loose: nat -> set<TypeCode>, wanted: TypeCode) returns (a: Answer)
      modifies this
      ensures m == if wanted in old(m) then old(m)[wanted := old(m)[wanted].(consumed := true)] else old(m)
      ensures wanted in m ==> a == Found(wanted, m[wanted].plist)
      ensures wanted !in m && a.Found? ==>
                && types.isInterface(wanted) && Best(types, m, wanted, a.tc)
                && a.plist == LooseOnly(loose, wanted, m[a.tc].plist) && a.plist != []
      ensures wanted !in m && a.NoMatch? && types.isInterface(wanted) ==>
                forall tc :: Best(types, m, wanted, tc) ==> LooseOnly(loose, wanted, m[tc].plist) == []
    {
      if wanted in m {
        m := m[wanted := m[wanted].(consumed := true)];
        return Found(wanted, m[wanted].plist);
      }
      if !types.isInterface(wanted) {
        return NoMatch;
      }
      var best := BestAmong(types, m, wanted, m.Keys);
      if best == None {
        return NoMatch;
      }
      forall tc | Best(types, m, wanted, tc) ensures tc == best.value {
        OneIsBest(types, m, wanted, tc, best.value);
      }
      var l := LooseOnly(loose, wanted, m[best.value].plist);
      if |l| == 0 {
        return NoMatch;
      }
      return Found(best.value, l);
    }
  }

  // Walks the map in whatever order.
  method BestAmong(types: Types, m: map<TypeCode, MatchData>, wanted: TypeCode, all: set<TypeCode>)
    returns (best: Option<TypeCode>)
    requires all == m.Keys
    ensures best == None <==> forall tc :: !Candidate(types, m, wanted, tc)
    ensures best.Some? ==> Best(types, m, wanted, best.value)
  {
    best := None;
    var todo := all;
    while todo != {}
      invariant todo <= all
      invariant best == None ==> forall tc :: Candidate(types, m, wanted, tc) ==> tc in todo
      invariant best.Some? ==> Candidate(types, m, wanted, best.value)
      invariant best.Some? ==> forall tc :: Candidate(types, m, wanted, tc) && tc !in todo ==>
                  AGreaterBInts(Score(types, wanted, best.value, m[best.value]), Score(types, wanted, tc, m[tc]))
      decreases |todo|
    {
      assert (forall tc :: tc !in todo) ==> todo == {};
      var tc :| tc in todo;
      todo := todo - {tc};
      if types.implements(tc, wanted) {
        best := BetterOf(types, m, wanted, best, tc, all - todo - {tc});
      }
    }
  }

  method BetterOf(types: Types, m: map<TypeCode, MatchData>, wanted: TypeCode, best: Option<TypeCode>, tc: TypeCode,
                ghost done: set<TypeCode>)
    returns (best': Option<TypeCode>)
    requires Candidate(types, m, wanted, tc) && (best.Some? ==> Candidate(types, m, wanted, best.value))
    requires best.Some? ==> forall other :: Candidate(types, m, wanted, other) && other in done ==>
               AGreaterBInts(Score(types, wanted, best.value, m[best.value]), Score(types, wanted, other, m[other]))
    requires best == None ==> forall other :: other in done ==> !Candidate(types, m, wanted, other)
    ensures best'.Some? && Candidate(types, m, wanted, best'.value)
    ensures forall other :: Candidate(types, m, wanted, other) && (other in done || other == tc) ==>
              AGreaterBInts(Score(types, wanted, best'.value, m[best'.value]), Score(types, wanted, other, m[other]))
  {
    var s := Score(types, wanted, tc, m[tc]);
    GreaterIsTotal(s, s);
    if best == None {
      return Some(tc);
    }
    var b := Score(types, wanted, best.value, m[best.value]);
    GreaterIsTotal(s, b);
    var greater := AGreaterB(s, b);
    if greater {
      forall other | Candidate(types, m, wanted, other) && other in done
        ensures AGreaterBInts(s, Score(types, wanted, other, m[other]))
      {
        GreaterIsTransitive(s, b, Score(types, wanted, other, m[other]));
      }
      return Some(tc);
    }
    return best;
  }
}
