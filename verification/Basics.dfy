/** Type codes and the little vocabulary every component shares. */
module Basics {
  datatype Option<+T> = None | Some(value: T)

  // A provider's parameter types are interned as integers (type_codes.go).
  type TypeCode = int

  // The code standing for "not a real type": the slot of a wrapper's inner().
  const NO_TYPE: TypeCode := 0
  // The code of nject's Unused type.
  const UNUSED: TypeCode := 1
  // The code of Go's error type.
  const ERROR: TypeCode := 2
  // The code of nject's TerminalError type.
  const TERMINAL_ERROR: TypeCode := 3

  // The numbers below 'n'.
  function UpTo(n: nat): (s: set<nat>)
    ensures forall i: nat :: i in s <==> i < n
  {
    if n == 0 then {} else UpTo(n - 1) + {n - 1}
  }

  function Identity(n: nat): (r: seq<nat>)
    ensures |r| == n && forall k :: 0 <= k < n ==> r[k] == k
  {
    seq(n, k requires 0 <= k < n => k)
  }

  ghost predicate Distinct(s: seq<nat>) {
    forall k, l :: 0 <= k < l < |s| ==> s[k] != s[l]
  }

  // 'a' stands somewhere before 'b'.
  ghost predicate Precedes(s: seq<nat>, a: nat, b: nat) {
    exists p, q :: 0 <= p < q < |s| && s[p] == a && s[q] == b
  }
}
