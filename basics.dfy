/** Small shared vocabulary: optional values, results with an error kind,
    and Python's slice semantics on sequences. */
module Basics {

  datatype Option<T> = None | Some(value: T)

  datatype Result<T, E> = Ok(value: T) | Err(error: E)

  function Min(a: int, b: int): int { if a < b then a else b }

  /** The position a Python slice bound `i` denotes in a list of length `n`:
      a negative bound counts from the end, and every bound is clamped to [0, n]. */
  function PyIndex(i: int, n: nat): (r: nat)
    ensures r <= n
  {
    if i < 0 then (if i + n < 0 then 0 else i + n)
    else if i > n then n
    else i
  }

  /** Python's `s[start:stop]` (step 1): never fails, empty once the bounds cross. */
  function PySlice<T>(s: seq<T>, start: int, stop: int): (r: seq<T>)
    ensures 0 <= start <= stop ==> r == s[Min(start, |s|)..Min(stop, |s|)]
    ensures PyIndex(start, |s|) + |r| <= |s|
    ensures r == s[PyIndex(start, |s|)..PyIndex(start, |s|) + |r|]
  {
    var a, b := PyIndex(start, |s|), PyIndex(stop, |s|);
    if a < b then s[a..b] else []
  }

  /** Everything a slice returns is drawn from the sliced list. */
  lemma SliceDrawnFrom<T>(s: seq<T>, start: int, stop: int)
    ensures forall x :: x in PySlice(s, start, stop) ==> x in s
  {
    var r := PySlice(s, start, stop);
    var lo := PyIndex(start, |s|);
    forall x | x in r ensures x in s {
      var k :| 0 <= k < |r| && r[k] == x;
      assert s[lo + k] == x;
    }
  }
}
