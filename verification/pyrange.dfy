/**
 The geometry in the game is written with Python's `range`: a point
 coordinate `v` is "inside" when `v in range(lo, hi)`.  This module spells
 `range(lo, hi)` out as the sequence it denotes, so that the membership test
 is modelled literally and its meaning is proved rather than assumed.
 */
module PyRange {

  /** The integers of `range(lo, hi)` in order: lo, lo + 1, ..., hi - 1
      (empty when hi <= lo). */
  function Range(lo: int, hi: int): (r: seq<int>)
    ensures |r| == if lo < hi then hi - lo else 0
    ensures forall i :: 0 <= i < |r| ==> r[i] == lo + i
    ensures forall v :: v in r <==> lo <= v < hi
    decreases hi - lo
  {
    if hi <= lo then [] else [lo] + Range(lo + 1, hi)
  }

  /** `v in range(lo, hi)`, the test used by the point lookup. */
  predicate InRange(v: int, lo: int, hi: int)
  {
    v in Range(lo, hi)
  }
}
