/** Axis-aligned rectangles and the strict overlap test of the collision sweep. */
module Geometry {

  /** A rectangle `{x, y, w, h}`: top-left corner (x, y), y grows downward. */
  datatype Rect = Rect(x: real, y: real, w: real, h: real)

  /** Every rectangle the sketch builds has a positive width and height. */
  predicate WellFormed(r: Rect) {
    r.w > 0.0 && r.h > 0.0
  }

  /** `overlap(a, b)`: the two rectangles share interior area; touching edges do not count. */
  predicate Overlap(a: Rect, b: Rect) {
    a.x < b.x + b.w && a.x + a.w > b.x && a.y < b.y + b.h && a.y + a.h > b.y
  }

  /** `t` lies strictly inside the open interval (lo, hi). */
  predicate InOpen(t: real, lo: real, hi: real) {
    lo < t < hi
  }

  /** The open intervals (lo1, hi1) and (lo2, hi2) have a point in common. */
  ghost predicate OpenIntervalsMeet(lo1: real, hi1: real, lo2: real, hi2: real) {
    exists t :: InOpen(t, lo1, hi1) && InOpen(t, lo2, hi2)
  }

  /** Two non-empty open intervals meet exactly when each starts before the other ends. */
  lemma OpenIntervalsMeetIff(lo1: real, hi1: real, lo2: real, hi2: real)
    requires lo1 < hi1 && lo2 < hi2
    ensures OpenIntervalsMeet(lo1, hi1, lo2, hi2) <==> lo1 < hi2 && lo2 < hi1
  {
    if lo1 < hi2 && lo2 < hi1 {
      var lo := if lo1 < lo2 then lo2 else lo1;
      var hi := if hi1 < hi2 then hi1 else hi2;
      var t := (lo + hi) / 2.0;
      assert InOpen(t, lo1, hi1) && InOpen(t, lo2, hi2);
    }
  }

  /** The overlap test is the intersection of the open x-intervals and of the open y-intervals. */
  lemma OverlapIffOpenIntervalsMeet(a: Rect, b: Rect)
    requires WellFormed(a) && WellFormed(b)
    ensures Overlap(a, b) <==>
              OpenIntervalsMeet(a.x, a.x + a.w, b.x, b.x + b.w) &&
              OpenIntervalsMeet(a.y, a.y + a.h, b.y, b.y + b.h)
  {
    OpenIntervalsMeetIff(a.x, a.x + a.w, b.x, b.x + b.w);
    OpenIntervalsMeetIff(a.y, a.y + a.h, b.y, b.y + b.h);
  }

  /** The test is symmetric, and rectangles that only share an edge do not overlap. */
  lemma OverlapSymmetricAndStrict(a: Rect, b: Rect)
    ensures Overlap(a, b) == Overlap(b, a)
    ensures a.x + a.w == b.x || b.x + b.w == a.x || a.y + a.h == b.y || b.y + b.h == a.y
            ==> !Overlap(a, b)
  {
  }
}
