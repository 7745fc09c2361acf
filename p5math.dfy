/** The p5.js numeric helpers that the frame step calls, over exact reals. */
module P5Math {

  /** p5's `abs`. */
  function Abs(v: real): (r: real)
    ensures r >= 0.0
    ensures r == v || r == -v
  {
    if v < 0.0 then -v else v
  }

  /** `v` lies in the closed interval spanned by `a` and `b`, in either order. */
  predicate Between(v: real, a: real, b: real) {
    (a <= v <= b) || (b <= v <= a)
  }

  /** p5's `constrain(n, low, high)`, computed as max(min(n, high), low). */
  function Constrain(n: real, low: real, high: real): (r: real)
    ensures low <= high ==> low <= r <= high
    ensures low <= n <= high ==> r == n
    ensures n < low ==> r == low
    ensures low <= high < n ==> r == high
  {
    var m := if n < high then n else high;
    if m > low then m else low
  }
}
