/**
 * Helpers the gauge inherits from its widget base class and takes from the
 * platform: the range limiter, the maximum of three values, the in-place swap
 * of two array entries, and the rounding of `Math.round`.
 * The base class is not part of this model; these are the behaviours the
 * gauge relies on.
 */
module Widget {

  function Min(a: real, b: real): real { if a <= b then a else b }

  function Max(a: real, b: real): real { if a <= b then b else a }

  function Abs(x: real): real { if x < 0.0 then -x else x }

  /** `x` lies in the closed interval spanned by `a` and `b`, whichever is larger. */
  predicate Between(x: real, a: real, b: real) {
    Min(a, b) <= x <= Max(a, b)
  }

  /** `x` has no fractional part. */
  predicate IsInteger(x: real) {
    x.Floor as real == x
  }

  /**
   * `Math.round` on a float: the nearest integer, halves rounded up, that is
   * `floor(x + 0.5)`. (The saturation at the 32-bit range is not modelled.)
   */
  function Round(x: real): (r: int)
    ensures x - 0.5 < r as real <= x + 0.5
  {
    (x + 0.5).Floor
  }

  /**
   * `valueRangeLimit`: limits `value` to the interval spanned by the two
   * bounds, in either order.
   */
  function ValueRangeLimit(value: real, startValue: real, endValue: real): (r: real)
    ensures Between(r, startValue, endValue)
    ensures Between(value, startValue, endValue) ==> r == value
    ensures value < Min(startValue, endValue) ==> r == Min(startValue, endValue)
    ensures value > Max(startValue, endValue) ==> r == Max(startValue, endValue)
  {
    var lo := Min(startValue, endValue);
    var hi := Max(startValue, endValue);
    if value < lo then lo else if value > hi then hi else value
  }

  /** `findMaxValue` over three values: an upper bound that is one of them. */
  function FindMaxValue(a: real, b: real, c: real): (r: real)
    ensures a <= r && b <= r && c <= r
    ensures r == a || r == b || r == c
  {
    Max(Max(a, b), c)
  }

  /** `swapArrayPosition`: exchanges two entries of an array in place. */
  method SwapArrayPosition<T>(a: array<T>, i: nat, j: nat)
    requires i < a.Length && j < a.Length
    modifies a
    ensures a[..] == old(a[..])[i := old(a[j])][j := old(a[i])]
  {
    a[i], a[j] := a[j], a[i];
  }
}
