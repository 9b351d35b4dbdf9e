/** Python's `sum`, `min` and `max` over the list of successful durations.
    Durations are exact reals here; floating-point rounding is not modelled. */
module Durations {

  /** `sum(xs)`, adding left to right. */
  function Sum(xs: seq<real>): real {
    if xs == [] then 0.0 else Sum(xs[..|xs| - 1]) + xs[|xs| - 1]
  }

  /** `min(xs)`: an element of the list that no element is below. */
  function Min(xs: seq<real>): (m: real)
    requires |xs| > 0
    ensures m in xs
    ensures forall i :: 0 <= i < |xs| ==> m <= xs[i]
  {
    if |xs| == 1 then xs[0]
    else
      var rest := Min(xs[1..]);
      if rest < xs[0] then rest else xs[0]
  }

  /** `max(xs)`: an element of the list that no element is above. */
  function Max(xs: seq<real>): (m: real)
    requires |xs| > 0
    ensures m in xs
    ensures forall i :: 0 <= i < |xs| ==> xs[i] <= m
  {
    if |xs| == 1 then xs[0]
    else
      var rest := Max(xs[1..]);
      if rest > xs[0] then rest else xs[0]
  }

  /** A sum of values within [lo, hi] lies within [n * lo, n * hi]. */
  lemma {:induction false} SumBounds(xs: seq<real>, lo: real, hi: real)
    requires forall i :: 0 <= i < |xs| ==> lo <= xs[i] <= hi
    ensures |xs| as real * lo <= Sum(xs) <= |xs| as real * hi
  {
    if xs != [] {
      SumBounds(xs[..|xs| - 1], lo, hi);
    }
  }

  lemma ScaledBounds(lo: real, total: real, hi: real, n: real)
    requires n > 0.0 && n * lo <= total <= n * hi
    ensures lo <= total / n <= hi
  {
  }

  /** The average of values within [lo, hi] lies within [lo, hi]. */
  lemma AverageBounds(xs: seq<real>, lo: real, hi: real)
    requires |xs| > 0
    requires forall i :: 0 <= i < |xs| ==> lo <= xs[i] <= hi
    ensures lo <= Sum(xs) / |xs| as real <= hi
  {
    SumBounds(xs, lo, hi);
    ScaledBounds(lo, Sum(xs), hi, |xs| as real);
  }

  /** The average lies between the minimum and the maximum. */
  lemma AverageWithinRange(xs: seq<real>)
    requires |xs| > 0
    ensures Min(xs) <= Sum(xs) / |xs| as real <= Max(xs)
  {
    AverageBounds(xs, Min(xs), Max(xs));
  }
}
