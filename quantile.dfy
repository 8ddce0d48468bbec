/** numpy's default (linear-interpolation) quantile over reals, and the
    fact that it lies between the smallest and the largest sample. */
module Quantiles {
  import opened Reals

  /** `np.quantile(s, alpha)` with numpy's default linear interpolation:
      the value at virtual index (n - 1) * alpha of the ascending samples,
      interpolated between its two neighbours. numpy rejects a level
      outside [0, 1]. */
  function Quantile(s: seq<real>, alpha: real): real
    requires |s| > 0
    requires 0.0 <= alpha <= 1.0
  {
    Interpolate(Sort(s), VirtualIndex(|s|, alpha))
  }

  /** The value at fractional position h of a list: the element at the
      floor of h, moved towards its right neighbour (if any) by the
      fractional part of h. */
  function Interpolate(sorted: seq<real>, h: real): real
    requires 0.0 <= h && h.Floor < |sorted|
  {
    var lo := h.Floor;
    if lo + 1 < |sorted| then Lerp(sorted[lo], sorted[lo + 1], h - lo as real) else sorted[lo]
  }

  /** (n - 1) * alpha, together with the facts that place its floor inside
      the sample list. */
  function VirtualIndex(n: nat, alpha: real): (h: real)
    requires n > 0 && 0.0 <= alpha <= 1.0
    ensures 0.0 <= h <= (n - 1) as real
    ensures 0 <= h.Floor < n && 0.0 <= h - h.Floor as real < 1.0
  {
    var m := (n - 1) as real;
    MulNonNegative(m, alpha);
    MulNonNegative(m, 1.0 - alpha);
    assert m * alpha + m * (1.0 - alpha) == m;
    m * alpha
  }

  function Lerp(a: real, b: real, frac: real): real
  {
    a + frac * (b - a)
  }

  lemma LerpBetween(a: real, b: real, frac: real)
    requires a <= b && 0.0 <= frac <= 1.0
    ensures a <= Lerp(a, b, frac) <= b
  {
    MulNonNegative(frac, b - a);
    MulNonNegative(1.0 - frac, b - a);
    assert frac * (b - a) + (1.0 - frac) * (b - a) == b - a;
  }

  /** On an ascending list the interpolated value lies between the first
      and the last element. */
  lemma InterpolateBetween(sorted: seq<real>, h: real)
    requires Sorted(sorted)
    requires 0.0 <= h && h.Floor < |sorted|
    ensures sorted[0] <= Interpolate(sorted, h) <= sorted[|sorted| - 1]
  {
    var lo := h.Floor;
    if lo + 1 < |sorted| {
      LerpBetween(sorted[lo], sorted[lo + 1], h - lo as real);
    }
  }

  /** The quantile lies between the smallest and the largest sample. */
  lemma QuantileBounds(s: seq<real>, alpha: real)
    requires |s| > 0
    requires 0.0 <= alpha <= 1.0
    ensures Min(s) <= Quantile(s, alpha) <= Max(s)
  {
    InterpolatedSampleBounds(s, VirtualIndex(|s|, alpha));
  }

  /** Interpolating anywhere in the ascending copy of s stays between the
      smallest and the largest sample. */
  lemma InterpolatedSampleBounds(s: seq<real>, h: real)
    requires 0.0 <= h && h.Floor < |s|
    ensures Min(s) <= Interpolate(Sort(s), h) <= Max(s)
  {
    SortEnds(s);
    InterpolateBetween(Sort(s), h);
  }

  /** The ascending copy starts at or above the minimum and ends at or
      below the maximum. */
  lemma SortEnds(s: seq<real>)
    requires |s| > 0
    ensures Sorted(Sort(s))
    ensures Min(s) <= Sort(s)[0] && Sort(s)[|s| - 1] <= Max(s)
  {
    SortSorted(s);
    SortedElementBounds(s, Sort(s), 0);
    SortedElementBounds(s, Sort(s), |s| - 1);
  }

  lemma SortedElementBounds(s: seq<real>, sorted: seq<real>, k: int)
    requires |s| > 0 && multiset(sorted) == multiset(s) && 0 <= k < |s|
    ensures 0 <= k < |sorted| && Min(s) <= sorted[k] <= Max(s)
  {
    assert |sorted| == |multiset(sorted)| == |s|;
    assert sorted[k] in multiset(sorted);
    assert sorted[k] in s;
  }
}
