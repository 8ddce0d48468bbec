/** Conditional Value-at-Risk of a list of samples: the mean of the
    samples strictly above the alpha-quantile, or 0 when there are none. */
module TailRisk {
  import opened Reals
  import opened Quantiles

  /** The samples strictly above the threshold (`s[s > t]`), in order:
      each value above t as often as it occurs in s, and no other value. */
  function Above(s: seq<real>, t: real): (r: seq<real>)
    ensures |r| <= |s|
    ensures forall x :: x in r <==> x in s && x > t
    ensures forall x :: multiset(r)[x] == if x > t then multiset(s)[x] else 0
  {
    if s == [] then []
    else
      var rest := Above(s[1..], t);
      assert s == [s[0]] + s[1..];
      if s[0] > t then [s[0]] + rest else rest
  }

  /** No sample exceeds the threshold exactly when the tail is empty. */
  lemma AboveEmpty(s: seq<real>, t: real)
    ensures |Above(s, t)| == 0 <==> forall i :: 0 <= i < |s| ==> s[i] <= t
  {
    if |Above(s, t)| == 0 {
      forall i | 0 <= i < |s| ensures s[i] <= t {
        assert s[i] in s;
      }
    } else {
      assert Above(s, t)[0] in Above(s, t);
    }
  }

  /** `np.mean(s[s > t]) if np.any(s > t) else 0.0`. */
  function TailMean(s: seq<real>, t: real): (m: real)
    ensures |Above(s, t)| == 0 ==> m == 0.0
    ensures |Above(s, t)| > 0 ==> m == Sum(Above(s, t)) / (|Above(s, t)| as real)
    ensures |Above(s, t)| > 0 ==> |s| > 0 && t < m <= Max(s)
  {
    var tail := Above(s, t);
    if |tail| > 0 then
      TailMeanBounds(s, t);
      Sum(tail) / (|tail| as real)
    else
      0.0
  }

  lemma TailMeanBounds(s: seq<real>, t: real)
    requires |Above(s, t)| > 0
    ensures |s| > 0
    ensures t < Sum(Above(s, t)) / (|Above(s, t)| as real) <= Max(s)
  {
    var tail := Above(s, t);
    assert tail[0] in s;
    var hi := Max(s);
    forall i | 0 <= i < |tail| ensures t < tail[i] <= hi {
      assert tail[i] in tail;
    }
    MeanWithin(tail, t, hi);
  }

  /** CVaR at level alpha: the mean of the samples strictly above the
      alpha-quantile, or 0 when none is. */
  function Cvar(samples: seq<real>, alpha: real): real
    requires |samples| > 0 && 0.0 <= alpha <= 1.0
  {
    TailMean(samples, Quantile(samples, alpha))
  }

  /** The penalty of non-negative samples is non-negative and at most the
      largest sample; it is 0 exactly when no sample exceeds the quantile,
      and otherwise it lies strictly above the quantile. */
  lemma CvarBounds(samples: seq<real>, alpha: real)
    requires |samples| > 0 && 0.0 <= alpha <= 1.0
    requires forall i :: 0 <= i < |samples| ==> samples[i] >= 0.0
    ensures 0.0 <= Cvar(samples, alpha) <= Max(samples)
    ensures (forall i :: 0 <= i < |samples| ==> samples[i] <= Quantile(samples, alpha))
            <==> Cvar(samples, alpha) == 0.0
  {
    var q := Quantile(samples, alpha);
    QuantileBounds(samples, alpha);
    assert 0.0 <= Min(samples) <= q;
    assert 0.0 <= samples[0] <= Max(samples);
    AboveEmpty(samples, q);
  }

  /** When every sample has the same value (as with zero jitter) the
      quantile is that value, nothing lies strictly above it, and the
      penalty is 0. */
  lemma CvarOfEqualSamples(samples: seq<real>, alpha: real)
    requires |samples| > 0 && 0.0 <= alpha <= 1.0
    requires forall i :: 0 <= i < |samples| ==> samples[i] == samples[0]
    ensures Quantile(samples, alpha) == samples[0]
    ensures Cvar(samples, alpha) == 0.0
  {
    QuantileBounds(samples, alpha);
    assert Min(samples) == samples[0] && Max(samples) == samples[0];
    AboveEmpty(samples, samples[0]);
  }
}
