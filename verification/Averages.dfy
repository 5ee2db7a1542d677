/** What the indicators compute, as functions of the whole price history. */
module Averages {
  import opened Reals

  function Sum(xs: seq<real>): real {
    if xs == [] then 0.0 else Sum(xs[..|xs| - 1]) + xs[|xs| - 1]
  }

  function Mean(xs: seq<real>): real
    requires xs != []
  {
    Ratio(Sum(xs), |xs| as real)
  }

  function LastN(xs: seq<real>, n: nat): (ys: seq<real>)
    ensures |ys| == if |xs| < n then |xs| else n
  {
    if |xs| <= n then xs else xs[|xs| - n..]
  }

  lemma {:induction false} SumConcat(xs: seq<real>, ys: seq<real>)
    ensures Sum(xs + ys) == Sum(xs) + Sum(ys)
  {
    if ys == [] {
      assert xs + ys == xs;
    } else {
      SumConcat(xs, ys[..|ys| - 1]);
      assert (xs + ys)[..|xs + ys| - 1] == xs + ys[..|ys| - 1];
    }
  }

  lemma {:induction false} SumAppend(xs: seq<real>, v: real)
    ensures Sum(xs + [v]) == Sum(xs) + v
  {
  }

  lemma SumOne(v: real)
    ensures Sum([v]) == v
  {
  }

  lemma {:induction false} SumBounds(xs: seq<real>, lo: real, hi: real)
    requires forall i :: 0 <= i < |xs| ==> lo <= xs[i] <= hi
    ensures lo * |xs| as real <= Sum(xs) <= hi * |xs| as real
  {
    if xs != [] {
      var n := |xs| - 1;
      SumBounds(xs[..n], lo, hi);
      assert lo * (n + 1) as real == lo * n as real + lo;
      assert hi * (n + 1) as real == hi * n as real + hi;
    }
  }

  // ---- exponential average -----------------------------------------------------------------------

  function Weight(period: int): real
    requires period >= 1
  {
    Ratio(2.0, period as real + 1.0)
  }

  lemma WeightInUnit(period: int)
    requires period >= 1
    ensures 0.0 <= Weight(period) <= 1.0
  {
  }

  function Blended(x: real, y: real, k: real): real {
    x * k + y * (1.0 - k)
  }

  /** Seeded with the mean of the first `period` values, then a weighted mean of each value and the last result. */
  function ExpMean(xs: seq<real>, period: int): real
    requires 1 <= period <= |xs|
    decreases |xs|
  {
    if |xs| == period then Mean(xs)
    else Blended(xs[|xs| - 1], ExpMean(xs[..|xs| - 1], period), Weight(period))
  }

  /** The exponential average never leaves the range of the values seen. */
  lemma {:induction false} ExpMeanInRange(xs: seq<real>, period: int, lo: real, hi: real)
    requires 1 <= period <= |xs| && forall i :: 0 <= i < |xs| ==> lo <= xs[i] <= hi
    ensures lo <= ExpMean(xs, period) <= hi
    decreases |xs|
  {
    hide Ratio, Weight;
    if |xs| == period {
      SumBounds(xs, lo, hi);
      RatioBounds(Sum(xs), |xs| as real, lo, hi);
    } else {
      ExpMeanInRange(xs[..|xs| - 1], period, lo, hi);
      WeightInUnit(period);
      Convex(xs[|xs| - 1], ExpMean(xs[..|xs| - 1], period), Weight(period), lo, hi);
    }
  }

  // ---- moving-average convergence ------------------------------------------------------------------

  function Longer(fast: int, slow: int): int {
    if fast < slow then slow else fast
  }

  /** The difference of the two averages, for each prefix of the history on which both are ready. */
  function Lines(xs: seq<real>, fast: int, slow: int): (ys: seq<real>)
    requires fast >= 1 && slow >= 1
    ensures |ys| == if |xs| < Longer(fast, slow) then 0 else |xs| - Longer(fast, slow) + 1
    decreases |xs|
  {
    if |xs| < Longer(fast, slow) then []
    else Lines(xs[..|xs| - 1], fast, slow) + [ExpMean(xs, fast) - ExpMean(xs, slow)]
  }

  // ---- affine change of prices ----------------------------------------------------------------------

  /** The prices in another unit and from another zero. */
  function Affine(xs: seq<real>, c: real, d: real): (ys: seq<real>)
    ensures |ys| == |xs| && forall i :: 0 <= i < |xs| ==> ys[i] == Shift(xs[i], c, d)
  {
    seq(|xs|, i requires 0 <= i < |xs| => Shift(xs[i], c, d))
  }

  function Shift(x: real, c: real, d: real): real {
    c * x + d
  }

  lemma AffinePrefix(xs: seq<real>, c: real, d: real, n: nat)
    requires n <= |xs|
    ensures Affine(xs, c, d)[..n] == Affine(xs[..n], c, d)
    ensures Affine(xs, c, d)[n..] == Affine(xs[n..], c, d)
  {
  }

  lemma {:induction false} SumAffine(xs: seq<real>, c: real, d: real)
    ensures Sum(Affine(xs, c, d)) == c * Sum(xs) + d * |xs| as real
  {
    if xs != [] {
      var n := |xs| - 1;
      AffinePrefix(xs, c, d, n);
      SumAffine(xs[..n], c, d);
      assert c * (Sum(xs[..n]) + xs[n]) == c * Sum(xs[..n]) + c * xs[n];
      assert d * (n + 1) as real == d * n as real + d;
    }
  }

  lemma MeanAffine(xs: seq<real>, c: real, d: real)
    requires xs != []
    ensures Mean(Affine(xs, c, d)) == c * Mean(xs) + d
  {
    hide Ratio;
    SumAffine(xs, c, d);
    var n := |xs| as real;
    RatioIs(Sum(xs), n, 0.0);
    assert (c * Mean(xs) + d) * n == c * (Mean(xs) * n) + d * n;
    RatioIs(Sum(Affine(xs, c, d)), n, c * Mean(xs) + d);
  }

  lemma LastNAffine(xs: seq<real>, c: real, d: real, n: nat)
    ensures LastN(Affine(xs, c, d), n) == Affine(LastN(xs, n), c, d)
  {
  }

  lemma {:induction false} ExpMeanAffine(xs: seq<real>, period: int, c: real, d: real)
    requires 1 <= period <= |xs|
    ensures ExpMean(Affine(xs, c, d), period) == c * ExpMean(xs, period) + d
    decreases |xs|
  {
    hide Weight, Mean, Blended;
    if |xs| == period {
      MeanAffine(xs, c, d);
    } else {
      var n := |xs| - 1;
      AffinePrefix(xs, c, d, n);
      ExpMeanAffine(xs[..n], period, c, d);
      var x, y := xs[n], ExpMean(xs[..n], period);
      var ys := Affine(xs, c, d);
      var x', y' := ys[n], ExpMean(ys[..n], period);
      BlendedAffine(x', y', x, y, Weight(period), c, d);
    }
  }

  lemma BlendedAffine(x': real, y': real, x: real, y: real, k: real, c: real, d: real)
    requires x' == c * x + d && y' == c * y + d
    ensures Blended(x', y', k) == c * Blended(x, y, k) + d
  {
  }

  /** One more point on the line. */
  lemma LineAffine(xs: seq<real>, fast: int, slow: int, c: real, d: real)
    requires fast >= 1 && slow >= 1 && |xs| >= Longer(fast, slow)
    ensures var zs := Affine(xs, c, d);
      ExpMean(zs, fast) - ExpMean(zs, slow) == Shift(ExpMean(xs, fast) - ExpMean(xs, slow), c, 0.0)
  {
    hide ExpMean;
    ExpMeanAffine(xs, fast, c, d);
    ExpMeanAffine(xs, slow, c, d);
  }

  lemma {:induction false} AffineAppend(xs: seq<real>, x: real, c: real, d: real)
    ensures Affine(xs + [x], c, d) == Affine(xs, c, d) + [Shift(x, c, d)]
  {
  }

  lemma {:induction false} LinesAffine(xs: seq<real>, fast: int, slow: int, c: real, d: real)
    requires fast >= 1 && slow >= 1
    ensures Lines(Affine(xs, c, d), fast, slow) == Affine(Lines(xs, fast, slow), c, 0.0)
    decreases |xs|
  {
    hide ExpMean, Shift;
    if |xs| >= Longer(fast, slow) {
      var n := |xs| - 1;
      AffinePrefix(xs, c, d, n);
      LinesAffine(xs[..n], fast, slow, c, d);
      LineAffine(xs, fast, slow, c, d);
      AffineAppend(Lines(xs[..n], fast, slow), ExpMean(xs, fast) - ExpMean(xs, slow), c, 0.0);
    }
  }
}
