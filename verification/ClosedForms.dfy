/** What each indicator weighs, value by value: closed forms of the averages and of what they average. */
module ClosedForms {
  import opened Reals
  import opened Averages
  import opened Momentum

  // ---- windows and changes -------------------------------------------------------------------------

  /** The window of a simple average: the values pushed last, in order. */
  lemma LastNElements(xs: seq<real>, n: nat, j: nat)
    requires j < n && j < |xs|
    ensures j < |LastN(xs, n)| && LastN(xs, n)[|LastN(xs, n)| - 1 - j] == xs[|xs| - 1 - j]
  {
  }

  /** A mean times the number of values is their sum, added up one by one. */
  lemma MeanTimesCount(xs: seq<real>, v: real)
    ensures Mean(xs + [v]) * (|xs| as real + 1.0) == Sum(xs) + v && Sum([]) == 0.0
  {
    hide Ratio, Sum;
    NoSum();
    SumAppend(xs, v);
    assert |xs + [v]| as real == |xs| as real + 1.0;
    RatioIs(Sum(xs) + v, |xs| as real + 1.0, 0.0);
  }

  lemma NoSum()
    ensures Sum([]) == 0.0
  {
  }

  /** Rise and fall of a bar: one of them is zero, neither is negative, and their difference is the change. */
  lemma {:induction false} ChangesElements(xs: seq<real>, i: nat)
    requires i + 1 < |xs|
    ensures Gains(xs)[i] - Losses(xs)[i] == xs[i + 1] - xs[i]
    ensures Gains(xs)[i] >= 0.0 && Losses(xs)[i] >= 0.0 && (Gains(xs)[i] == 0.0 || Losses(xs)[i] == 0.0)
  {
    if i + 2 < |xs| {
      var n := |xs| - 1;
      ChangesElements(xs[..n], i);
      assert Gains(xs)[i] == Gains(xs[..n])[i] && Losses(xs)[i] == Losses(xs[..n])[i];
    }
  }

  /** The i-th difference of the averages is that of the first max(fast, slow) + i prices. */
  lemma {:induction false} LinesElements(xs: seq<real>, fast: int, slow: int, i: nat)
    requires fast >= 1 && slow >= 1
    requires i + (if fast < slow then slow else fast) <= |xs|
    ensures var n := i + if fast < slow then slow else fast;
      i < |Lines(xs, fast, slow)| && Lines(xs, fast, slow)[i] == ExpMean(xs[..n], fast) - ExpMean(xs[..n], slow)
  {
    hide ExpMean;
    var n := i + if fast < slow then slow else fast;
    if n < |xs| {
      var m := |xs| - 1;
      LinesElements(xs[..m], fast, slow, i);
      assert xs[..m][..n] == xs[..n];
    } else {
      assert xs[..n] == xs;
    }
  }

  // ---- averages that forget --------------------------------------------------------------------------

  function Power(q: real, n: nat): real {
    if n == 0 then 1.0 else Weighed(q, Power(q, n - 1))
  }

  lemma BlendedIsWeighed(x: real, y: real, k: real)
    ensures Blended(x, y, k) == Weighed(k, x) + Weighed(1.0 - k, y)
  {
  }

  /** The last `m` values, the one pushed j steps ago weighing k * (1 - k)^j. */
  function Recent(xs: seq<real>, m: nat, k: real): real
    requires m <= |xs|
  {
    if m == 0 then 0.0
    else Recent(xs, m - 1, k) + Weighed(Weighed(k, Power(1.0 - k, m - 1)), xs[|xs| - m])
  }

  /** Seeded with the mean of the first `period` values, then each value weighing `k`. */
  function Forgetting(xs: seq<real>, period: int, k: real): real
    requires 1 <= period <= |xs|
    decreases |xs|
  {
    if |xs| == period then Mean(xs)
    else Blended(xs[|xs| - 1], Forgetting(xs[..|xs| - 1], period, k), k)
  }

  lemma {:induction false} RecentShifts(xs: seq<real>, m: nat, k: real)
    requires 1 <= m <= |xs|
    ensures Recent(xs, m, k) == Weighed(k, xs[|xs| - 1]) + Weighed(1.0 - k, Recent(xs[..|xs| - 1], m - 1, k))
  {
    hide Weighed;
    var n, q := |xs| - 1, 1.0 - k;
    if m == 1 {
      WeighedUnits(k);
      WeighedUnits(q);
    } else {
      var p, v := Power(q, m - 2), xs[|xs| - m];
      RecentShifts(xs, m - 1, k);
      WeighedSum(q, Recent(xs[..n], m - 2, k), Weighed(Weighed(k, p), v));
      WeighedTwice(k, q, p);
      WeighedTwice(q, Weighed(k, p), v);
    }
  }

  lemma {:induction false} ForgettingIs(xs: seq<real>, period: int, k: real)
    requires 1 <= period <= |xs|
    ensures var m := |xs| - period;
      Forgetting(xs, period, k) == Recent(xs, m, k) + Weighed(Power(1.0 - k, m), Mean(xs[..period]))
    decreases |xs|
  {
    hide Mean, Blended, Weighed;
    var m, n, q := |xs| - period, |xs| - 1, 1.0 - k;
    if m == 0 {
      assert xs[..period] == xs;
      WeighedUnits(Mean(xs));
    } else {
      assert xs[..n][..period] == xs[..period];
      ForgettingIs(xs[..n], period, k);
      RecentShifts(xs, m, k);
      var p, w := Power(q, m - 1), Mean(xs[..period]);
      BlendedIsWeighed(xs[n], Forgetting(xs[..n], period, k), k);
      WeighedSum(q, Recent(xs[..n], m - 1, k), Weighed(p, w));
      WeighedTwice(q, p, w);
    }
  }

  lemma {:induction false} ExpMeanForgets(xs: seq<real>, period: int)
    requires 1 <= period <= |xs|
    ensures ExpMean(xs, period) == Forgetting(xs, period, Weight(period))
    decreases |xs|
  {
    hide Mean, Weight, Blended;
    if |xs| > period { ExpMeanForgets(xs[..|xs| - 1], period); }
  }

  lemma WeightTimes(period: int)
    requires period >= 1
    ensures Weight(period) * (period as real + 1.0) == 2.0
  {
    hide Ratio;
    RatioIs(2.0, period as real + 1.0, 0.0);
  }

  /**
   * The exponential average in closed form: the value pushed j steps ago weighs k * (1 - k)^j, the mean of the
   * first `period` values what is left, with k * (period + 1) == 2.
   */
  lemma ExpMeanClosedForm(xs: seq<real>, period: int) returns (k: real)
    requires 1 <= period <= |xs|
    ensures k * (period as real + 1.0) == 2.0
    ensures var m := |xs| - period;
      ExpMean(xs, period) == Recent(xs, m, k) + Weighed(Power(1.0 - k, m), Mean(xs[..period]))
  {
    hide Weight, ExpMean, Forgetting, Recent, Power, Mean, Weighed;
    k := Weight(period);
    WeightTimes(period);
    ExpMeanForgets(xs, period);
    ForgettingIs(xs, period, k);
  }

  lemma SmoothIsBlended(before: real, v: real, period: int, k: real)
    requires period >= 1 && k * period as real == 1.0
    ensures Smooth(before, v, period) == Blended(v, before, k)
  {
    hide Ratio, Blended;
    RatioOfBlend(before, v, period as real, k);
  }

  lemma RatioOfBlend(w: real, v: real, p: real, k: real)
    requires p > 0.0 && k * p == 1.0
    ensures Ratio(w * (p - 1.0) + v, p) == Blended(v, w, k)
  {
    assert v * k * p == v * (k * p);
    assert w * (1.0 - k) * p == w * (p - k * p);
    assert Blended(v, w, k) * p == w * (p - 1.0) + v;
    hide Ratio, Blended;
    RatioIs(w * (p - 1.0) + v, p, Blended(v, w, k));
  }

  lemma {:induction false} WilderForgets(vs: seq<real>, period: int, k: real)
    requires 1 <= period <= |vs| && k * period as real == 1.0
    ensures Wilder(vs, period) == Forgetting(vs, period, k)
    decreases |vs|
  {
    hide Mean, Smooth, Blended;
    if |vs| > period {
      var n := |vs| - 1;
      WilderForgets(vs[..n], period, k);
      SmoothIsBlended(Wilder(vs[..n], period), vs[n], period, k);
    }
  }

  /** Wilder's average in closed form: the same with k * period == 1. */
  lemma WilderClosedForm(vs: seq<real>, period: int) returns (k: real)
    requires 1 <= period <= |vs|
    ensures k * period as real == 1.0
    ensures var m := |vs| - period;
      Wilder(vs, period) == Recent(vs, m, k) + Weighed(Power(1.0 - k, m), Mean(vs[..period]))
  {
    hide Ratio, Wilder, Forgetting, Recent, Power, Mean, Weighed;
    k := Ratio(1.0, period as real);
    RatioIs(1.0, period as real, 0.0);
    WilderForgets(vs, period, k);
    ForgettingIs(vs, period, k);
  }
}
