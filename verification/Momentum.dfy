/** Wilder's relative strength, as a function of the whole price history. */
module Momentum {
  import opened Reals
  import opened Averages

  function Gain(delta: real): real { if delta > 0.0 then delta else 0.0 }

  function Loss(delta: real): real { if delta < 0.0 then -delta else 0.0 }

  /** The rises between neighbouring prices, falls counting as zero. */
  function Gains(xs: seq<real>): (gs: seq<real>)
    ensures |gs| == if xs == [] then 0 else |xs| - 1
  {
    if |xs| <= 1 then [] else Gains(xs[..|xs| - 1]) + [Gain(xs[|xs| - 1] - xs[|xs| - 2])]
  }

  function Losses(xs: seq<real>): (ls: seq<real>)
    ensures |ls| == if xs == [] then 0 else |xs| - 1
  {
    if |xs| <= 1 then [] else Losses(xs[..|xs| - 1]) + [Loss(xs[|xs| - 1] - xs[|xs| - 2])]
  }

  /** How one more price changes the rises and falls. */
  lemma {:induction false} ChangesAppend(xs: seq<real>, x: real)
    ensures xs == [] ==> Gains(xs + [x]) == Gains(xs) && Losses(xs + [x]) == Losses(xs)
    ensures xs != [] ==> Gains(xs + [x]) == Gains(xs) + [Gain(x - xs[|xs| - 1])]
    ensures xs != [] ==> Losses(xs + [x]) == Losses(xs) + [Loss(x - xs[|xs| - 1])]
  {
  }

  function Smooth(before: real, v: real, period: int): real
    requires period >= 1
  {
    Ratio(before * (period as real - 1.0) + v, period as real)
  }

  /** Wilder's average: the mean of the first `period` values, then each value smoothed in. */
  function Wilder(vs: seq<real>, period: int): real
    requires 1 <= period <= |vs|
    decreases |vs|
  {
    if |vs| == period then Mean(vs) else Smooth(Wilder(vs[..|vs| - 1], period), vs[|vs| - 1], period)
  }

  /** The index from the two averages; 100 when there were no losses. */
  function Strength(gain: real, loss: real): real
    requires gain >= 0.0 && loss >= 0.0
  {
    if loss == 0.0 then 100.0 else 100.0 - Ratio(100.0, 1.0 + RatioNonNegative(gain, loss))
  }

  function RatioNonNegative(a: real, b: real): (r: real)
    requires a >= 0.0 && b > 0.0
    ensures r >= 0.0 && r == Ratio(a, b)
  {
    RatioBounds(a, b, 0.0, if a == 0.0 then 0.0 else Ratio(a, b));
    Ratio(a, b)
  }

  predicate NonNegative(vs: seq<real>) {
    forall i :: 0 <= i < |vs| ==> vs[i] >= 0.0
  }

  lemma {:induction false} ChangesNonNegative(xs: seq<real>)
    ensures NonNegative(Gains(xs)) && NonNegative(Losses(xs))
  {
    if |xs| > 1 { ChangesNonNegative(xs[..|xs| - 1]); }
  }

  lemma {:induction false} SumNonNegative(vs: seq<real>)
    requires NonNegative(vs)
    ensures Sum(vs) >= 0.0
  {
    if vs != [] { SumNonNegative(vs[..|vs| - 1]); }
  }

  lemma {:induction false} WilderNonNegative(vs: seq<real>, period: int)
    requires 1 <= period <= |vs| && NonNegative(vs)
    ensures Wilder(vs, period) >= 0.0
    decreases |vs|
  {
    hide Ratio, Smooth;
    if |vs| == period {
      SumNonNegative(vs);
      RatioAtLeastZero(Sum(vs), |vs| as real);
    } else {
      WilderNonNegative(vs[..|vs| - 1], period);
      SmoothNonNegative(Wilder(vs[..|vs| - 1], period), vs[|vs| - 1], period);
    }
  }

  lemma SmoothNonNegative(w: real, v: real, period: int)
    requires w >= 0.0 && v >= 0.0 && period >= 1
    ensures Smooth(w, v, period) >= 0.0
  {
  }

  /** How one more value changes the average. */
  lemma {:induction false} WilderStep(vs: seq<real>, v: real, period: int)
    requires 1 <= period <= |vs| + 1
    ensures |vs| + 1 == period ==> Wilder(vs + [v], period) == Ratio(Sum(vs) + v, period as real)
    ensures |vs| + 1 > period ==> Wilder(vs + [v], period) == Smooth(Wilder(vs, period), v, period)
  {
  }

  lemma RatioAtLeastZero(a: real, b: real)
    requires a >= 0.0 && b > 0.0
    ensures Ratio(a, b) >= 0.0
  {
  }

  /** The index of a price history long enough to have one. */
  function Index(xs: seq<real>, period: int): real
    requires 1 <= period < |xs|
  {
    ChangesNonNegative(xs);
    WilderNonNegative(Gains(xs), period);
    WilderNonNegative(Losses(xs), period);
    Strength(Wilder(Gains(xs), period), Wilder(Losses(xs), period))
  }

  lemma StrengthTimes(gain: real, loss: real)
    requires gain >= 0.0 && loss >= 0.0 && gain + loss > 0.0
    ensures Strength(gain, loss) * (gain + loss) == 100.0 * gain
  {
  }

  /** The index is the share of gains in all changes, in percent, or 100 when nothing changed. */
  lemma StrengthIsShare(gain: real, loss: real)
    requires gain >= 0.0 && loss >= 0.0
    ensures gain + loss > 0.0 ==> Strength(gain, loss) == Ratio(100.0 * gain, gain + loss)
    ensures gain + loss == 0.0 ==> Strength(gain, loss) == 100.0
  {
    if gain + loss > 0.0 {
      hide Ratio, Strength;
      StrengthTimes(gain, loss);
      RatioIs(100.0 * gain, gain + loss, Strength(gain, loss));
    }
  }

  /** The index always lies between 0 and 100. */
  lemma IndexInRange(xs: seq<real>, period: int)
    requires 1 <= period < |xs|
    ensures 0.0 <= Index(xs, period) <= 100.0
  {
  }

  /** Prices mirrored about some level. */
  function Mirror(xs: seq<real>, level: real): (ys: seq<real>)
    ensures |ys| == |xs| && forall i :: 0 <= i < |xs| ==> ys[i] == level - xs[i]
  {
    seq(|xs|, i requires 0 <= i < |xs| => level - xs[i])
  }

  lemma {:induction false} MirrorSwaps(xs: seq<real>, level: real)
    ensures Gains(Mirror(xs, level)) == Losses(xs) && Losses(Mirror(xs, level)) == Gains(xs)
  {
    if |xs| > 1 {
      var n := |xs| - 1;
      MirrorSwaps(xs[..n], level);
      assert Mirror(xs, level)[..n] == Mirror(xs[..n], level);
    }
  }

  /** A history and its mirror image have indices that add up to 100, unless no price ever changed enough to count. */
  lemma MirrorsAddUp(xs: seq<real>, period: int, level: real)
    requires 1 <= period < |xs|
    ensures Wilder(Gains(xs), period) + Wilder(Losses(xs), period) > 0.0 ==>
              Index(xs, period) + Index(Mirror(xs, level), period) == 100.0
    ensures Wilder(Gains(xs), period) + Wilder(Losses(xs), period) == 0.0 ==>
              Index(xs, period) == 100.0 && Index(Mirror(xs, level), period) == 100.0
  {
    hide Ratio, Strength, Wilder;
    MirrorSwaps(xs, level);
    ChangesNonNegative(xs);
    WilderNonNegative(Gains(xs), period);
    WilderNonNegative(Losses(xs), period);
    var g, l := Wilder(Gains(xs), period), Wilder(Losses(xs), period);
    StrengthIsShare(g, l);
    StrengthIsShare(l, g);
    if g + l > 0.0 {
      RatioIs(100.0 * g, g + l, 0.0);
      RatioIs(100.0 * l, l + g, 100.0 - Ratio(100.0 * g, g + l));
    }
  }
}
