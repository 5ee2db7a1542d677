/** When the cross strategies buy and sell, said of prices and their averages. */
module Crosses {
  import opened Basics
  import opened Reals
  import opened Averages
  import opened Backtest
  import opened Crossing

  // ---- crosses of the averages ---------------------------------------------------------------------

  lemma {:induction false} UnknownBefore(r: Rule, xs: seq<real>)
    requires Sensible(r) && forall i :: 0 <= i <= |xs| ==> Above(r, xs[..i]).None?
    ensures LastAbove(r, xs).None?
  {
    hide Above;
    if xs != [] {
      var n := |xs| - 1;
      assert xs[..|xs|] == xs;
      forall i | 0 <= i <= n ensures Above(r, xs[..n][..i]).None? { assert xs[..n][..i] == xs[..i]; }
      UnknownBefore(r, xs[..n]);
    }
  }

  /** With a side known on the bar before, the action is what the cross between the two bars calls for. */
  lemma AdjacentSides(r: Rule, xs: seq<real>, y: real)
    requires Sensible(r) && Above(r, xs).Some? && Above(r, xs + [y]).Some?
    ensures var was, now := Above(r, xs).value, Above(r, xs + [y]).value;
      ActionAt(r, xs + [y]) == if now && !was then Buy else if was && !now then Sell else Hold
  {
    hide Above;
    AnswerFollows(r, xs, y);
    assert xs != [] by { NothingKnown(r); }
  }

  lemma FirstSideHolds(r: Rule, xs: seq<real>, y: real)
    requires Sensible(r) && forall i :: 0 <= i <= |xs| ==> Above(r, xs[..i]).None?
    ensures ActionAt(r, xs + [y]).Hold?
  {
    hide Above;
    AnswerFollows(r, xs, y);
    UnknownBefore(r, xs);
  }

  predicate SmaUp(xs: seq<real>, fast: int, slow: int)
    requires fast >= 1 && slow >= 1 && xs != []
  {
    Mean(LastN(xs, fast)) > Mean(LastN(xs, slow))
  }

  /** SmaCross: nothing before `slow` earlier closes; then the crosses of the two simple averages. */
  lemma SmaOrders(xs: seq<real>, y: real, fast: int, slow: int)
    requires fast >= 1 && slow >= 1
    ensures |xs| < slow ==> ActionAt(SmaRule(fast, slow), xs + [y]).Hold?
    ensures |xs| >= slow ==>
      var was, now := SmaUp(xs, fast, slow), SmaUp(xs + [y], fast, slow);
      ActionAt(SmaRule(fast, slow), xs + [y]) == if now && !was then Buy else if was && !now then Sell else Hold
  {
    hide ActionAt, Mean, LastN;
    if |xs| < slow { FirstSideHolds(SmaRule(fast, slow), xs, y); } else { AdjacentSides(SmaRule(fast, slow), xs, y); }
  }

  predicate EmaUp(xs: seq<real>, fast: int, slow: int)
    requires 1 <= fast <= |xs| && 1 <= slow <= |xs|
  {
    ExpMean(xs, fast) > ExpMean(xs, slow)
  }

  /** EmaCross: the same with the exponential averages, once both are ready. */
  lemma EmaOrders(xs: seq<real>, y: real, fast: int, slow: int)
    requires fast >= 1 && slow >= 1
    ensures |xs| < fast || |xs| < slow ==> ActionAt(EmaRule(fast, slow), xs + [y]).Hold?
    ensures |xs| >= fast && |xs| >= slow ==>
      var was, now := EmaUp(xs, fast, slow), EmaUp(xs + [y], fast, slow);
      ActionAt(EmaRule(fast, slow), xs + [y]) == if now && !was then Buy else if was && !now then Sell else Hold
  {
    hide ActionAt, ExpMean;
    var r := EmaRule(fast, slow);
    if |xs| < fast || |xs| < slow { FirstSideHolds(r, xs, y); } else { AdjacentSides(r, xs, y); }
  }

  /** The last difference of the averages is above the average of all of them. */
  predicate MacdUp(xs: seq<real>, fast: int, slow: int, signal: int)
    requires fast >= 1 && slow >= 1 && 1 <= signal <= |Lines(xs, fast, slow)|
  {
    var lines := Lines(xs, fast, slow);
    lines[|lines| - 1] > ExpMean(lines, signal)
  }

  /** MacdCross: the crosses of the difference and its own average, once there are `signal` differences. */
  lemma MacdOrders(xs: seq<real>, y: real, fast: int, slow: int, signal: int)
    requires fast >= 1 && slow >= 1 && signal >= 1
    ensures |Lines(xs, fast, slow)| < signal ==> ActionAt(MacdRule(fast, slow, signal), xs + [y]).Hold?
    ensures |Lines(xs, fast, slow)| >= signal ==>
      var was, now := MacdUp(xs, fast, slow, signal), MacdUp(xs + [y], fast, slow, signal);
      ActionAt(MacdRule(fast, slow, signal), xs + [y]) == if now && !was then Buy else if was && !now then Sell else Hold
  {
    hide ActionAt, ExpMean, Lines;
    var r := MacdRule(fast, slow, signal);
    if |Lines(xs, fast, slow)| < signal { FirstSideHolds(r, xs, y); } else { AdjacentSides(r, xs, y); }
  }

  // ---- a rise after calm prices -----------------------------------------------------------------------

  function Flat(p: real, n: nat): seq<real> {
    seq(n, _ => p)
  }

  lemma {:induction false} SumFlat(p: real, n: nat)
    ensures Sum(Flat(p, n)) == p * n as real
  {
    if n > 0 {
      SumFlat(p, n - 1);
      assert Flat(p, n)[..n - 1] == Flat(p, n - 1);
      assert p * (n - 1) as real + p == p * n as real;
    }
  }

  /** The mean of calm prices and one more moves by that one's share. */
  lemma MeanOfRise(p: real, n: nat, x: real)
    ensures Mean(Flat(p, n) + [x]) == p + Ratio(x - p, n as real + 1.0)
  {
    hide Ratio, Sum;
    SumFlat(p, n);
    SumAppend(Flat(p, n), x);
    var m := n as real + 1.0;
    RatioIs(x - p, m, 0.0);
    assert (p + Ratio(x - p, m)) * m == p * n as real + x;
    RatioIs(p * n as real + x, m, p + Ratio(x - p, m));
  }

  lemma MeanOfFlat(p: real, n: nat)
    requires n > 0
    ensures Mean(Flat(p, n)) == p
  {
    assert Flat(p, n) == Flat(p, n - 1) + [p];
    MeanOfRise(p, n - 1, p);
  }

  lemma FlatTail(p: real, n: nat, x: real, m: int)
    requires 1 <= m <= n
    ensures LastN(Flat(p, n), m) == Flat(p, m)
    ensures LastN(Flat(p, n) + [x], m) == Flat(p, m - 1) + [x]
  {
  }

  /** After at least `slow` calm closes, SmaCross buys exactly if the next close is higher. */
  lemma SmaBuysOnRise(p: real, n: nat, x: real, fast: int, slow: int)
    requires 1 <= fast < slow <= n
    ensures ActionAt(SmaRule(fast, slow), Flat(p, n) + [x]) == if x > p then Buy else Hold
  {
    hide ActionAt, Mean, LastN, Ratio;
    SmaOrders(Flat(p, n), x, fast, slow);
    FlatTail(p, n, x, fast);
    FlatTail(p, n, x, slow);
    MeanOfFlat(p, fast);
    MeanOfFlat(p, slow);
    MeanOfRise(p, fast - 1, x);
    MeanOfRise(p, slow - 1, x);
    SmallerShare(x - p, fast as real, slow as real);
  }

  lemma ExpMeanOfFlat(p: real, n: nat, period: int)
    requires 1 <= period <= n
    ensures ExpMean(Flat(p, n), period) == p
  {
    hide ExpMean;
    ExpMeanInRange(Flat(p, n), period, p, p);
  }

  lemma {:induction false} ExpMeanOfRise(p: real, n: nat, x: real, period: int)
    requires 1 <= period <= n
    ensures ExpMean(Flat(p, n) + [x], period) == p + Ratio(2.0 * (x - p), period as real + 1.0)
  {
    ExpMeanOfFlat(p, n, period);
    assert (Flat(p, n) + [x])[..n] == Flat(p, n);
    var k, m := Weight(period), period as real + 1.0;
    RatioIs(2.0, m, 0.0);
    hide Ratio;
    assert x * k + p * (1.0 - k) == p + k * (x - p);
    assert k * (x - p) * m == 2.0 * (x - p);
    RatioIs(2.0 * (x - p), m, k * (x - p));
  }

  /** After at least `slow` calm closes, EmaCross buys exactly if the next close is higher. */
  lemma EmaBuysOnRise(p: real, n: nat, x: real, fast: int, slow: int)
    requires 1 <= fast < slow <= n
    ensures ActionAt(EmaRule(fast, slow), Flat(p, n) + [x]) == if x > p then Buy else Hold
  {
    hide ActionAt, ExpMean, Ratio;
    EmaOrders(Flat(p, n), x, fast, slow);
    ExpMeanOfFlat(p, n, fast);
    ExpMeanOfFlat(p, n, slow);
    ExpMeanOfRise(p, n, x, fast);
    ExpMeanOfRise(p, n, x, slow);
    SmallerShare(2.0 * (x - p), fast as real + 1.0, slow as real + 1.0);
  }

  lemma {:induction false} LinesOfFlat(p: real, n: nat, fast: int, slow: int)
    requires 1 <= fast < slow
    ensures Lines(Flat(p, n), fast, slow) == Flat(0.0, if n < slow then 0 else n - slow + 1)
  {
    hide ExpMean;
    if n >= slow {
      LinesOfFlat(p, n - 1, fast, slow);
      assert Flat(p, n)[..n - 1] == Flat(p, n - 1);
      ExpMeanOfFlat(p, n, fast);
      ExpMeanOfFlat(p, n, slow);
    }
  }

  /** After enough calm closes and with a signal period above one, MacdCross buys exactly if the next close is higher. */
  lemma MacdBuysOnRise(p: real, n: nat, x: real, fast: int, slow: int, signal: int)
    requires 1 <= fast < slow && 1 < signal && slow + signal - 1 <= n
    ensures ActionAt(MacdRule(fast, slow, signal), Flat(p, n) + [x]) == if x > p then Buy else Hold
  {
    var xs, m := Flat(p, n) + [x], n - slow + 1;
    assert xs[..n] == Flat(p, n);
    assert Lines(xs, fast, slow) == Lines(Flat(p, n), fast, slow) + [ExpMean(xs, fast) - ExpMean(xs, slow)];
    hide ActionAt, ExpMean, Ratio, Lines;
    LinesOfFlat(p, n, fast, slow);
    MacdOrders(Flat(p, n), x, fast, slow, signal);
    ExpMeanOfRise(p, n, x, fast);
    ExpMeanOfRise(p, n, x, slow);
    SmallerShare(2.0 * (x - p), fast as real + 1.0, slow as real + 1.0);
    var rise := ExpMean(xs, fast) - ExpMean(xs, slow);
    ExpMeanOfFlat(0.0, m, signal);
    ExpMeanOfRise(0.0, m, rise, signal);
    LessThanWhole(rise, signal);
  }

  lemma LessThanWhole(d: real, signal: int)
    requires signal > 1
    ensures d > Ratio(2.0 * d, signal as real + 1.0) <==> d > 0.0
  {
    hide Ratio;
    var m := signal as real + 1.0;
    SmallerShare(2.0 * d, 2.0, m);
    RatioIs(2.0 * d, 2.0, d);
  }
}
