/** The streaming indicators: each push updates a few fields, which stay equal to the offline definition. */
module Indicators {
  import opened Reals
  import opened Averages
  import opened Momentum

  class Sma {
    const period: int
    var window: seq<real>
    var sum: real
    ghost var history: seq<real>

    ghost predicate Valid()
      reads this
    {
      period >= 1 && window == LastN(history, period) && sum == Sum(window)
    }

    constructor (period: int)
      requires period >= 1
      ensures Valid() && history == [] && this.period == period
    {
      this.period, window, sum, history := period, [], 0.0, [];
    }

    method Push(v: real)
      requires Valid()
      modifies this
      ensures Valid() && history == old(history) + [v]
    {
      SumConcat(window, [v]);
      SumOne(v);
      window := window + [v];
      sum := sum + v;
      history := history + [v];
      if |window| > period {
        SumConcat([window[0]], window[1..]);
        SumOne(window[0]);
        assert window == [window[0]] + window[1..];
        sum := sum - window[0];
        window := window[1..];
      }
    }

    /** Ready once `period` values have been pushed. */
    method Ready() returns (ready: bool)
      requires Valid()
      ensures ready <==> |history| >= period
    {
      ready := |window| == period;
    }

    /** The mean of the last `period` values, or of all of them while there are fewer. */
    method Value() returns (v: real)
      requires Valid() && history != []
      ensures v == Mean(LastN(history, period))
    {
      v := Ratio(sum, |window| as real);
    }
  }

  class Ema {
    const period: int
    const k: real
    const seed: Sma
    var ready: bool
    var value: real
    ghost var history: seq<real>

    ghost function Repr(): set<object>
    {
      {this, seed}
    }

    ghost predicate Valid()
      reads this, seed
    {
      && period >= 1 && k == Weight(period)
      && seed.Valid() && seed.period == period
      && ready == (|history| >= period)
      && (if ready then value == ExpMean(history, period) else seed.history == history)
    }

    constructor (period: int)
      requires period >= 1
      ensures Valid() && history == [] && this.period == period && fresh(Repr())
    {
      this.period, k := period, Ratio(2.0, period as real + 1.0);
      seed := new Sma(period);
      ready, value, history := false, 0.0, [];
    }

    method Push(v: real)
      requires Valid()
      modifies this`ready, this`value, this`history, seed
      ensures Valid() && history == old(history) + [v]
    {
      history := history + [v];
      if !ready {
        seed.Push(v);
        var full := seed.Ready();
        if full {
          value := seed.Value();
          ready := true;
        }
        return;
      }
      assert history[..|history| - 1] == old(history);
      value := Blended(v, value, k);
    }
  }

  class Rsi {
    const period: int
    var prev: real
    var hasPrev: bool
    var warmup: int
    var gainSum: real
    var lossSum: real
    var avgGain: real
    var avgLoss: real
    var ready: bool
    ghost var history: seq<real>

    ghost predicate Valid()
      reads this
    {
      var n := |history|;
      && period >= 1
      && hasPrev == (n > 0) && (n > 0 ==> prev == history[n - 1])
      && warmup == (if n == 0 then 0 else if n <= period then n - 1 else period)
      && ready == (n > period)
      && (if ready then avgGain == Wilder(Gains(history), period) && avgLoss == Wilder(Losses(history), period)
          else gainSum == Sum(Gains(history)) && lossSum == Sum(Losses(history)))
    }

    constructor (period: int)
      requires period >= 1
      ensures Valid() && history == [] && this.period == period
    {
      this.period, prev, hasPrev, warmup := period, 0.0, false, 0;
      gainSum, lossSum, avgGain, avgLoss, ready, history := 0.0, 0.0, 0.0, 0.0, false, [];
    }

    method Push(close: real)
      requires Valid()
      modifies this
      ensures Valid() && history == old(history) + [close]
    {
      hide Ratio, Smooth, Wilder, Sum, Gains, Losses;
      ghost var gs, ls := Gains(history), Losses(history);
      ChangesAppend(history, close);
      history := history + [close];
      if !hasPrev {
        prev := close;
        hasPrev := true;
        return;
      }
      var delta := close - prev;
      prev := close;
      var gain := if delta > 0.0 then delta else 0.0;
      var loss := if delta < 0.0 then -delta else 0.0;
      assert Gains(history) == gs + [gain] && Losses(history) == ls + [loss];
      SumAppend(gs, gain);
      SumAppend(ls, loss);
      if warmup < period {
        gainSum := gainSum + gain;
        lossSum := lossSum + loss;
        warmup := warmup + 1;
        if warmup == period {
          WilderStep(gs, gain, period);
          WilderStep(ls, loss, period);
          avgGain := Ratio(gainSum, period as real);
          avgLoss := Ratio(lossSum, period as real);
          ready := true;
        }
        return;
      }
      WilderStep(gs, gain, period);
      WilderStep(ls, loss, period);
      avgGain := Smooth(avgGain, gain, period);
      avgLoss := Smooth(avgLoss, loss, period);
    }

    method Value() returns (v: real)
      requires Valid() && ready
      ensures v == Index(history, period)
      ensures 0.0 <= v <= 100.0
    {
      IndexInRange(history, period);
      ChangesNonNegative(history);
      WilderNonNegative(Gains(history), period);
      WilderNonNegative(Losses(history), period);
      v := Strength(avgGain, avgLoss);
    }
  }

  class Macd {
    const fast: Ema
    const slow: Ema
    const signal: Ema
    ghost var history: seq<real>

    ghost function Repr(): set<object>
    {
      {this} + fast.Repr() + slow.Repr() + signal.Repr()
    }

    ghost predicate Valid()
      reads Repr()
    {
      && fast.Valid() && slow.Valid() && signal.Valid()
      && {this} !! fast.Repr() !! slow.Repr() !! signal.Repr()
      && fast.history == history && slow.history == history
      && signal.history == Lines(history, fast.period, slow.period)
    }

    constructor (f: int, s: int, g: int)
      requires f >= 1 && s >= 1 && g >= 1
      ensures Valid() && history == [] && fresh(Repr())
      ensures fast.period == f && slow.period == s && signal.period == g
    {
      fast := new Ema(f);
      slow := new Ema(s);
      signal := new Ema(g);
      history := [];
    }

    /** Ready exactly from push max(fast, slow) + signal - 1 on. */
    method Push(close: real) returns (ready: bool)
      requires Valid()
      modifies Repr()
      ensures Valid() && history == old(history) + [close]
      ensures ready <==> |history| >= Longer(fast.period, slow.period) + signal.period - 1
    {
      hide ExpMean, Sum, Weight, LastN;
      fast.Push(close);
      slow.Push(close);
      history := history + [close];
      assert history[..|history| - 1] == old(history);
      if fast.ready && slow.ready { signal.Push(fast.value - slow.value); }
      ready := signal.ready;
    }

    /** MACD line minus its signal line. */
    method Histogram() returns (h: real)
      requires Valid() && signal.ready
      ensures |history| >= Longer(fast.period, slow.period)
      ensures var lines := Lines(history, fast.period, slow.period);
        |lines| >= signal.period && h == lines[|lines| - 1] - ExpMean(lines, signal.period)
    {
      h := (fast.value - slow.value) - signal.value;
    }
  }
}
