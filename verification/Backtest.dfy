/**
 * The long-only backtester, over real numbers. A strategy enters through the actions it answers with, one
 * per bar, so every action sequence stands for some strategy.
 */
module Backtest {
  import opened Reals

  datatype Action = Hold | Buy | Sell

  datatype Bar = Bar(time: int, close: real)

  /** A percentage that rests on a quotient of prices: over zero it is infinite, or no number. */
  datatype Percent = Finite(value: real) | Infinite(positive: bool) | NotANumber

  datatype Trade = Trade(entryTime: int, exitTime: int, entryPrice: real, exitPrice: real, returnPct: Percent)

  datatype Report = Report(
    bars: nat, trades: nat, totalReturnPct: real, buyHoldReturnPct: Percent, maxDrawdownPct: real, winRatePct: real,
    tradeLog: seq<Trade>)

  /** The loop variables. */
  datatype Sim = Sim(
    equity: real, peak: real, long: bool, entryPrice: real, entryTime: int, prevClose: real,
    log: seq<Trade>, drawdown: real, barReturns: seq<real>)

  function Start(firstClose: real): Sim {
    Sim(1.0, 1.0, false, 0.0, 0, firstClose, [], 0.0, [])
  }

  function Max(a: real, b: real): real {
    if a < b then b else a
  }

  predicate Positive(bars: seq<Bar>) {
    forall i :: 0 <= i < |bars| ==> bars[i].close > 0.0
  }

  /** Equity after the price moved. */
  function Marked(equity: real, close: real, prev: real): real
    requires prev > 0.0
  {
    equity * Ratio(close, prev)
  }

  /** Equity after one commission. */
  function Charged(equity: real, fee: real): real {
    equity * (1.0 - fee)
  }

  /** A trade's net return in percent. */
  function ReturnPct(entry: real, exit: real, fee: real): Percent {
    if entry != 0.0 then Finite(GainPct(Ratio(exit, entry) * (1.0 - fee) * (1.0 - fee)))
    else if exit == 0.0 || fee == 1.0 then NotANumber
    else Infinite(exit > 0.0)
  }

  /** The gain from the first close to the last, in percent. */
  function HoldPct(first: real, last: real): Percent {
    ReturnPct(first, last, 0.0)
  }

  /** Whether a percentage compares greater than zero. */
  predicate IsGain(p: Percent) {
    match p
    case Finite(x) => x > 0.0
    case Infinite(positive) => positive
    case NotANumber => false
  }

  /** The relative fall from one equity to another, in percent. */
  function FallPct(from: real, to: real): real
    requires from > 0.0
  {
    Ratio(from - to, from) * 100.0
  }

  function Closed(s: Sim, time: int, price: real, fee: real): Trade {
    Trade(s.entryTime, time, s.entryPrice, price, ReturnPct(s.entryPrice, price, fee))
  }

  predicate WellFormed(s: Sim) {
    s.peak >= 1.0
  }

  /** The returns so far, with that of a bar that moved equity from `before` to `after`. */
  function Returned(rs: seq<real>, before: real, after: real): seq<real> {
    if before > 0.0 then rs + [Ratio(after, before) - 1.0] else rs
  }

  /** One turn of the loop: mark to market, act on the signal, note the return, update peak and drawdown. */
  function OnBar(s: Sim, bar: Bar, action: Action, fee: real): (t: Sim)
    requires WellFormed(s)
    ensures WellFormed(t)
  {
    var marked := if s.long && s.prevClose > 0.0 then Marked(s.equity, bar.close, s.prevClose) else s.equity;
    var t :=
      if action.Buy? && !s.long then
        s.(long := true, entryPrice := bar.close, entryTime := bar.time, equity := Charged(marked, fee))
      else if action.Sell? && s.long then
        s.(long := false, equity := Charged(marked, fee), log := s.log + [Closed(s, bar.time, bar.close, fee)])
      else s.(equity := marked);
    var peak := Max(s.peak, t.equity);
    t.(barReturns := Returned(s.barReturns, s.equity, t.equity), peak := peak,
       drawdown := Max(s.drawdown, FallPct(peak, t.equity)), prevClose := bar.close)
  }

  /** A simulation's inputs: at least one bar, and one action per bar. */
  predicate Input(bars: seq<Bar>, actions: seq<Action>) {
    |bars| >= 1 && |actions| == |bars|
  }

  /** The loop variables after the first `n` bars. */
  function Simulate(bars: seq<Bar>, actions: seq<Action>, fee: real, n: nat): (s: Sim)
    requires Input(bars, actions) && n <= |bars|
    ensures WellFormed(s)
  {
    if n == 0 then Start(bars[0].close) else OnBar(Simulate(bars, actions, fee, n - 1), bars[n - 1], actions[n - 1], fee)
  }

  /** Close an open position at the last bar. */
  function Settle(s: Sim, last: Bar, fee: real): Sim {
    if s.long then s.(equity := Charged(s.equity, fee), log := s.log + [Closed(s, last.time, last.close, fee)]) else s
  }

  function Wins(log: seq<Trade>): nat {
    if log == [] then 0 else Wins(log[..|log| - 1]) + if IsGain(log[|log| - 1].returnPct) then 1 else 0
  }

  /** The gain, in percent, of an equity over 1. */
  function GainPct(ratio: real): real {
    (ratio - 1.0) * 100.0
  }

  function WinRatePct(wins: nat, trades: nat): real {
    if trades == 0 then 0.0 else 100.0 * wins as real / trades as real
  }

  /**
   * `run_backtest` up to the Sharpe ratio, for which it gives the per-bar returns. Closes are any numbers.
   */
  method RunBacktest(bars: seq<Bar>, actions: seq<Action>, commissionPct: real)
    returns (r: Report, moves: seq<real>)
    requires |actions| == |bars|
    ensures |bars| < 2 ==> r == Report(|bars|, 0, 0.0, Finite(0.0), 0.0, 0.0, []) && moves == []
    ensures |bars| >= 2 ==>
      var fee := commissionPct / 100.0;
      var s := Simulate(bars, actions, fee, |bars|);
      var t := Settle(s, bars[|bars| - 1], fee);
      && r.bars == |bars| && r.tradeLog == t.log && r.trades == |t.log|
      && r.totalReturnPct == GainPct(t.equity)
      && r.maxDrawdownPct == s.drawdown && moves == s.barReturns
      && r.buyHoldReturnPct == HoldPct(bars[0].close, bars[|bars| - 1].close)
      && r.winRatePct == WinRatePct(Wins(t.log), |t.log|)
  {
    if |bars| < 2 { return Report(|bars|, 0, 0.0, Finite(0.0), 0.0, 0.0, []), []; }
    hide Marked, Charged, Returned, ReturnPct, FallPct, Wins, Ratio, GainPct, HoldPct, WinRatePct;
    var fee := commissionPct / 100.0;
    var equity, peak, long, drawdown := 1.0, 1.0, false, 0.0;
    var entryPrice, entryTime, prevClose := 0.0, 0, bars[0].close;
    var log: seq<Trade> := [];
    moves := [];
    for n := 0 to |bars|
      invariant Sim(equity, peak, long, entryPrice, entryTime, prevClose, log, drawdown, moves) ==
                Simulate(bars, actions, fee, n)
    {
      var bar, before := bars[n], equity;
      if long && prevClose > 0.0 { equity := Marked(equity, bar.close, prevClose); }
      var action := actions[n];
      if action == Buy && !long {
        long := true;
        entryPrice := bar.close;
        entryTime := bar.time;
        equity := Charged(equity, fee);
      } else if action == Sell && long {
        long := false;
        equity := Charged(equity, fee);
        log := log + [Trade(entryTime, bar.time, entryPrice, bar.close, ReturnPct(entryPrice, bar.close, fee))];
      }
      moves := Returned(moves, before, equity);
      peak := Max(peak, equity);
      drawdown := Max(drawdown, FallPct(peak, equity));
      prevClose := bar.close;
    }
    var last := bars[|bars| - 1];
    if long {
      equity := Charged(equity, fee);
      log := log + [Trade(entryTime, last.time, entryPrice, last.close, ReturnPct(entryPrice, last.close, fee))];
    }
    var wins := CountWins(log);
    r := Report(|bars|, |log|, GainPct(equity), HoldPct(bars[0].close, last.close), drawdown,
                WinRatePct(wins, |log|), log);
  }

  method CountWins(log: seq<Trade>) returns (wins: nat)
    ensures wins == Wins(log)
  {
    wins := 0;
    for n := 0 to |log|
      invariant wins == Wins(log[..n])
    {
      assert log[..n + 1][..n] == log[..n];
      if IsGain(log[n].returnPct) { wins := wins + 1; }
    }
    assert log[..|log|] == log;
  }

  // ---- equity is the product of the trades ----------------------------------------------------------

  predicate AllFinite(log: seq<Trade>) {
    forall i :: 0 <= i < |log| ==> log[i].returnPct.Finite?
  }

  function Growth(t: Trade): real
    requires t.returnPct.Finite?
  {
    1.0 + t.returnPct.value / 100.0
  }

  function Product(log: seq<Trade>): real
    requires AllFinite(log)
  {
    if log == [] then 1.0 else Product(log[..|log| - 1]) * Growth(log[|log| - 1])
  }

  /** What an open position has multiplied the closed trades by: one fee, and the price change since entry. */
  function OpenFactor(s: Sim, fee: real): real
    requires s.long ==> s.entryPrice != 0.0
  {
    if s.long then (1.0 - fee) * Ratio(s.prevClose, s.entryPrice) else 1.0
  }

  ghost predicate Balanced(s: Sim, fee: real) {
    && AllFinite(s.log) && (s.long ==> s.entryPrice != 0.0)
    && s.equity == Product(s.log) * OpenFactor(s, fee)
  }

  lemma RemarkFactor(e: real, p: real, f: real, prev: real, entry: real, close: real)
    requires prev > 0.0 && entry != 0.0 && e == p * (f * Ratio(prev, entry))
    ensures Marked(e, close, prev) == p * (f * Ratio(close, entry))
  {
  }

  lemma ClosedBalances(e: real, s: Sim, time: int, price: real, fee: real)
    requires s.entryPrice != 0.0 && AllFinite(s.log)
    requires e == Product(s.log) * ((1.0 - fee) * Ratio(price, s.entryPrice))
    ensures AllFinite(s.log + [Closed(s, time, price, fee)])
    ensures Charged(e, fee) == Product(s.log + [Closed(s, time, price, fee)])
  {
    var t, x := Closed(s, time, price, fee), Ratio(price, s.entryPrice);
    assert (s.log + [t])[..|s.log|] == s.log;
    assert Growth(t) == x * (1.0 - fee) * (1.0 - fee);
    hide Ratio, ReturnPct, Growth;
    ChargedTwice(Product(s.log), x, fee);
  }

  lemma ChargedTwice(p: real, x: real, fee: real)
    ensures Charged(p * ((1.0 - fee) * x), fee) == p * (x * (1.0 - fee) * (1.0 - fee))
  {
  }

  lemma OnBarBalances(s: Sim, bar: Bar, action: Action, fee: real)
    requires WellFormed(s) && s.prevClose > 0.0 && bar.close > 0.0 && Balanced(s, fee)
    ensures Balanced(OnBar(s, bar, action, fee), fee)
  {
    hide Product, Marked, FallPct, ReturnPct, Ratio, Charged;
    var t, p := OnBar(s, bar, action, fee), Product(s.log);
    if s.long {
      var x := Ratio(bar.close, s.entryPrice);
      var marked := Marked(s.equity, bar.close, s.prevClose);
      assert s.equity == p * ((1.0 - fee) * Ratio(s.prevClose, s.entryPrice));
      RemarkFactor(s.equity, p, 1.0 - fee, s.prevClose, s.entryPrice, bar.close);
      assert marked == p * ((1.0 - fee) * x);
      if action.Sell? {
        ClosedBalances(marked, s, bar.time, bar.close, fee);
        assert t.equity == Charged(marked, fee) && t.equity == Product(t.log);
      } else {
        assert t.equity == marked;
      }
    } else if action.Buy? {
      RatioIs(bar.close, bar.close, 1.0);
      ChargedOnce(p, fee);
    }
  }

  lemma ChargedOnce(p: real, fee: real)
    ensures Charged(p * 1.0, fee) == p * ((1.0 - fee) * 1.0)
  {
  }

  lemma {:induction false} SimulateBalances(bars: seq<Bar>, actions: seq<Action>, fee: real, n: nat)
    requires Input(bars, actions) && Positive(bars) && n <= |bars|
    ensures Balanced(Simulate(bars, actions, fee, n), fee)
    ensures Simulate(bars, actions, fee, n).prevClose == bars[if n > 0 then n - 1 else 0].close
  {
    if n > 0 {
      hide Balanced;
      SimulateBalances(bars, actions, fee, n - 1);
      OnBarBalances(Simulate(bars, actions, fee, n - 1), bars[n - 1], actions[n - 1], fee);
    }
  }

  /** For every action sequence and positive closes, final equity is the product of the logged trades' growth factors. */
  lemma EquityIsProductOfTrades(bars: seq<Bar>, actions: seq<Action>, fee: real)
    requires Input(bars, actions) && Positive(bars)
    ensures var t := Settle(Simulate(bars, actions, fee, |bars|), bars[|bars| - 1], fee);
      AllFinite(t.log) && t.equity == Product(t.log)
  {
    hide Product, Marked, FallPct, ReturnPct, Charged, Ratio;
    SimulateBalances(bars, actions, fee, |bars|);
    var s, last := Simulate(bars, actions, fee, |bars|), bars[|bars| - 1];
    if s.long {
      assert s.equity == Product(s.log) * ((1.0 - fee) * Ratio(last.close, s.entryPrice));
      ClosedBalances(s.equity, s, last.time, last.close, fee);
    }
  }

  // ---- trades do not overlap ------------------------------------------------------------------------

  /** Bars in strictly increasing time. */
  predicate Ordered(bars: seq<Bar>) {
    forall i, j :: 0 <= i < j < |bars| ==> bars[i].time < bars[j].time
  }

  /** Each trade ends before the next begins, and ends no earlier than it began. */
  predicate Disjoint(log: seq<Trade>) {
    && (forall i :: 0 <= i < |log| ==> log[i].entryTime <= log[i].exitTime)
    && (forall i, j :: 0 <= i < j < |log| ==> log[i].exitTime < log[j].entryTime)
  }

  /** Closed trades lie in the past, and an open position began after the last of them. */
  predicate Sequenced(s: Sim, now: int) {
    && Disjoint(s.log)
    && (forall i :: 0 <= i < |s.log| ==> s.log[i].exitTime <= now)
    && (s.long ==> s.entryTime <= now && forall i :: 0 <= i < |s.log| ==> s.log[i].exitTime < s.entryTime)
  }

  lemma OnBarSequences(s: Sim, bar: Bar, action: Action, fee: real, before: int)
    requires WellFormed(s) && Sequenced(s, before) && before < bar.time
    ensures Sequenced(OnBar(s, bar, action, fee), bar.time)
  {
  }

  lemma {:induction false} SimulateSequences(bars: seq<Bar>, actions: seq<Action>, fee: real, n: nat)
    requires Input(bars, actions) && Ordered(bars) && n <= |bars|
    ensures Sequenced(Simulate(bars, actions, fee, n), if n == 0 then bars[0].time - 1 else bars[n - 1].time)
  {
    hide OnBar;
    if n > 0 {
      SimulateSequences(bars, actions, fee, n - 1);
      OnBarSequences(Simulate(bars, actions, fee, n - 1), bars[n - 1], actions[n - 1], fee,
                     if n == 1 then bars[0].time - 1 else bars[n - 2].time);
    }
  }

  /** With bars in time order, logged trades never overlap, the forced close included. */
  lemma TradesNeverOverlap(bars: seq<Bar>, actions: seq<Action>, fee: real)
    requires Input(bars, actions) && Ordered(bars)
    ensures Disjoint(Settle(Simulate(bars, actions, fee, |bars|), bars[|bars| - 1], fee).log)
  {
    hide OnBar, ReturnPct;
    SimulateSequences(bars, actions, fee, |bars|);
  }

  // ---- drawdown -------------------------------------------------------------------------------------

  /** Equity before the first bar and after each of the first `n`. */
  function Curve(bars: seq<Bar>, actions: seq<Action>, fee: real, n: nat): (c: seq<real>)
    requires Input(bars, actions) && n <= |bars|
    ensures |c| == n + 1
  {
    if n == 0 then [1.0] else Curve(bars, actions, fee, n - 1) + [Simulate(bars, actions, fee, n).equity]
  }

  predicate AllPositive(c: seq<real>) {
    forall i :: 0 <= i < |c| ==> c[i] > 0.0
  }

  /** `d` is the largest relative fall from any point of the curve to a later one. */
  ghost predicate LargestFall(c: seq<real>, d: real)
    requires AllPositive(c)
  {
    && (forall i, j :: 0 <= i <= j < |c| ==> FallPct(c[i], c[j]) <= d)
    && (exists i, j :: 0 <= i <= j < |c| && FallPct(c[i], c[j]) == d)
  }

  ghost predicate Tracked(c: seq<real>, s: Sim)
    requires AllPositive(c)
  {
    && |c| > 0 && c[|c| - 1] == s.equity
    && s.peak > 0.0 && s.peak in c && (forall i :: 0 <= i < |c| ==> c[i] <= s.peak)
    && LargestFall(c, s.drawdown)
  }

  lemma FallGrows(a: real, p: real, b: real)
    requires 0.0 < a <= p && b > 0.0
    ensures FallPct(a, b) <= FallPct(p, b) < 100.0
    ensures FallPct(a, a) == 0.0
  {
    hide Ratio;
    var x, y := Ratio(b, a), Ratio(b, p);
    RatioIs(b, a, 0.0);
    RatioIs(b, p, 0.0);
    assert y > 0.0 && x > 0.0 by { PositiveFactor(y, p); PositiveFactor(x, a); }
    assert y <= x by {
      assert (x - y) * p == x * (p - a);
      if x < y { PositiveProduct(y - x, p); PositiveProduct(x, p - a); }
    }
    assert (1.0 - x) * a == a - b;
    assert (1.0 - y) * p == p - b;
    RatioIs(a - b, a, 1.0 - x);
    RatioIs(p - b, p, 1.0 - y);
    RatioIs(a - a, a, 0.0);
  }

  lemma MarkedPositive(equity: real, close: real, prev: real)
    requires equity > 0.0 && close > 0.0 && prev > 0.0
    ensures Marked(equity, close, prev) > 0.0
  {
    hide Ratio;
    var x := Ratio(close, prev);
    RatioIs(close, prev, 0.0);
    PositiveFactor(x, prev);
    PositiveProduct(equity, x);
  }

  lemma ChargedPositive(equity: real, fee: real)
    requires equity > 0.0 && fee < 1.0
    ensures Charged(equity, fee) > 0.0
  {
    PositiveProduct(equity, 1.0 - fee);
  }

  lemma EquityStaysPositive(s: Sim, bar: Bar, action: Action, fee: real)
    requires WellFormed(s) && s.prevClose > 0.0 && bar.close > 0.0 && s.equity > 0.0 && 0.0 <= fee < 1.0
    ensures OnBar(s, bar, action, fee).equity > 0.0
  {
    hide FallPct, ReturnPct, Returned, Marked, Charged;
    MarkedPositive(s.equity, bar.close, s.prevClose);
    ChargedPositive(s.equity, fee);
    ChargedPositive(Marked(s.equity, bar.close, s.prevClose), fee);
  }

  /** One more point: the new peak and drawdown are those of the longer curve. */
  lemma TrackOne(c: seq<real>, s: Sim, e: real)
    requires AllPositive(c) && Tracked(c, s) && e > 0.0
    ensures var peak := Max(s.peak, e);
      AllPositive(c + [e]) &&
      Tracked(c + [e], s.(equity := e, peak := peak, drawdown := Max(s.drawdown, FallPct(peak, e))))
  {
    hide FallPct;
    var c', n := c + [e], |c|;
    var peak := Max(s.peak, e);
    var d := Max(s.drawdown, FallPct(peak, e));
    forall i | 0 <= i <= n ensures FallPct(c'[i], e) <= FallPct(peak, e) { FallGrows(c'[i], peak, e); }
    forall i, j | 0 <= i <= j <= n ensures FallPct(c'[i], c'[j]) <= d {
      if j < n { assert FallPct(c[i], c[j]) <= s.drawdown; }
    }
    if d == s.drawdown {
      var i, j :| 0 <= i <= j < n && FallPct(c[i], c[j]) == s.drawdown;
      assert FallPct(c'[i], c'[j]) == d;
    } else {
      assert peak in c' by { assert c'[n] == e; assert s.peak in c ==> s.peak in c'; }
      var i :| 0 <= i < |c'| && c'[i] == peak;
      assert FallPct(c'[i], c'[n]) == d;
    }
  }

  lemma {:induction false} SimulateTracks(bars: seq<Bar>, actions: seq<Action>, fee: real, n: nat)
    requires Input(bars, actions) && Positive(bars) && n <= |bars| && 0.0 <= fee < 1.0
    ensures var c := Curve(bars, actions, fee, n);
      AllPositive(c) && Tracked(c, Simulate(bars, actions, fee, n))
    ensures Simulate(bars, actions, fee, n).prevClose > 0.0
  {
    hide FallPct, OnBar, LargestFall;
    if n == 0 {
      StartTracks(bars[0].close);
    } else {
      var s := Simulate(bars, actions, fee, n - 1);
      SimulateTracks(bars, actions, fee, n - 1);
      EquityStaysPositive(s, bars[n - 1], actions[n - 1], fee);
      var t := Simulate(bars, actions, fee, n);
      OnBarTracks(s, bars[n - 1], actions[n - 1], fee);
      TrackOne(Curve(bars, actions, fee, n - 1), s, t.equity);
    }
  }

  lemma StartTracks(firstClose: real)
    ensures AllPositive([1.0]) && Tracked([1.0], Start(firstClose))
  {
    hide FallPct;
    FallGrows(1.0, 1.0, 1.0);
    assert FallPct([1.0][0], [1.0][0]) == 0.0;
  }

  lemma OnBarTracks(s: Sim, bar: Bar, action: Action, fee: real)
    requires WellFormed(s)
    ensures var t := OnBar(s, bar, action, fee);
      && t.peak == Max(s.peak, t.equity) && t.drawdown == Max(s.drawdown, FallPct(t.peak, t.equity))
      && t.prevClose == bar.close
  {
    hide FallPct, Charged, Marked, ReturnPct, Returned;
  }

  /**
   * The drawdown kept in one pass is the maximum over all pairs of points of the equity curve, and lies in
   * [0, 100), for positive closes and a fee in [0, 1).
   */
  lemma DrawdownIsLargestFall(bars: seq<Bar>, actions: seq<Action>, fee: real)
    requires Input(bars, actions) && Positive(bars) && 0.0 <= fee < 1.0
    ensures var c, d := Curve(bars, actions, fee, |bars|), Simulate(bars, actions, fee, |bars|).drawdown;
      AllPositive(c) && LargestFall(c, d) && 0.0 <= d < 100.0
  {
    hide OnBar, FallPct;
    SimulateTracks(bars, actions, fee, |bars|);
    var c, d := Curve(bars, actions, fee, |bars|), Simulate(bars, actions, fee, |bars|).drawdown;
    FallGrows(c[0], c[0], c[0]);
    assert FallPct(c[0], c[0]) <= d;
    var i, j :| 0 <= i <= j < |c| && FallPct(c[i], c[j]) == d;
    FallGrows(c[i], c[i], c[j]);
  }

  // ---- per-bar returns ---------------------------------------------------------------------------------

  function Compound(moves: seq<real>): real {
    if moves == [] then 1.0 else Compound(moves[..|moves| - 1]) * (1.0 + moves[|moves| - 1])
  }

  /** The return of a bar carries equity from before it to after it. */
  lemma ReturnCarries(moves: seq<real>, before: real, after: real)
    requires before > 0.0 && Compound(moves) == before
    ensures var rs := Returned(moves, before, after);
      |rs| == |moves| + 1 && rs[..|moves|] == moves && Compound(rs) == after
  {
    hide Ratio;
    RatioIs(after, before, 0.0);
    assert (moves + [Ratio(after, before) - 1.0])[..|moves|] == moves;
  }

  /** There is one return per bar, and the first k of them compound to the k-th point of the equity curve. */
  lemma {:induction false} ReturnsCompound(bars: seq<Bar>, actions: seq<Action>, fee: real, n: nat, k: nat)
    requires Input(bars, actions) && Positive(bars) && k <= n <= |bars| && 0.0 <= fee < 1.0
    ensures var rs := Simulate(bars, actions, fee, n).barReturns;
      |rs| == n && Compound(rs[..k]) == Curve(bars, actions, fee, n)[k]
  {
    hide Marked, Charged, FallPct, ReturnPct, Returned, Compound, Tracked;
    if n == 0 {
      NothingReturned();
    } else {
      var s, t := Simulate(bars, actions, fee, n - 1), Simulate(bars, actions, fee, n);
      var m := n - 1;
      ReturnsCompound(bars, actions, fee, m, m);
      assert s.barReturns[..m] == s.barReturns;
      SimulateTracks(bars, actions, fee, m);
      assert s.equity == Curve(bars, actions, fee, m)[m] by { CurveEnds(bars, actions, fee, m); }
      ReturnCarries(s.barReturns, s.equity, t.equity);
      assert t.barReturns == Returned(s.barReturns, s.equity, t.equity);
      if k < n {
        ReturnsCompound(bars, actions, fee, m, k);
        assert t.barReturns[..k] == s.barReturns[..k];
      } else {
        assert t.barReturns[..k] == t.barReturns;
      }
    }
  }

  lemma NothingReturned()
    ensures Compound([]) == 1.0
  {
  }

  lemma CurveEnds(bars: seq<Bar>, actions: seq<Action>, fee: real, n: nat)
    requires Input(bars, actions) && n <= |bars|
    ensures Curve(bars, actions, fee, n)[n] == Simulate(bars, actions, fee, n).equity
  {
  }
}
