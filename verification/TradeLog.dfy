/** What the backtester reports, read off bars and actions alone: positions, round trips and percentages. */
module TradeLog {
  import opened Reals
  import opened Backtest
  import opened Crossing

  // ---- positions and round trips ----------------------------------------------------------------------

  /** There is a position after actions whose last order is a buy. */
  predicate InMarket(actions: seq<Action>) {
    LastOrder(actions).Buy?
  }

  /** The bar at which the position after the first `n` bars was entered. */
  function EntryBar(actions: seq<Action>, n: nat): (i: nat)
    requires n <= |actions|
    ensures i <= n
  {
    if n == 0 then 0
    else if actions[n - 1].Buy? && !InMarket(actions[..n - 1]) then n - 1
    else EntryBar(actions, n - 1)
  }

  /** A position is entered by a buy out of the market, and no sell comes after. */
  lemma {:induction false} EntryIsBuy(actions: seq<Action>, n: nat)
    requires n <= |actions| && InMarket(actions[..n])
    ensures var i := EntryBar(actions, n);
      && i < n && actions[i].Buy? && !InMarket(actions[..i])
      && forall k :: i < k < n ==> !actions[k].Sell?
  {
    assert n > 0;
    assert actions[..n][..n - 1] == actions[..n - 1];
    if InMarket(actions[..n - 1]) { EntryIsBuy(actions, n - 1); }
  }

  /** From the close of bar `i` to the close of bar `j`. */
  function TradeOf(bars: seq<Bar>, i: nat, j: nat, fee: real): Trade
    requires i < |bars| && j < |bars|
  {
    Trade(bars[i].time, bars[j].time, bars[i].close, bars[j].close, ReturnPct(bars[i].close, bars[j].close, fee))
  }

  /** The round trips of the first `n` bars: each sell in the market ends one. */
  function Trips(bars: seq<Bar>, actions: seq<Action>, fee: real, n: nat): seq<Trade>
    requires |actions| == |bars| && n <= |bars|
  {
    if n == 0 then []
    else
      Trips(bars, actions, fee, n - 1) +
      if actions[n - 1].Sell? && InMarket(actions[..n - 1])
      then [TradeOf(bars, EntryBar(actions, n - 1), n - 1, fee)] else []
  }

  lemma {:induction false} SimulateTrips(bars: seq<Bar>, actions: seq<Action>, fee: real, n: nat)
    requires Input(bars, actions) && n <= |bars|
    ensures var s := Simulate(bars, actions, fee, n);
      && s.long == InMarket(actions[..n])
      && s.log == Trips(bars, actions, fee, n)
      && (s.long ==> var i := EntryBar(actions, n);
            i < n && s.entryPrice == bars[i].close && s.entryTime == bars[i].time)
  {
    hide Marked, Charged, FallPct, ReturnPct, Returned;
    if n > 0 {
      SimulateTrips(bars, actions, fee, n - 1);
      assert actions[..n][..n - 1] == actions[..n - 1];
    }
  }

  /**
   * For every action sequence and all closes: the backtester is in the market exactly after a buy that no sell has
   * followed, and its log is exactly the round trips, with the last position closed at the last bar.
   */
  lemma LogIsRoundTrips(bars: seq<Bar>, actions: seq<Action>, fee: real)
    requires Input(bars, actions)
    ensures var n := |bars|;
      Settle(Simulate(bars, actions, fee, n), bars[n - 1], fee).log ==
      Trips(bars, actions, fee, n) +
      if InMarket(actions) then [TradeOf(bars, EntryBar(actions, n), n - 1, fee)] else []
  {
    hide ReturnPct, Simulate, Trips;
    SimulateTrips(bars, actions, fee, |bars|);
    assert actions[..|bars|] == actions;
  }

  lemma {:induction false} TripIsRoundTrip(bars: seq<Bar>, actions: seq<Action>, fee: real, n: nat, k: nat)
    returns (i: nat, j: nat)
    requires |actions| == |bars| && n <= |bars| && k < |Trips(bars, actions, fee, n)|
    ensures i < j < n && actions[i].Buy? && actions[j].Sell? && (forall m :: i < m < j ==> !actions[m].Sell?)
    ensures Trips(bars, actions, fee, n)[k] == TradeOf(bars, i, j, fee)
  {
    hide TradeOf;
    if k < |Trips(bars, actions, fee, n - 1)| {
      i, j := TripIsRoundTrip(bars, actions, fee, n - 1, k);
    } else {
      EntryIsBuy(actions, n - 1);
      i, j := EntryBar(actions, n - 1), n - 1;
    }
  }

  /** The log with the last position closed. */
  function Logged(bars: seq<Bar>, actions: seq<Action>, fee: real): seq<Trade>
    requires Input(bars, actions)
  {
    Settle(Simulate(bars, actions, fee, |bars|), bars[|bars| - 1], fee).log
  }

  lemma LoggedIsTrade(bars: seq<Bar>, actions: seq<Action>, fee: real, k: nat) returns (i: nat, j: nat)
    requires Input(bars, actions) && k < |Logged(bars, actions, fee)|
    ensures i <= j < |bars| && actions[i].Buy? && (actions[j].Sell? || j == |bars| - 1)
    ensures forall m :: i < m < j ==> !actions[m].Sell?
    ensures Logged(bars, actions, fee)[k] == TradeOf(bars, i, j, fee)
  {
    hide Simulate, Settle, Trips, TradeOf;
    LogIsRoundTrips(bars, actions, fee);
    if k < |Trips(bars, actions, fee, |bars|)| {
      i, j := TripIsRoundTrip(bars, actions, fee, |bars|, k);
    } else {
      assert actions[..|bars|] == actions;
      EntryIsBuy(actions, |bars|);
      i, j := EntryBar(actions, |bars|), |bars| - 1;
    }
  }

  /**
   * Every logged trade goes from a buy to the next sell, or to the last bar; its times and prices are those bars'
   * times and closes; and with both fees its growth takes the entry price to the exit price.
   */
  lemma TradeMeans(bars: seq<Bar>, actions: seq<Action>, fee: real, k: nat) returns (i: nat, j: nat)
    requires Input(bars, actions) && k < |Logged(bars, actions, fee)|
    ensures i <= j < |bars| && actions[i].Buy? && (actions[j].Sell? || j == |bars| - 1)
    ensures forall m :: i < m < j ==> !actions[m].Sell?
    ensures var t := Logged(bars, actions, fee)[k];
      && t.entryTime == bars[i].time && t.entryPrice == bars[i].close
      && t.exitTime == bars[j].time && t.exitPrice == bars[j].close
      && (t.entryPrice != 0.0 ==>
            t.returnPct.Finite? && Growth(t) * t.entryPrice == t.exitPrice * (1.0 - fee) * (1.0 - fee))
  {
    hide Logged, ReturnPct, Growth;
    i, j := LoggedIsTrade(bars, actions, fee, k);
    if bars[i].close != 0.0 { ReturnMeans(TradeOf(bars, i, j, fee), fee); }
  }

  lemma ReturnMeans(t: Trade, fee: real)
    requires t.returnPct == ReturnPct(t.entryPrice, t.exitPrice, fee) && t.entryPrice != 0.0
    ensures t.returnPct.Finite? && Growth(t) * t.entryPrice == t.exitPrice * (1.0 - fee) * (1.0 - fee)
  {
    var x, a := Ratio(t.exitPrice, t.entryPrice), 1.0 - fee;
    assert Growth(t) == x * a * a;
    hide Ratio, Growth, ReturnPct;
    RatioIs(t.exitPrice, t.entryPrice, 0.0);
    assert x * a * a * t.entryPrice == x * t.entryPrice * a * a;
  }

  /**
   * With positive closes the equity after every bar is the product of the round trips so far, times, in the market,
   * one fee and the price change since the entry.
   */
  lemma EquityAfterEachBar(bars: seq<Bar>, actions: seq<Action>, fee: real, n: nat)
    requires Input(bars, actions) && Positive(bars) && 1 <= n <= |bars|
    ensures var trips := Trips(bars, actions, fee, n);
      && AllFinite(trips)
      && Simulate(bars, actions, fee, n).equity == Product(trips) *
         if InMarket(actions[..n]) then (1.0 - fee) * Ratio(bars[n - 1].close, bars[EntryBar(actions, n)].close) else 1.0
  {
    hide Simulate, Trips, Product, Ratio, InMarket;
    SimulateTrips(bars, actions, fee, n);
    SimulateBalances(bars, actions, fee, n);
  }

  // ---- percentages ------------------------------------------------------------------------------------------

  /** The first close grown by the buy-and-hold return is the last close. */
  lemma HoldMeans(first: real, last: real)
    requires first != 0.0
    ensures HoldPct(first, last).Finite? && first * (1.0 + HoldPct(first, last).value / 100.0) == last
  {
    var x := Ratio(last, first);
    assert HoldPct(first, last).Finite? && 1.0 + HoldPct(first, last).value / 100.0 == x;
    hide Ratio, HoldPct;
    RatioIs(last, first, 0.0);
  }

  /** An equity of 1 grown by the total return is the final equity. */
  lemma TotalMeans(equity: real)
    ensures 1.0 + GainPct(equity) / 100.0 == equity
  {
  }

  /** The trades that grew. */
  function Grown(log: seq<Trade>): set<int>
    requires AllFinite(log)
  {
    set i | 0 <= i < |log| && Growth(log[i]) > 1.0
  }

  lemma {:induction false} WinsAreGrown(log: seq<Trade>)
    requires AllFinite(log)
    ensures Wins(log) == |Grown(log)|
  {
    if log != [] {
      var n := |log| - 1;
      WinsAreGrown(log[..n]);
      assert Grown(log) == Grown(log[..n]) + if Growth(log[n]) > 1.0 then {n} else {};
    } else {
      assert Grown(log) == {};
    }
  }

  /** The win rate is the share of trades that grew, in percent; zero without trades. */
  lemma WinRateMeans(log: seq<Trade>)
    requires AllFinite(log)
    ensures WinRatePct(Wins(log), |log|) * |log| as real == 100.0 * |Grown(log)| as real
    ensures log == [] ==> WinRatePct(Wins(log), |log|) == 0.0
  {
    hide Wins, Grown;
    WinsAreGrown(log);
    if log == [] { assert |Grown(log)| == 0 by { NoneGrown(log); } }
    else { ShareTimes(100.0 * |Grown(log)| as real, |log| as real); }
  }

  lemma NoneGrown(log: seq<Trade>)
    requires log == []
    ensures |Grown(log)| == 0
  {
  }

  lemma ShareTimes(a: real, b: real)
    requires b != 0.0
    ensures a / b * b == a
  {
  }
}
