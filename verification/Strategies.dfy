/** The cross strategies as the objects they are: indicators plus the side seen last. */
module Strategies {
  import opened Basics
  import opened Averages
  import opened Backtest
  import opened Crossing
  import opened Indicators

  /** The two flags that remember the last known side. */
  predicate Remembers(hasPrev: bool, prev: bool, side: Option<bool>) {
    hasPrev == side.Some? && (hasPrev ==> prev == side.value)
  }

  class SmaCross {
    const fast: Sma
    const slow: Sma
    var prevAbove: bool
    var hasPrev: bool
    ghost var history: seq<real>

    ghost function Rule(): Rule
    {
      SmaRule(fast.period, slow.period)
    }

    ghost predicate Valid()
      reads this, fast, slow
    {
      && fast != slow && fast.Valid() && slow.Valid()
      && fast.history == history && slow.history == history
      && Remembers(hasPrev, prevAbove, LastAbove(Rule(), history))
    }

    constructor (f: int, s: int)
      requires f >= 1 && s >= 1
      ensures Valid() && history == [] && Rule() == SmaRule(f, s) && fresh({this, fast, slow})
    {
      fast := new Sma(f);
      slow := new Sma(s);
      prevAbove, hasPrev, history := false, false, [];
    }

    method OnBar(close: real) returns (a: Action)
      requires Valid()
      modifies this, fast, slow
      ensures Valid() && history == old(history) + [close]
      ensures a == ActionAt(Rule(), history)
    {
      hide Mean, LastN, Sum, LastAbove, ActionAt;
      fast.Push(close);
      slow.Push(close);
      history := history + [close];
      AnswerFollows(Rule(), old(history), close);
      var ready := slow.Ready();
      if !ready { return Hold; }
      var x := fast.Value();
      var y := slow.Value();
      var above := x > y;
      a := Hold;
      if hasPrev {
        if above && !prevAbove { a := Buy; }
        if !above && prevAbove { a := Sell; }
      }
      prevAbove := above;
      hasPrev := true;
    }
  }

  class EmaCross {
    const fast: Ema
    const slow: Ema
    var prevAbove: bool
    var hasPrev: bool
    ghost var history: seq<real>

    ghost function Rule(): Rule
    {
      EmaRule(fast.period, slow.period)
    }

    ghost predicate Valid()
      reads {this} + fast.Repr() + slow.Repr()
    {
      && {this} !! fast.Repr() !! slow.Repr() && fast.Valid() && slow.Valid()
      && fast.history == history && slow.history == history
      && Remembers(hasPrev, prevAbove, LastAbove(Rule(), history))
    }

    constructor (f: int, s: int)
      requires f >= 1 && s >= 1
      ensures Valid() && history == [] && Rule() == EmaRule(f, s) && fresh({this} + fast.Repr() + slow.Repr())
    {
      fast := new Ema(f);
      slow := new Ema(s);
      prevAbove, hasPrev, history := false, false, [];
    }

    method OnBar(close: real) returns (a: Action)
      requires Valid()
      modifies {this} + fast.Repr() + slow.Repr()
      ensures Valid() && history == old(history) + [close]
      ensures a == ActionAt(Rule(), history)
    {
      hide ExpMean, LastN, Sum, Weight, LastAbove, ActionAt;
      fast.Push(close);
      slow.Push(close);
      history := history + [close];
      AnswerFollows(Rule(), old(history), close);
      if !slow.ready || !fast.ready { return Hold; }
      var above := fast.value > slow.value;
      a := Hold;
      if hasPrev {
        if above && !prevAbove { a := Buy; }
        if !above && prevAbove { a := Sell; }
      }
      prevAbove := above;
      hasPrev := true;
    }
  }

  class MacdCross {
    const macd: Macd
    var prevPositive: bool
    var hasPrev: bool
    ghost var history: seq<real>

    ghost function Rule(): Rule
    {
      MacdRule(macd.fast.period, macd.slow.period, macd.signal.period)
    }

    ghost predicate Valid()
      reads {this} + macd.Repr()
    {
      && {this} !! macd.Repr() && macd.Valid() && macd.history == history
      && Remembers(hasPrev, prevPositive, LastAbove(Rule(), history))
    }

    constructor (f: int, s: int, g: int)
      requires f >= 1 && s >= 1 && g >= 1
      ensures Valid() && history == [] && Rule() == MacdRule(f, s, g) && fresh({this} + macd.Repr())
    {
      macd := new Macd(f, s, g);
      prevPositive, hasPrev, history := false, false, [];
    }

    method OnBar(close: real) returns (a: Action)
      requires Valid()
      modifies {this} + macd.Repr()
      ensures Valid() && history == old(history) + [close]
      ensures a == ActionAt(Rule(), history)
    {
      hide ExpMean, LastN, Sum, Weight, Lines, Mean, Blended, Affine, LastAbove, ActionAt;
      var ready := macd.Push(close);
      history := history + [close];
      AnswerFollows(Rule(), old(history), close);
      if !ready { return Hold; }
      var h := macd.Histogram();
      var positive := h > 0.0;
      a := Hold;
      if hasPrev {
        if positive && !prevPositive { a := Buy; }
        if !positive && prevPositive { a := Sell; }
      }
      prevPositive := positive;
      hasPrev := true;
    }
  }

  /** Any of the cross strategies, behind their common interface. */
  datatype Strategy = OfSma(sma: SmaCross) | OfEma(ema: EmaCross) | OfMacd(macd: MacdCross) {

    ghost function Repr(): set<object> {
      match this
      case OfSma(s) => {s, s.fast, s.slow}
      case OfEma(s) => {s} + s.fast.Repr() + s.slow.Repr()
      case OfMacd(s) => {s} + s.macd.Repr()
    }

    ghost function Rule(): Rule {
      match this
      case OfSma(s) => s.Rule()
      case OfEma(s) => s.Rule()
      case OfMacd(s) => s.Rule()
    }

    /** The closes the strategy has seen, if its object is in a valid state. */
    ghost function Seen(): (xs: Option<seq<real>>)
      reads Repr()
      ensures xs.Some? ==> Sensible(Rule())
    {
      match this
      case OfSma(s) => if s.Valid() then Some(s.history) else None
      case OfEma(s) => if s.Valid() then Some(s.history) else None
      case OfMacd(s) => if s.Valid() then Some(s.history) else None
    }

    method OnBar(close: real) returns (a: Action)
      requires Seen().Some?
      modifies Repr()
      ensures Seen() == Some(old(Seen()).value + [close])
      ensures a == ActionAt(Rule(), Seen().value)
    {
      match this {
        case OfSma(s) => a := s.OnBar(close);
        case OfEma(s) => a := s.OnBar(close);
        case OfMacd(s) => a := s.OnBar(close);
      }
    }
  }

  /** Show a strategy the bars: it answers with its rule's actions on all it has seen, before and now. */
  method Drive(strategy: Strategy, bars: seq<Bar>) returns (actions: seq<Action>)
    requires strategy.Seen().Some?
    modifies strategy.Repr()
    ensures strategy.Seen() == Some(old(strategy.Seen()).value + Closes(bars))
    ensures Actions(strategy.Rule(), strategy.Seen().value) ==
            Actions(strategy.Rule(), old(strategy.Seen()).value) + actions
    ensures |actions| == |bars|
  {
    hide Strategy.Seen, Strategy.Repr, Strategy.Rule, Sensible, ActionAt, Actions, Closes;
    actions := [];
    ClosesOf(bars);
    ghost var before := strategy.Seen().value;
    assert before + [] == before;
    for n := 0 to |bars|
      invariant strategy.Seen() == Some(before + Closes(bars[..n]))
      invariant Actions(strategy.Rule(), strategy.Seen().value) == Actions(strategy.Rule(), before) + actions
      invariant |actions| == n
    {
      ActionsAppend(strategy.Rule(), strategy.Seen().value, bars[n].close);
      var a := strategy.OnBar(bars[n].close);
      actions := actions + [a];
      assert before + Closes(bars[..n + 1]) == before + Closes(bars[..n]) + [bars[n].close];
    }
  }

  lemma ClosesOf(bars: seq<Bar>)
    ensures Closes(bars[..0]) == [] && bars[..|bars|] == bars
    ensures forall n :: 0 <= n < |bars| ==> Closes(bars[..n + 1]) == Closes(bars[..n]) + [bars[n].close]
  {
  }

  lemma ActionsAppend(r: Rule, xs: seq<real>, x: real)
    requires Sensible(r)
    ensures Actions(r, xs + [x]) == Actions(r, xs) + [ActionAt(r, xs + [x])]
  {
    hide ActionAt;
    assert (xs + [x])[..|xs|] == xs;
  }

  /**
   * Backtest a cross strategy: the report is that of its rule's actions, every buy became a trade, and the
   * only order ignored is a sell that came first.
   */
  method BacktestStrategy(strategy: Strategy, bars: seq<Bar>, commissionPct: real)
    returns (r: Report, actions: seq<Action>)
    requires strategy.Seen().Some?
    modifies strategy.Repr()
    ensures |bars| < 2 ==> r.tradeLog == [] && strategy.Seen() == old(strategy.Seen())
    ensures |bars| >= 2 ==>
      && strategy.Seen() == Some(old(strategy.Seen()).value + Closes(bars))
      && Actions(strategy.Rule(), strategy.Seen().value) ==
         Actions(strategy.Rule(), old(strategy.Seen()).value) + actions
      && Input(bars, actions)
      && var fee := commissionPct / 100.0;
         var s := Simulate(bars, actions, fee, |bars|);
         var t := Settle(s, bars[|bars| - 1], fee);
         && r.tradeLog == t.log && r.totalReturnPct == GainPct(t.equity) && r.maxDrawdownPct == s.drawdown
         && r.trades == Count(actions, Buy)
         && Count(actions, Sell) == |s.log| + (if FirstOrder(actions).Sell? then 1 else 0)
  {
    hide Strategy.Seen, Strategy.Rule, Sensible;
    hide Closes, Actions, Simulate, Settle, Alternates, FirstOrder, Count, GainPct, WinRatePct, Wins;
    actions := [];
    if |bars| < 2 {
      r := Report(|bars|, 0, 0.0, Finite(0.0), 0.0, 0.0, []);
    } else {
      ghost var before := strategy.Seen().value;
      actions := Drive(strategy, bars);
      ActionsFollowSides(strategy.Rule(), strategy.Seen().value);
      AlternatesSuffix(Actions(strategy.Rule(), before), actions);
      TradesAreBuys(bars, actions, commissionPct / 100.0);
      var moves;
      r, moves := RunBacktest(bars, actions, commissionPct);
    }
  }
}
