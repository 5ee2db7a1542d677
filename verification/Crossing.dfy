/** The cross rules, what they answer over a whole price history, and what that means for the backtester. */
module Crossing {
  import opened Basics
  import opened Averages
  import opened Backtest

  datatype Rule =
    | SmaRule(fast: int, slow: int)
    | EmaRule(fast: int, slow: int)
    | MacdRule(fast: int, slow: int, signal: int)

  predicate Sensible(r: Rule) {
    r.fast >= 1 && r.slow >= 1 && (r.MacdRule? ==> r.signal >= 1)
  }

  /** Whether the fast side is above the slow side, once there is enough history to tell. */
  function Above(r: Rule, xs: seq<real>): Option<bool>
    requires Sensible(r)
  {
    match r
    case SmaRule(fast, slow) =>
      if |xs| < slow then None else Some(Mean(LastN(xs, fast)) > Mean(LastN(xs, slow)))
    case EmaRule(fast, slow) =>
      if |xs| < slow || |xs| < fast then None else Some(ExpMean(xs, fast) > ExpMean(xs, slow))
    case MacdRule(fast, slow, signal) =>
      var lines := Lines(xs, fast, slow);
      if |lines| < signal then None else Some(lines[|lines| - 1] - ExpMean(lines, signal) > 0.0)
  }

  /** The latest known side. */
  function LastAbove(r: Rule, xs: seq<real>): Option<bool>
    requires Sensible(r)
  {
    if xs == [] then None
    else if Above(r, xs).Some? then Above(r, xs)
    else LastAbove(r, xs[..|xs| - 1])
  }

  function Answer(before: Option<bool>, now: Option<bool>): Action {
    if now.None? || before.None? || now == before then Hold
    else if now.value then Buy else Sell
  }

  /** The rule's action on the last bar of a history. */
  function ActionAt(r: Rule, xs: seq<real>): Action
    requires Sensible(r) && xs != []
  {
    Answer(LastAbove(r, xs[..|xs| - 1]), Above(r, xs))
  }

  /** One more price: the answer goes by the side known before and the side seen now, which is then the latest. */
  lemma AnswerFollows(r: Rule, xs: seq<real>, x: real)
    requires Sensible(r)
    ensures ActionAt(r, xs + [x]) == Answer(LastAbove(r, xs), Above(r, xs + [x]))
    ensures LastAbove(r, xs + [x]) == if Above(r, xs + [x]).Some? then Above(r, xs + [x]) else LastAbove(r, xs)
  {
    hide Above;
    assert (xs + [x])[..|xs|] == xs;
  }

  function Actions(r: Rule, xs: seq<real>): (acts: seq<Action>)
    requires Sensible(r)
    ensures |acts| == |xs|
  {
    if xs == [] then [] else Actions(r, xs[..|xs| - 1]) + [ActionAt(r, xs)]
  }

  // ---- buys and sells alternate ------------------------------------------------------------------------

  function LastOrder(acts: seq<Action>): Action {
    if acts == [] then Hold
    else if !acts[|acts| - 1].Hold? then acts[|acts| - 1]
    else LastOrder(acts[..|acts| - 1])
  }

  function FirstOrder(acts: seq<Action>): Action {
    if acts == [] then Hold
    else if !FirstOrder(acts[..|acts| - 1]).Hold? then FirstOrder(acts[..|acts| - 1])
    else acts[|acts| - 1]
  }

  /** No order repeats the order before it. */
  predicate Alternates(acts: seq<Action>) {
    acts == [] ||
    (var last, before := acts[|acts| - 1], acts[..|acts| - 1];
     Alternates(before) && (last.Hold? || last != LastOrder(before)))
  }

  lemma {:induction false} ActionsFollowSides(r: Rule, xs: seq<real>)
    requires Sensible(r)
    ensures Alternates(Actions(r, xs))
    ensures LastOrder(Actions(r, xs)).Buy? ==> LastAbove(r, xs) == Some(true)
    ensures LastOrder(Actions(r, xs)).Sell? ==> LastAbove(r, xs) == Some(false)
  {
    hide Above;
    if xs != [] {
      ActionsFollowSides(r, xs[..|xs| - 1]);
      var acts := Actions(r, xs);
      assert acts[..|acts| - 1] == Actions(r, xs[..|xs| - 1]);
    }
  }

  lemma {:induction false} LastOrderSince(acts: seq<Action>, i: nat)
    requires i < |acts| && !acts[i].Hold?
    ensures LastOrder(acts) == acts[i] || exists k :: i < k < |acts| && acts[k] == LastOrder(acts) && !acts[k].Hold?
  {
    var n := |acts| - 1;
    if i < n && acts[n].Hold? {
      LastOrderSince(acts[..n], i);
      if LastOrder(acts) != acts[i] {
        var k :| i < k < n && acts[..n][k] == LastOrder(acts[..n]) && !acts[..n][k].Hold?;
        assert acts[k] == LastOrder(acts);
      }
    }
  }

  lemma {:induction false} AlternatesMeans(acts: seq<Action>, i: nat, j: nat)
    requires Alternates(acts) && i < j < |acts| && !acts[i].Hold? && acts[i] == acts[j]
    ensures exists k :: i < k < j && !acts[k].Hold? && acts[k] != acts[i]
  {
    var n := |acts| - 1;
    if j < n {
      AlternatesMeans(acts[..n], i, j);
      var k :| i < k < j && !acts[..n][k].Hold? && acts[..n][k] != acts[..n][i];
      assert !acts[k].Hold? && acts[k] != acts[i];
    } else {
      LastOrderSince(acts[..n], i);
      var k :| i < k < n && acts[..n][k] == LastOrder(acts[..n]) && !acts[..n][k].Hold?;
      assert !acts[k].Hold? && acts[k] != acts[i];
    }
  }

  /** Over every price history, between two equal orders of a cross strategy there is an opposite one. */
  lemma CrossOrdersAlternate(r: Rule, xs: seq<real>, i: nat, j: nat)
    requires Sensible(r) && i < j < |xs|
    requires !Actions(r, xs)[i].Hold? && Actions(r, xs)[i] == Actions(r, xs)[j]
    ensures exists k :: i < k < j && !Actions(r, xs)[k].Hold? && Actions(r, xs)[k] != Actions(r, xs)[i]
  {
    hide Actions;
    ActionsFollowSides(r, xs);
    AlternatesMeans(Actions(r, xs), i, j);
  }

  /** Both sides have been seen on a history: above after some bars, not above after others. */
  ghost predicate BothSides(r: Rule, xs: seq<real>)
    requires Sensible(r)
  {
    && (exists i :: 0 <= i <= |xs| && Above(r, xs[..i]) == Some(true))
    && (exists j :: 0 <= j <= |xs| && Above(r, xs[..j]) == Some(false))
  }

  /** Until there is an order, every known side is the latest known one. */
  lemma {:induction false} NoOrderOneSide(r: Rule, xs: seq<real>, i: nat)
    requires Sensible(r) && i <= |xs| && LastOrder(Actions(r, xs)).Hold? && Above(r, xs[..i]).Some?
    ensures LastAbove(r, xs) == Above(r, xs[..i])
  {
    hide Above;
    if xs != [] {
      var n := |xs| - 1;
      assert Actions(r, xs)[..n] == Actions(r, xs[..n]);
      if i <= n {
        assert xs[..n][..i] == xs[..i];
        NoOrderOneSide(r, xs[..n], i);
      } else {
        assert xs[..i] == xs;
      }
    } else {
      assert xs[..i] == [] && Above(r, []).None? by { NothingKnown(r); }
    }
  }

  lemma NothingKnown(r: Rule)
    requires Sensible(r)
    ensures Above(r, []).None?
  {
  }

  /** Once both sides have been seen there has been an order, and the last one is a buy exactly if the latest side is above. */
  lemma BothSidesGiveOrders(r: Rule, xs: seq<real>)
    requires Sensible(r) && BothSides(r, xs)
    ensures !LastOrder(Actions(r, xs)).Hold?
    ensures LastOrder(Actions(r, xs)).Buy? <==> LastAbove(r, xs) == Some(true)
  {
    hide Above, Actions, LastOrder, LastAbove;
    var i :| 0 <= i <= |xs| && Above(r, xs[..i]) == Some(true);
    var j :| 0 <= j <= |xs| && Above(r, xs[..j]) == Some(false);
    if LastOrder(Actions(r, xs)).Hold? {
      NoOrderOneSide(r, xs, i);
      NoOrderOneSide(r, xs, j);
    }
    ActionsFollowSides(r, xs);
  }

  // ---- what the backtester makes of them ------------------------------------------------------------------

  function Count(acts: seq<Action>, a: Action): nat {
    if acts == [] then 0 else Count(acts[..|acts| - 1], a) + if acts[|acts| - 1] == a then 1 else 0
  }

  lemma {:induction false} AlternatesPrefix(acts: seq<Action>, n: nat)
    requires Alternates(acts) && n <= |acts|
    ensures Alternates(acts[..n])
  {
    if n < |acts| {
      AlternatesPrefix(acts[..|acts| - 1], n);
      assert acts[..|acts| - 1][..n] == acts[..n];
    } else {
      assert acts[..n] == acts;
    }
  }

  lemma {:induction false} LastOrderOf(before: seq<Action>, acts: seq<Action>)
    ensures LastOrder(before + acts) == if LastOrder(acts).Hold? then LastOrder(before) else LastOrder(acts)
    decreases |acts|
  {
    if acts == [] {
      assert before + acts == before;
    } else {
      LastOrderOf(before, acts[..|acts| - 1]);
      assert (before + acts)[..|before + acts| - 1] == before + acts[..|acts| - 1];
    }
  }

  lemma {:induction false} AlternatesSuffix(before: seq<Action>, acts: seq<Action>)
    requires Alternates(before + acts)
    ensures Alternates(acts)
    decreases |acts|
  {
    if acts != [] {
      assert (before + acts)[..|before + acts| - 1] == before + acts[..|acts| - 1];
      AlternatesSuffix(before, acts[..|acts| - 1]);
      LastOrderOf(before, acts[..|acts| - 1]);
    }
  }

  lemma {:induction false} AlternatingPosition(bars: seq<Bar>, actions: seq<Action>, fee: real, n: nat)
    requires Input(bars, actions) && Alternates(actions) && n <= |bars|
    ensures var s, done := Simulate(bars, actions, fee, n), actions[..n];
      && s.long == LastOrder(done).Buy?
      && |s.log| + (if s.long then 1 else 0) == Count(done, Buy)
      && Count(done, Sell) == |s.log| + (if FirstOrder(done).Sell? then 1 else 0)
      && LastOrder(done).Hold? == FirstOrder(done).Hold?
      && (LastOrder(done).Hold? ==> Count(done, Sell) == 0 && s.log == [])
  {
    hide Marked, Charged, FallPct, ReturnPct, Returned;
    if n > 0 {
      AlternatingPosition(bars, actions, fee, n - 1);
      AlternatesPrefix(actions, n);
      assert actions[..n][..n - 1] == actions[..n - 1];
    }
  }

  /**
   * On alternating orders the backtester acts on every buy, and on every sell but one that comes first: the
   * number of trades, forced close included, is the number of buys.
   */
  lemma TradesAreBuys(bars: seq<Bar>, actions: seq<Action>, fee: real)
    requires Input(bars, actions) && Alternates(actions)
    ensures var s := Simulate(bars, actions, fee, |bars|);
      && |Settle(s, bars[|bars| - 1], fee).log| == Count(actions, Buy)
      && Count(actions, Sell) == |s.log| + (if FirstOrder(actions).Sell? then 1 else 0)
  {
    hide OnBar, ReturnPct;
    AlternatingPosition(bars, actions, fee, |bars|);
    assert actions[..|bars|] == actions;
  }

  /** The closes of the bars. */
  function Closes(bars: seq<Bar>): (xs: seq<real>)
    ensures |xs| == |bars|
  {
    seq(|bars|, i requires 0 <= i < |bars| => bars[i].close)
  }

  /** So for every cross strategy and every price history. */
  lemma CrossTradesAreBuys(r: Rule, bars: seq<Bar>, fee: real)
    requires Sensible(r) && |bars| >= 1
    ensures var actions := Actions(r, Closes(bars));
      var s := Simulate(bars, actions, fee, |bars|);
      && |Settle(s, bars[|bars| - 1], fee).log| == Count(actions, Buy)
      && Count(actions, Sell) == |s.log| + (if FirstOrder(actions).Sell? then 1 else 0)
  {
    hide Actions, Simulate, Settle;
    ActionsFollowSides(r, Closes(bars));
    TradesAreBuys(bars, Actions(r, Closes(bars)), fee);
  }

  // ---- units of price do not matter --------------------------------------------------------------------------

  lemma ShiftOrder(x: real, y: real, c: real, d: real)
    requires c > 0.0
    ensures c * x + d > c * y + d <==> x > y
  {
  }

  lemma AboveAffine(r: Rule, xs: seq<real>, c: real, d: real)
    requires Sensible(r) && c > 0.0
    ensures Above(r, Affine(xs, c, d)) == Above(r, xs)
  {
    hide Mean, ExpMean, Lines, LastN;
    match r {
      case SmaRule(fast, slow) =>
        if |xs| >= slow {
          LastNAffine(xs, c, d, fast);
          LastNAffine(xs, c, d, slow);
          MeanAffine(LastN(xs, fast), c, d);
          MeanAffine(LastN(xs, slow), c, d);
          ShiftOrder(Mean(LastN(xs, fast)), Mean(LastN(xs, slow)), c, d);
        }
      case EmaRule(fast, slow) =>
        if |xs| >= slow && |xs| >= fast {
          ExpMeanAffine(xs, fast, c, d);
          ExpMeanAffine(xs, slow, c, d);
          ShiftOrder(ExpMean(xs, fast), ExpMean(xs, slow), c, d);
        }
      case MacdRule(fast, slow, signal) =>
        LinesAffine(xs, fast, slow, c, d);
        var lines := Lines(xs, fast, slow);
        if |lines| >= signal {
          ExpMeanAffine(lines, signal, c, 0.0);
          ShiftOrder(lines[|lines| - 1], ExpMean(lines, signal), c, 0.0);
        }
    }
  }

  lemma {:induction false} LastAboveAffine(r: Rule, xs: seq<real>, c: real, d: real)
    requires Sensible(r) && c > 0.0
    ensures LastAbove(r, Affine(xs, c, d)) == LastAbove(r, xs)
  {
    hide Above;
    if xs != [] {
      AboveAffine(r, xs, c, d);
      AffinePrefix(xs, c, d, |xs| - 1);
      LastAboveAffine(r, xs[..|xs| - 1], c, d);
    }
  }

  /** A cross strategy's actions are unchanged by any positive affine rescaling of the prices. */
  lemma {:induction false} ActionsAffine(r: Rule, xs: seq<real>, c: real, d: real)
    requires Sensible(r) && c > 0.0
    ensures Actions(r, Affine(xs, c, d)) == Actions(r, xs)
  {
    hide Above, LastAbove;
    if xs != [] {
      var before := xs[..|xs| - 1];
      AffinePrefix(xs, c, d, |xs| - 1);
      ActionsAffine(r, before, c, d);
      AboveAffine(r, xs, c, d);
      LastAboveAffine(r, before, c, d);
    }
  }
}
