/** What a caller of `stop` may rely on when its call returns. */
module StreamStop {
  import opened Basics
  import opened Stories
  import opened Requests
  import opened StreamCore
  import opened StreamProtocol
  import opened StreamRuns
  import opened StreamReplay

  /** The worker has been joined, and every connection it opened is done and destroyed. */
  predicate Over(s: State) {
    && s.pc.Idle? && s.f.ctx.None? && s.f.reactor.None? && s.pending == []
    && forall c :: 0 <= c < |s.conns| ==> s.conns[c].finished && !s.conns[c].alive
  }

  /** A stop call that finds the worker's thread moves it out, and returns after joining it. */
  predicate MovesThread(s: State) {
    s.f.joinable
  }

  /** Another stop call has moved the thread out and has not joined it yet. */
  predicate OtherIsJoining(s: State) {
    s.moved
  }

  lemma StopMoves(s: State)
    requires Inv(s)
    ensures var t := Step(s, Stop);
      t.f.stopping && !t.f.joinable && t.pc == s.pc && t.moved == (MovesThread(s) || OtherIsJoining(s))
  {
    hide Perform;
    PerformFrame(s.(moved := s.moved || s.f.joinable), StopSection(s.f));
  }

  lemma RestIsOver(s: State)
    requires Inv(s) && s.pc.Idle?
    ensures Over(s)
  {
  }

  // ---- the call that moved the thread -------------------------------------------------------------

  predicate NoJoin(run: seq<Label>) {
    forall i :: 0 <= i < |run| ==> !run[i].Join?
  }

  lemma StaysMoved(s: State, l: Label)
    requires Inv(s) && s.moved && Enabled(s, l) && !l.Join?
    ensures Step(s, l).moved
  {
    hide Perform;
    if IsCallback(l) {
      CallbackStepIs(s, l);
      hide Step;
      PerformFrame(CalledBack(s, l), SectionOf(s.f, l));
    }
    else if l.Stop? { PerformFrame(s.(moved := s.moved || s.f.joinable), StopSection(s.f)); }
    else if l.Send? { PerformFrame(Journal(s, l.r, l.remember), SendSection(s.f, l.r, l.remember)); }
    else if l.Publish? { PerformFrame(s.(pc := Waiting(s.pc.c)), PublishSection(s.f, s.pc.c)); }
  }

  lemma {:induction false} RunStaysMoved(s: State, run: seq<Label>)
    requires Inv(s) && s.moved && IsRun(s, run) && NoJoin(run)
    ensures Inv(After(s, run)) && After(s, run).moved
    decreases |run|
  {
    hide Inv, Enabled, Step;
    if run != [] {
      StepKeepsInv(s, run[0]);
      StaysMoved(s, run[0]);
      RunStaysMoved(Step(s, run[0]), run[1..]);
    }
  }

  lemma MovedMeansRunning(s: State)
    requires Inv(s) && s.moved
    ensures !s.pc.Idle? && s.f.stopping && !MovesThread(s)
  {
  }

  /**
   * From the moment a stop call has moved the thread until it joins it, whatever else is called: the worker is
   * not gone, and no further stop call moves a thread. When it joins, and so returns, everything is over and
   * `stopped` was the last notification.
   */
  lemma MoverReturnsWhenOver(cfg: Config, before: seq<Label>, during: seq<Label>)
    requires IsRun(Init(cfg), before) && MovesThread(After(Init(cfg), before))
    requires IsRun(Step(After(Init(cfg), before), Stop), during) && NoJoin(during)
    ensures var s := After(Step(After(Init(cfg), before), Stop), during);
      && !s.pc.Idle? && !MovesThread(s)
      && (Enabled(s, Join) ==> Over(Step(s, Join)) && Complete(Step(s, Join).events))
  {
    hide Inv, Step, Enabled, Over, Complete, Told;
    var s0 := After(Init(cfg), before);
    StopIsEnabled(s0);
    var s1 := Step(s0, Stop);
    InitInv(cfg);
    RunKeepsInv(Init(cfg), before);
    assert Told(Init(cfg)) by { InitTold(cfg); }
    RunTells(Init(cfg), before);
    StopMoves(s0);
    StepKeepsInv(s0, Stop);
    StepTells(s0, Stop);
    RunStaysMoved(s1, during);
    RunTells(s1, during);
    var s := After(s1, during);
    MovedMeansRunning(s);
    if Enabled(s, Join) {
      StepKeepsInv(s, Join);
      JoinEnds(s);
      RestIsOver(Step(s, Join));
    }
  }

  lemma InitTold(cfg: Config)
    ensures Told(Init(cfg))
  {
  }

  lemma StopIsEnabled(s: State)
    ensures Enabled(s, Stop)
  {
  }

  lemma JoinEnds(s: State)
    requires Told(s) && Enabled(s, Join)
    ensures Step(s, Join).pc.Idle? && Complete(Step(s, Join).events)
  {
    hide Complete;
  }

  // ---- a call that did not ------------------------------------------------------------------------

  /**
   * A stop call that moves no thread has nothing left to do and returns at once. Then everything is over if and
   * only if no other stop call is still joining.
   */
  lemma OtherReturnsAtOnce(cfg: Config, before: seq<Label>)
    requires IsRun(Init(cfg), before) && !MovesThread(After(Init(cfg), before))
    ensures var s := After(Init(cfg), before);
      var t := Step(s, Stop);
      && t.pending == s.pending
      && (Over(t) <==> !OtherIsJoining(s))
  {
    hide Inv, Step, IsRun, After, Over;
    var s := After(Init(cfg), before);
    StopIsEnabled(s);
    InitInv(cfg);
    RunKeepsInv(Init(cfg), before);
    StepKeepsInv(s, Stop);
    StopMoves(s);
    NothingToClaim(s);
    var t := Step(s, Stop);
    if s.moved { MovedIsNotOver(t); } else { IdleWithoutThread(s); RestIsOver(t); }
  }

  lemma MovedIsNotOver(s: State)
    requires Inv(s) && s.moved
    ensures !Over(s)
  {
  }

  lemma IdleWithoutThread(s: State)
    requires Inv(s) && !s.f.joinable && !s.moved
    ensures s.pc.Idle?
  {
  }

  lemma NothingToClaim(s: State)
    requires Inv(s) && !s.f.joinable
    ensures Step(s, Stop).pending == s.pending
  {
    hide Cancel;
    assert StopSection(s.f).release.None?;
    CancelFrame(s.(moved := s.moved || s.f.joinable, f := StopSection(s.f).fields), s.f.ctx);
  }

  /**
   * The case that fails: while a connection is open, the second of two stop calls returns with the connection's
   * reactor alive and its worker running.
   */
  lemma SecondStopReturnsEarly(s: State, c: ConnId)
    requires Inv(s) && s.f.ctx == Some(c) && !s.f.stopping
    ensures var t := Step(s, Stop);
      && MovesThread(s) && !MovesThread(t) && OtherIsJoining(t)
      && c < |Step(t, Stop).conns| && Step(t, Stop).conns[c].alive && !Step(t, Stop).pc.Idle?
  {
    hide Perform;
    PerformFrame(s.(moved := s.moved || s.f.joinable), StopSection(s.f));
    var t := Step(s, Stop);
    PerformFrame(t.(moved := t.moved || t.f.joinable), StopSection(t.f));
    hide Step;
    assert SameCall(s.conns[c], t.conns[c]);
    assert SameCall(t.conns[c], Step(t, Stop).conns[c]);
  }

  /** And such a state is reached: right after the first connection has been opened. */
  lemma SecondStopHappens(cfg: Config)
    ensures IsRun(Init(cfg), OpenThen([]))
    ensures var s := After(Init(cfg), OpenThen([])); Inv(s) && s.f.ctx == Some(0) && !s.f.stopping
  {
    hide IsRun, After, OpenThen, Inv;
    EmptyRun(OpenedState(cfg));
    OpenThenReaches(cfg, []);
    InitInv(cfg);
    RunKeepsInv(Init(cfg), OpenThen([]));
  }
}
