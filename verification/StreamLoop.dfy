/** What the worker's loop does when nobody stops it: it goes on connecting, and it goes on writing. */
module StreamLoop {
  import opened Basics
  import opened Stories
  import opened Requests
  import opened Registry
  import opened StreamCore
  import opened StreamProtocol
  import opened StreamRuns
  import opened StreamSafety
  import opened StreamReplay

  // ---- a stream stops only when asked -------------------------------------------------------------

  /** Whether a stop has been asked for since the latest start. */
  function StopAsked(before: bool, run: seq<Label>): bool
    decreases |run|
  {
    if run == [] then before
    else StopAsked(if run[0].Stop? then true else if run[0].Start? then false else before, run[1..])
  }

  /** What a step does to `stopping_` and, apart from the worker's own steps, where the worker is. */
  lemma StepStops(s: State, l: Label)
    requires Inv(s) && Enabled(s, l)
    ensures Step(s, l).f.stopping == if l.Stop? then true else if l.Start? then false else s.f.stopping
  {
    hide Perform, Update;
    if IsCallback(l) {
      CallbackKeepsStopping(s, l);
    }
    else if l.Stop? { PerformFrame(s.(moved := s.moved || s.f.joinable), StopSection(s.f)); }
    else if l.Send? { PerformFrame(Journal(s, l.r, l.remember), SendSection(s.f, l.r, l.remember)); }
    else if l.Publish? { PerformFrame(s.(pc := Waiting(s.pc.c)), PublishSection(s.f, s.pc.c)); }
  }

  lemma CallbackKeepsStopping(s: State, l: Label)
    requires Enabled(s, l) && IsCallback(l)
    ensures Step(s, l).f.stopping == s.f.stopping && Step(s, l).pc == s.pc
  {
    hide Step, Perform;
    CallbackStepIs(s, l);
    SectionCases(s.f, l);
    hide SectionOf, CallAfter;
    PerformFrame(CalledBack(s, l), SectionOf(s.f, l));
  }

  lemma {:induction false} RunStops(s: State, run: seq<Label>)
    requires Inv(s) && IsRun(s, run)
    ensures After(s, run).f.stopping == StopAsked(s.f.stopping, run)
    decreases |run|
  {
    hide Inv, Enabled, Step;
    if run != [] {
      StepKeepsInv(s, run[0]);
      StepStops(s, run[0]);
      RunStops(Step(s, run[0]), run[1..]);
    }
  }

  /** The worker leaves its loop only to stop, or without reconnecting after a break. */
  predicate LeavesWhenStopping(s: State) {
    s.cfg.reconnect && (s.pc.AnnounceStopped? || s.pc.Exited?) ==> s.f.stopping
  }

  lemma OthersKeepPc(s: State, l: Label)
    requires Enabled(s, l) && (l.Stop? || l.Send? || l.Publish?)
    ensures Step(s, l).pc == if l.Publish? then Waiting(s.pc.c) else s.pc
    ensures Step(s, l).cfg == s.cfg && Step(s, l).breaks == s.breaks
  {
    hide Perform, Update;
    if l.Stop? { PerformFrame(s.(moved := s.moved || s.f.joinable), StopSection(s.f)); }
    else if l.Send? { PerformFrame(Journal(s, l.r, l.remember), SendSection(s.f, l.r, l.remember)); }
    else { PerformFrame(s.(pc := Waiting(s.pc.c)), PublishSection(s.f, s.pc.c)); }
  }

  lemma StepLeavesWhenStopping(s: State, l: Label)
    requires Inv(s) && Enabled(s, l) && LeavesWhenStopping(s)
    ensures LeavesWhenStopping(Step(s, l))
  {
    ConfigIsFixed(s, l);
    StepStops(s, l);
    if IsCallback(l) { CallbackKeepsStopping(s, l); }
    else if l.Stop? || l.Send? || l.Publish? { OthersKeepPc(s, l); }
    else { hide Perform, CallbackStep, IssueRemoveHold, Delay, Located; }
  }

  lemma {:induction false} RunLeavesWhenStopping(s: State, run: seq<Label>)
    requires Inv(s) && LeavesWhenStopping(s) && IsRun(s, run)
    ensures LeavesWhenStopping(After(s, run))
    decreases |run|
  {
    hide Inv, Enabled, Step, LeavesWhenStopping;
    if run != [] {
      StepKeepsInv(s, run[0]);
      StepLeavesWhenStopping(s, run[0]);
      RunLeavesWhenStopping(Step(s, run[0]), run[1..]);
    }
  }

  /**
   * In every run `stopping_` is set exactly if a stop has been asked for since the latest start, and with
   * reconnection on the worker leaves its loop, and tells `stopped`, only then.
   */
  lemma StopsOnlyWhenAsked(cfg: Config, run: seq<Label>)
    requires IsRun(Init(cfg), run)
    ensures var s := After(Init(cfg), run);
      && s.f.stopping == StopAsked(false, run)
      && (cfg.reconnect && (s.pc.AnnounceStopped? || s.pc.Exited?) ==> StopAsked(false, run))
  {
    hide Inv, Enabled, Step, IsRun, After;
    InitInv(cfg);
    RunStops(Init(cfg), run);
    RunLeavesWhenStopping(Init(cfg), run);
    RunIsPacedFrom(cfg, run);
  }

  lemma RunIsPacedFrom(cfg: Config, run: seq<Label>)
    requires IsRun(Init(cfg), run)
    ensures After(Init(cfg), run).cfg == cfg
  {
    hide Enabled, Step, IsRun, After;
    assert Paced(Init(cfg));
    RunIsPaced(Init(cfg), run);
  }

  // ---- every break is followed by another connection ----------------------------------------------

  /** From the end of a connection round the loop to the opening of the next. */
  function Reconnecting(order: seq<string>): seq<Label> {
    [WaitDone] + ([CheckAfterRun] + ([EmitDisconnected] + ([Wake] + Again(order))))
  }

  function Again(order: seq<string>): seq<Label> {
    [LoopCheck] + ([EmitConnecting] + ([Open(order)] + []))
  }

  /** At the top of its loop, and not stopping, the worker opens one more connection. */
  lemma LoopOpens(s: State, order: seq<string>)
    requires s.pc.LoopTop? && !s.f.stopping && Enumerates(order, s.f.subs)
    ensures IsRun(s, Again(order))
    ensures var t := After(s, Again(order));
      && |t.conns| == |s.conns| + 1 && t.f.ctx == Some(|s.conns|) && t.pc == Binding(|s.conns|)
      && t.f.queue == Replay(s.f.subs, order) && t.f.subs == s.f.subs
  {
    hide IsRun, After, Replay, Enumerates, Perform, CallbackStep;
    var s1 := Step(s, LoopCheck);
    var s2 := Step(s1, EmitConnecting);
    var s3 := Step(s2, Open(order));
    EmptyRun(s3);
    RunCons(s2, Open(order), []);
    RunCons(s1, EmitConnecting, [Open(order)] + []);
    RunCons(s, LoopCheck, [EmitConnecting] + ([Open(order)] + []));
  }

  /** A start of a stream that is over, first or again, opens a connection. */
  lemma StartConnects(s: State, order: seq<string>)
    requires Inv(s) && s.pc.Idle? && Enumerates(order, s.f.subs)
    ensures IsRun(s, [Start] + Again(order))
    ensures var t := After(s, [Start] + Again(order));
      |t.conns| == |s.conns| + 1 && t.f.ctx == Some(|s.conns|) && t.f.queue == Replay(s.f.subs, order)
  {
    hide IsRun, After, Replay, Enumerates, Perform, CallbackStep, Again, Located;
    LoopOpens(Step(s, Start), order);
    RunCons(s, Start, Again(order));
  }

  /** A break that is to be told is told, waited for, and the worker is at the top of its loop again. */
  lemma BreakReachesLoop(s: State, rest: seq<Label>)
    requires s.pc.AnnounceDisconnected? && !s.f.stopping && s.cfg.reconnect
    requires IsRun(BreakTold(s), rest)
    ensures IsRun(s, [EmitDisconnected] + ([Wake] + rest))
    ensures After(s, [EmitDisconnected] + ([Wake] + rest)) == After(BreakTold(s), rest)
  {
    hide IsRun, After, Perform, CallbackStep, Delay;
    RunCons(Step(s, EmitDisconnected), Wake, rest);
    RunCons(s, EmitDisconnected, [Wake] + rest);
  }

  /** The state after a break has been told and waited for. */
  function BreakTold(s: State): State {
    var attempt := if s.f.gotData then 0 else s.attempt;
    s.(events := s.events + [Disconnected], breaks := s.breaks + [s.f.gotData],
       waits := s.waits + [Delay(s.cfg, attempt)], attempt := attempt + 1, pc := LoopTop)
  }

  /**
   * With reconnection on and no stop asked for, a connection that is done is followed by the next one, after the
   * break has been told, in whatever order the registry is walked: a new connection whose queue is the registry.
   */
  lemma BreakIsFollowedByConnection(s: State, order: seq<string>)
    requires Inv(s) && s.pc.Waiting? && s.f.done && !s.f.stopping && s.cfg.reconnect
    requires Enumerates(order, s.f.subs)
    ensures IsRun(s, Reconnecting(order))
    ensures var t := After(s, Reconnecting(order));
      && |t.conns| == |s.conns| + 1 && t.f.ctx == Some(|s.conns|) && t.f.queue == Replay(s.f.subs, order)
  {
    assert s.pc.c < |s.conns|;
    hide IsRun, After, Replay, Enumerates, Perform, CallbackStep, Again, Delay, Inv;
    var s1 := Step(s, WaitDone);
    var s2 := Step(s1, CheckAfterRun);
    LoopOpens(BreakTold(s2), order);
    BreakReachesLoop(s2, Again(order));
    RunCons(s1, CheckAfterRun, [EmitDisconnected] + ([Wake] + Again(order)));
    RunCons(s, WaitDone, [CheckAfterRun] + ([EmitDisconnected] + ([Wake] + Again(order))));
  }

  // ---- and it does happen ------------------------------------------------------------------------------

  function PublishedState(cfg: Config): State {
    State(cfg, Fields(false, false, false, false, false, false, Some(0), Some(0), true, [], map[]),
          Waiting(0), false, 0, [Conn(true, true, true, 1, 0, Reading, None, 0, false, false, [], [], [])],
          [], [Connecting], [], [], false)
  }

  function BrokenState(cfg: Config): State {
    State(cfg, Fields(false, true, false, true, true, false, None, Some(0), true, [], map[]), Waiting(0), false, 0,
          [Conn(true, true, true, 0, 1, Closed, None, 0, false, true, [], [], [])], [], [Connecting], [], [], false)
  }

  function PublishThen(rest: seq<Label>): seq<Label> {
    [Bind] + ([Begin] + ([Publish] + rest))
  }

  /** The read fails, the hold is removed, the callback returns, and the call is done. */
  function BreakThen(rest: seq<Label>): seq<Label> {
    [ReadFail(0)] + ([RemoveHold(0)] + ([ReadReturn(0)] + ([OnDone(0)] + rest)))
  }

  lemma PublishThenReaches(cfg: Config, rest: seq<Label>)
    requires IsRun(PublishedState(cfg), rest)
    ensures IsRun(OpenedState(cfg), PublishThen(rest))
    ensures After(OpenedState(cfg), PublishThen(rest)) == After(PublishedState(cfg), rest)
  {
    hide IsRun, After;
    var s0 := OpenedState(cfg);
    var s1 := Step(s0, Bind);
    var s2 := Step(s1, Begin);
    assert Step(s2, Publish) == PublishedState(cfg);
    RunCons(s2, Publish, rest);
    RunCons(s1, Begin, [Publish] + rest);
    RunCons(s0, Bind, [Begin] + ([Publish] + rest));
  }

  lemma BreakThenReaches(cfg: Config, rest: seq<Label>)
    requires IsRun(BrokenState(cfg), rest)
    ensures IsRun(PublishedState(cfg), BreakThen(rest))
    ensures After(PublishedState(cfg), BreakThen(rest)) == After(BrokenState(cfg), rest)
  {
    hide IsRun, After;
    var tail := [ReadReturn(0)] + ([OnDone(0)] + rest);
    var s0, s2 := PublishedState(cfg), ReleasedState(cfg);
    var s1 := Step(s0, ReadFail(0));
    assert Step(s1, RemoveHold(0)) == s2;
    ReleasedReaches(cfg, rest);
    RunCons(s1, RemoveHold(0), tail);
    RunCons(s0, ReadFail(0), [RemoveHold(0)] + tail);
  }

  function ReleasedState(cfg: Config): State {
    State(cfg, Fields(false, false, false, true, true, false, Some(0), Some(0), true, [], map[]), Waiting(0), false, 0,
          [Conn(true, true, true, 0, 1, Closing, None, 0, false, false, [], [], [])], [], [Connecting], [], [], false)
  }

  lemma ReleasedReaches(cfg: Config, rest: seq<Label>)
    requires IsRun(BrokenState(cfg), rest)
    ensures IsRun(ReleasedState(cfg), [ReadReturn(0)] + ([OnDone(0)] + rest))
    ensures After(ReleasedState(cfg), [ReadReturn(0)] + ([OnDone(0)] + rest)) == After(BrokenState(cfg), rest)
  {
    hide IsRun, After;
    var s2 := ReleasedState(cfg);
    var s3 := Step(s2, ReadReturn(0));
    assert Step(s3, OnDone(0)) == BrokenState(cfg);
    RunCons(s3, OnDone(0), rest);
    RunCons(s2, ReadReturn(0), [OnDone(0)] + rest);
  }

  /** A run in which the first connection is opened, published and broken, and a second one is opened. */
  lemma SecondConnectionHappens(cfg: Config)
    requires cfg.reconnect
    ensures var run := OpenThen(PublishThen(BreakThen(Reconnecting([]))));
      IsRun(Init(cfg), run) && |After(Init(cfg), run).conns| == 2 && After(Init(cfg), run).f.ctx == Some(1)
  {
    BrokenInv(cfg);
    EmptyEnumerates();
    hide IsRun, After, OpenThen, PublishThen, BreakThen, Reconnecting, Inv, Enumerates;
    BreakIsFollowedByConnection(BrokenState(cfg), []);
    BreakThenReaches(cfg, Reconnecting([]));
    PublishThenReaches(cfg, BreakThen(Reconnecting([])));
    OpenThenReaches(cfg, PublishThen(BreakThen(Reconnecting([]))));
  }

  lemma BrokenInv(cfg: Config)
    ensures Inv(BrokenState(cfg))
  {
  }

  // ---- a message makes the connection told ---------------------------------------------------------------

  /** The first message of a connection is told as connected, before it is dispatched; a later one is just dispatched. */
  lemma FirstMessageIsTold(s: State, c: ConnId)
    requires Enabled(s, ReadOk(c))
    ensures var t := Step(s, ReadOk(c));
      && t.f.gotData && c < |t.conns|
      && (!s.f.gotData ==>
            && Enabled(t, EmitConnected(c)) && !Enabled(t, NextRead(c))
            && Step(t, EmitConnected(c)).events == s.events + [Connected]
            && Enabled(Step(t, EmitConnected(c)), NextRead(c)))
      && (s.f.gotData ==> !Enabled(t, EmitConnected(c)) && Enabled(t, NextRead(c)) && t.events == s.events)
  {
    CallbackStepIs(s, ReadOk(c));
    var t := Step(s, ReadOk(c));
    if !s.f.gotData { CallbackStepIs(t, EmitConnected(c)); }
    hide Perform;
  }

  // ---- without reconnection ----------------------------------------------------------------------------

  /** At most one break is told, and the worker then leaves its loop. */
  predicate BreaksOnce(s: State) {
    !s.cfg.reconnect ==>
      && |s.breaks| <= 1 && !s.pc.BackingOff?
      && (s.breaks != [] ==> s.pc.AnnounceStopped? || s.pc.Exited? || s.pc.Idle?)
  }

  lemma StepBreaksOnce(s: State, l: Label)
    requires Inv(s) && Enabled(s, l) && BreaksOnce(s)
    ensures BreaksOnce(Step(s, l))
  {
    ConfigIsFixed(s, l);
    if IsCallback(l) { CallbackKeepsStopping(s, l); StepEvents(s, l); CallbackMeansOpen(s, l); }
    else if l.Stop? || l.Send? || l.Publish? { OthersKeepPc(s, l); }
    else { hide Perform, CallbackStep, IssueRemoveHold, Delay; }
  }

  lemma CallbackMeansOpen(s: State, l: Label)
    requires Inv(s) && Enabled(s, l) && IsCallback(l)
    ensures s.pc.Publishing? || s.pc.Waiting?
  {
    CallbackIsCurrent(s, l);
  }

  lemma {:induction false} RunBreaksOnce(s: State, run: seq<Label>)
    requires Inv(s) && BreaksOnce(s) && IsRun(s, run)
    ensures BreaksOnce(After(s, run))
    decreases |run|
  {
    hide Inv, Enabled, Step, BreaksOnce;
    if run != [] {
      StepKeepsInv(s, run[0]);
      StepBreaksOnce(s, run[0]);
      RunBreaksOnce(Step(s, run[0]), run[1..]);
    }
  }

  /** With reconnection off, every start tells at most one break, never waits, and leaves the loop after the break. */
  lemma NoReconnectBreaksOnce(cfg: Config, run: seq<Label>)
    requires IsRun(Init(cfg), run) && !cfg.reconnect
    ensures var s := After(Init(cfg), run);
      && |Carried(s.events)| <= 1 && !s.pc.BackingOff?
      && (Carried(s.events) != [] ==> s.pc.AnnounceStopped? || s.pc.Exited? || s.pc.Idle?)
  {
    hide Inv, Enabled, Step, IsRun, After;
    InitInv(cfg);
    assert Told(Init(cfg)) && Init(cfg).breaks == Carried(Init(cfg).events);
    RunIsPacedFrom(cfg, run);
    RunBreaksOnce(Init(cfg), run);
    RunTallies(Init(cfg), run);
  }

  // ---- writing goes on -----------------------------------------------------------------------------------

  /** A connection that takes writes and has some queued is writing. */
  predicate Busy(f: Fields) {
    f.reactor.Some? && !f.broken && !f.holdReleased && f.queue != [] ==> f.writeInFlight
  }

  lemma MaybeWriteIsBusy(f: Fields)
    ensures Busy(MaybeWrite(f).fields)
  {
  }

  lemma SectionsStayBusy(f: Fields)
    requires Busy(f)
    ensures Busy(StopSection(f).fields) && Busy(ReadClosedSection(f).fields)
    ensures Busy(DoneSection(f)) && Busy(FinishSection(f))
  {
  }

  lemma SendStaysBusy(f: Fields, r: Request, remember: bool)
    requires Busy(f)
    ensures Busy(SendSection(f, r, remember).fields)
  {
    hide Update, MaybeWrite;
    var g := if remember then f.(subs := Update(f.subs, r)) else f;
    MaybeWriteIsBusy(g.(queue := g.queue + [r]));
  }

  lemma PublishStaysBusy(f: Fields, c: ConnId)
    requires Busy(f)
    ensures Busy(PublishSection(f, c).fields)
  {
    hide MaybeWrite;
    MaybeWriteIsBusy(f.(reactor := Some(c)));
  }

  lemma CallbackStaysBusy(s: State, l: Label)
    requires Enabled(s, l) && IsCallback(l) && Busy(s.f)
    ensures Busy(Step(s, l).f)
  {
    hide Perform, Step, Busy;
    CallbackStepIs(s, l);
    SectionStaysBusy(s.f, l);
    hide SectionOf, CalledBack;
    PerformFrame(CalledBack(s, l), SectionOf(s.f, l));
  }

  lemma SectionStaysBusy(f: Fields, l: Label)
    requires IsCallback(l) && Busy(f)
    ensures Busy(SectionOf(f, l).fields)
  {
    SectionsStayBusy(f);
    MaybeWriteIsBusy(f.(writeInFlight := false));
    assert Busy(DataSection(f));
    SectionCases(f, l);
    hide SectionOf, ReadClosedSection, DoneSection, MaybeWrite, DataSection, Busy;
  }

  lemma StepStaysBusy(s: State, l: Label)
    requires Inv(s) && Enabled(s, l) && Busy(s.f)
    ensures Busy(Step(s, l).f)
  {
    hide Perform, Update, SendSection, PublishSection;
    if IsCallback(l) { CallbackStaysBusy(s, l); }
    else if l.Stop? {
      SectionsStayBusy(s.f);
      PerformFrame(s.(moved := s.moved || s.f.joinable), StopSection(s.f));
    } else if l.Send? {
      SendStaysBusy(s.f, l.r, l.remember);
      PerformFrame(Journal(s, l.r, l.remember), SendSection(s.f, l.r, l.remember));
    } else if l.Publish? {
      PublishStaysBusy(s.f, s.pc.c);
      PerformFrame(s.(pc := Waiting(s.pc.c)), PublishSection(s.f, s.pc.c));
    } else { hide CallbackStep, IssueRemoveHold, Delay, Replay, Enumerates; }
  }

  lemma {:induction false} RunStaysBusy(s: State, run: seq<Label>)
    requires Inv(s) && Busy(s.f) && IsRun(s, run)
    ensures Busy(After(s, run).f)
    decreases |run|
  {
    hide Inv, Enabled, Step, Busy;
    if run != [] {
      StepKeepsInv(s, run[0]);
      StepStaysBusy(s, run[0]);
      RunStaysBusy(Step(s, run[0]), run[1..]);
    }
  }

  lemma BusyMeansWriting(s: State)
    requires Inv(s) && Busy(s.f)
    ensures s.f.reactor.Some? && !s.f.broken && !s.f.holdReleased && s.f.queue != [] ==>
      s.f.reactor.value < |s.conns| && s.conns[s.f.reactor.value].write.Some?
  {
  }

  /**
   * In every run a published, unbroken connection with requests queued has a write outstanding: nothing queued is
   * left lying, neither the replay nor a later send.
   */
  lemma QueueIsBeingWritten(cfg: Config, run: seq<Label>)
    requires IsRun(Init(cfg), run)
    ensures var s := After(Init(cfg), run);
      s.f.reactor.Some? && !s.f.broken && !s.f.holdReleased && s.f.queue != [] ==>
        s.f.writeInFlight && s.f.reactor.value < |s.conns| && s.conns[s.f.reactor.value].write.Some?
  {
    hide Inv, Enabled, Step, IsRun, After;
    InitInv(cfg);
    RunKeepsInv(Init(cfg), run);
    RunStaysBusy(Init(cfg), run);
    BusyMeansWriting(After(Init(cfg), run));
  }

  /** A write that completes starts the next: the oldest queued request goes out, or the connection is idle. */
  lemma WriteOkSendsNext(s: State, c: ConnId)
    requires Inv(s) && s.pc == Waiting(c) && !s.f.broken && Enabled(s, WriteOk(c))
    ensures var t, q := Step(s, WriteOk(c)), s.f.queue;
      && c < |t.conns|
      && t.conns[c].sent == s.conns[c].sent + (if q == [] then [] else [q[0]])
      && t.conns[c].write == (if q == [] then None else Some(q[0]))
      && t.f.queue == (if q == [] then [] else q[1..])
  {
    hide Step;
    WriteOkSplits(s, WriteOk(c));
  }
}
