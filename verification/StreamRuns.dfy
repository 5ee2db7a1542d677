/** What a run tells its user: the order of state notifications, and how long each break waits. */
module StreamRuns {
  import opened Basics
  import opened Stories
  import opened Requests
  import opened Registry
  import opened StreamCore
  import opened StreamProtocol

  // ---- notifications ------------------------------------------------------------------------

  /** What has been told so far, by where the worker is and what the read callback still has to say. */
  predicate Told(s: State) {
    match s.pc
    case Idle => s.events == [] || Complete(s.events)
    case Exited => Complete(s.events)
    case LoopTop => Rounds(s.events)
    case AnnounceConnecting => Rounds(s.events)
    case BackingOff => Rounds(s.events)
    case Opening => EndsWith(s.events, [Connecting])
    case Binding(_) => !s.f.gotData && EndsWith(s.events, [Connecting])
    case Beginning(_) => !s.f.gotData && EndsWith(s.events, [Connecting])
    case Publishing(c) => c < |s.conns| && ToldOpen(s, s.conns[c].read)
    case Waiting(c) => c < |s.conns| && ToldOpen(s, s.conns[c].read)
    case AfterRun => Trying(s.events) && (s.f.stopping || ToldClosed(s))
    case AnnounceDisconnected => ToldClosed(s)
    case AnnounceStopped => Rounds(s.events) || Trying(s.events)
  }

  predicate ToldOpen(s: State, read: ReadPc) {
    && (read.AnnounceFirst? ==> s.f.gotData)
    && EndsWith(s.events, if s.f.gotData && !read.AnnounceFirst? then [Connecting, Connected] else [Connecting])
  }

  /** The connection that has ended was told as connected exactly if it carried data. */
  predicate ToldClosed(s: State) {
    EndsWith(s.events, if s.f.gotData then [Connecting, Connected] else [Connecting])
  }

  lemma EmissionTells(s: State, l: Label)
    requires Told(s) && Enabled(s, l) && (l.EmitConnecting? || l.EmitDisconnected? || l.EmitStopped?)
    ensures Told(Step(s, l))
  {
    hide Rounds, EndsWith, Complete, Perform, CallbackStep, IssueRemoveHold, Delay;
    if l.EmitConnecting? { ExtendRounds(s.events, Connecting); }
    else if l.EmitDisconnected? { BreakEndsRound(s.events); }
    else { StopCompletes(s.events); }
  }

  lemma WorkerTells(s: State, l: Label)
    requires Inv(s) && Told(s) && Enabled(s, l)
    requires !IsCallback(l) && !l.Stop? && !l.Send? && !l.Publish? && !l.RemoveHold?
    requires !l.EmitConnecting? && !l.EmitDisconnected? && !l.EmitStopped?
    ensures Told(Step(s, l))
  {
    hide Rounds, EndsWith, Perform, CallbackStep, IssueRemoveHold;
    NothingToldYet();
  }

  lemma CallbackTells(s: State, l: Label)
    requires Inv(s) && Told(s) && Enabled(s, l) && IsCallback(l)
    ensures Told(Step(s, l))
  {
    hide Rounds, EndsWith, Step, Perform;
    CallbackIsCurrent(s, l);
    CallbackStepIs(s, l);
    PerformFrame(CalledBack(s, l), SectionOf(s.f, l));
    assert SameCall(CalledBack(s, l).conns[l.c], Step(s, l).conns[l.c]);
    if l.EmitConnected? {
      Extend(s.events, [Connecting], Connected);
      assert [Connecting] + [Connected] == [Connecting, Connected];
    }
  }

  lemma RemoveHoldTells(s: State, l: Label)
    requires Inv(s) && Told(s) && Enabled(s, l) && l.RemoveHold?
    ensures Told(Step(s, l))
  {
    hide Rounds, EndsWith;
  }

  /** Carrying out a section's decisions neither notifies nor moves the read side. */
  lemma PerformTells(s: State, o: Outcome)
    requires Told(s) && o.fields.gotData == s.f.gotData && (s.f.stopping ==> o.fields.stopping)
    ensures Told(Perform(s, o))
  {
    hide Rounds, EndsWith, Perform;
    PerformFrame(s, o);
    if s.pc.Publishing? || s.pc.Waiting? {
      assert SameCall(s.conns[s.pc.c], Perform(s, o).conns[s.pc.c]);
    }
  }

  lemma JournalTells(s: State, r: Request, remember: bool)
    requires Told(s)
    ensures Told(Journal(s, r, remember))
  {
    hide Rounds, EndsWith;
  }

  lemma SilentTells(s: State, l: Label)
    requires Inv(s) && Told(s) && Enabled(s, l) && (l.Stop? || l.Send? || l.Publish?)
    ensures Told(Step(s, l))
  {
    hide Told, Update, Perform;
    if l.Stop? {
      assert Told(s.(moved := s.moved || s.f.joinable)) by { MovedTells(s); }
      PerformTells(s.(moved := s.moved || s.f.joinable), StopSection(s.f));
    } else if l.Send? {
      JournalTells(s, l.r, l.remember);
      PerformTells(Journal(s, l.r, l.remember), SendSection(s.f, l.r, l.remember));
    } else {
      PublishTells(s);
      PerformTells(s.(pc := Waiting(s.pc.c)), PublishSection(s.f, s.pc.c));
    }
  }

  lemma MovedTells(s: State)
    requires Told(s)
    ensures Told(s.(moved := s.moved || s.f.joinable))
  {
  }

  lemma PublishTells(s: State)
    requires Told(s) && s.pc.Publishing?
    ensures Told(s.(pc := Waiting(s.pc.c)))
  {
  }

  lemma StepTells(s: State, l: Label)
    requires Inv(s) && Told(s) && Enabled(s, l)
    ensures Told(Step(s, l))
  {
    hide Inv, Told, Enabled, Step;
    if IsCallback(l) { CallbackTells(s, l); }
    else if l.RemoveHold? { RemoveHoldTells(s, l); }
    else if l.Stop? || l.Send? || l.Publish? { SilentTells(s, l); }
    else if Emits(l) { EmissionTells(s, l); }
    else { WorkerTells(s, l); }
  }

  lemma {:induction false} RunTells(s: State, run: seq<Label>)
    requires Inv(s) && Told(s) && IsRun(s, run)
    ensures Told(After(s, run))
    decreases |run|
  {
    hide Inv, Told, Enabled, Step;
    if run != [] {
      StepKeepsInv(s, run[0]);
      StepTells(s, run[0]);
      RunTells(Step(s, run[0]), run[1..]);
    }
  }

  /** Once the worker has exited, the notifications since its start form one complete story. */
  lemma ExitedStoryIsComplete(cfg: Config, run: seq<Label>)
    requires IsRun(Init(cfg), run) && After(Init(cfg), run).pc.Exited?
    ensures Complete(After(Init(cfg), run).events)
  {
    hide Step, Enabled;
    InitInv(cfg);
    RunTells(Init(cfg), run);
  }

  // ---- breaks ----------------------------------------------------------------------------------

  predicate Emits(l: Label) {
    l.EmitConnecting? || l.EmitConnected? || l.EmitDisconnected? || l.EmitStopped?
  }

  function Emitted(l: Label): Event
    requires Emits(l)
  {
    match l
    case EmitConnecting => Connecting
    case EmitConnected(_) => Connected
    case EmitDisconnected => Disconnected
    case EmitStopped => Stopped
  }

  lemma StepEvents(s: State, l: Label)
    requires Enabled(s, l) && !(l.Start? && !s.f.joinable)
    ensures Step(s, l).events == if Emits(l) then s.events + [Emitted(l)] else s.events
    ensures Step(s, l).breaks == if l.EmitDisconnected? then s.breaks + [s.f.gotData] else s.breaks
  {
    hide Update, Perform;
    if IsCallback(l) {
      CallbackStepIs(s, l);
      hide Step, CallAfter, SectionOf;
      PerformFrame(CalledBack(s, l), SectionOf(s.f, l));
    }
    else if l.Stop? { PerformFrame(s.(moved := s.moved || s.f.joinable), StopSection(s.f)); }
    else if l.Send? { PerformFrame(Journal(s, l.r, l.remember), SendSection(s.f, l.r, l.remember)); }
    else if l.Publish? { PerformFrame(s.(pc := Waiting(s.pc.c)), PublishSection(s.f, s.pc.c)); }
  }

  lemma LastTold(s: State)
    requires ToldClosed(s)
    ensures s.events != [] && s.events[|s.events| - 1].Connected? == s.f.gotData
  {
    hide Rounds;
    var n := |s.events|;
    if s.f.gotData { assert s.events[n - 2..][1] == Connected; } else { assert s.events[n - 1..][0] == Connecting; }
  }

  lemma StepTallies(s: State, l: Label)
    requires Told(s) && Enabled(s, l) && s.breaks == Carried(s.events)
    ensures Step(s, l).breaks == Carried(Step(s, l).events)
  {
    hide Step, Carried, ToldClosed;
    if l.Start? && !s.f.joinable {
      StartForgets(s);
    } else {
      StepEvents(s, l);
      if l.EmitDisconnected? { LastTold(s); }
      if Emits(l) { CarriedAppend(s.events, Emitted(l)); }
    }
  }

  lemma StartForgets(s: State)
    requires Enabled(s, Start) && !s.f.joinable
    ensures Step(s, Start).breaks == [] && Carried(Step(s, Start).events) == []
  {
  }

  lemma {:induction false} RunTallies(s: State, run: seq<Label>)
    requires Inv(s) && Told(s) && IsRun(s, run) && s.breaks == Carried(s.events)
    ensures After(s, run).breaks == Carried(After(s, run).events)
    decreases |run|
  {
    hide Inv, Told, Enabled, Step, Carried;
    if run != [] {
      StepKeepsInv(s, run[0]);
      StepTells(s, run[0]);
      StepTallies(s, run[0]);
      RunTallies(Step(s, run[0]), run[1..]);
    }
  }

  // ---- backoff ---------------------------------------------------------------------------------

  ghost predicate Paced(s: State) {
    if s.cfg.reconnect then PacedBy(s.cfg, s.breaks, s.waits, s.attempt) else s.waits == []
  }

  /** The break just told: what it appends, and the wait it asks for. */
  lemma BreakAppends(s: State)
    requires Enabled(s, EmitDisconnected) && s.cfg.reconnect
    ensures var t, e := Step(s, EmitDisconnected), if s.f.gotData then 0 else s.attempt;
      && t.cfg == s.cfg && t.breaks == s.breaks + [s.f.gotData]
      && t.waits == s.waits + [Delay(s.cfg, e)] && t.attempt == e + 1
  {
    hide Delay;
  }

  lemma BreakIsPaced(s: State)
    requires Paced(s) && Enabled(s, EmitDisconnected)
    ensures Paced(Step(s, EmitDisconnected))
  {
    hide Delay, PacedBy;
    if s.cfg.reconnect {
      BreakAppends(s);
      BreakPaces(s.cfg, s.breaks, s.waits, s.attempt, s.f.gotData);
    }
  }

  predicate SamePace(s: State, t: State) {
    t.cfg == s.cfg && t.waits == s.waits && t.breaks == s.breaks && t.attempt == s.attempt
  }

  lemma OtherStepsKeepPace(s: State, l: Label)
    requires Enabled(s, l) && !l.EmitDisconnected? && !l.Start?
    ensures SamePace(s, Step(s, l))
  {
    hide Update, Perform;
    if IsCallback(l) {
      CallbackStepIs(s, l);
      hide Step, CallAfter, SectionOf;
      PerformFrame(CalledBack(s, l), SectionOf(s.f, l));
    }
    else if l.Stop? { PerformFrame(s.(moved := s.moved || s.f.joinable), StopSection(s.f)); }
    else if l.Send? { PerformFrame(Journal(s, l.r, l.remember), SendSection(s.f, l.r, l.remember)); }
    else if l.Publish? { PerformFrame(s.(pc := Waiting(s.pc.c)), PublishSection(s.f, s.pc.c)); }
  }

  lemma StepIsPaced(s: State, l: Label)
    requires Paced(s) && Enabled(s, l)
    ensures Paced(Step(s, l))
  {
    hide Delay;
    if l.EmitDisconnected? { BreakIsPaced(s); }
    else if !l.Start? { OtherStepsKeepPace(s, l); }
  }

  lemma {:induction false} RunIsPaced(s: State, run: seq<Label>)
    requires Paced(s) && IsRun(s, run)
    ensures Paced(After(s, run)) && After(s, run).cfg == s.cfg
    decreases |run|
  {
    hide Paced, Enabled, Step;
    if run != [] {
      StepIsPaced(s, run[0]);
      ConfigIsFixed(s, run[0]);
      RunIsPaced(Step(s, run[0]), run[1..]);
    }
  }

  lemma ConfigIsFixed(s: State, l: Label)
    requires Enabled(s, l)
    ensures Step(s, l).cfg == s.cfg
  {
    if !l.EmitDisconnected? && !l.Start? { OtherStepsKeepPace(s, l); }
  }

  /**
   * In every run the k-th break told waits the initial backoff doubled once per connection since the latest
   * one told as connected (or since the first), at most eight times, and never above the cap.
   */
  lemma BackoffFollowsHealth(cfg: Config, run: seq<Label>, k: nat)
    requires IsRun(Init(cfg), run) && k < |After(Init(cfg), run).waits|
    ensures var s := After(Init(cfg), run);
      var carried := Carried(s.events);
      k < |carried| &&
      var e := k - Healthy(carried, k);
      var d := cfg.initialBackoff * Pow2(if e < 8 then e else 8);
      s.waits[k] == if d > cfg.maxBackoff then cfg.maxBackoff else d
  {
    hide Step, Enabled;
    InitInv(cfg);
    RunIsPaced(Init(cfg), run);
    RunTallies(Init(cfg), run);
  }
}
