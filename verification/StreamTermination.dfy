/** Stopping always finishes: once `stopping_` is set, every own step brings the worker closer to its end. */
module StreamTermination {
  import opened Basics
  import opened Stories
  import opened Requests
  import opened StreamCore
  import opened StreamProtocol
  import opened StreamRuns

  /** Steps the program and gRPC take by themselves; the rest are calls by the user. */
  predicate Internal(l: Label) {
    !l.Start? && !l.Stop? && !l.Send?
  }

  function PcRank(pc: Pc): nat {
    match pc
    case Idle => 0
    case Exited => 1
    case AnnounceStopped => 2
    case LoopTop => 3
    case AfterRun => 3
    case BackingOff => 3
    case AnnounceDisconnected => 4
    case Opening => 4
    case AnnounceConnecting => 5
    case Waiting(_) => 4
    case Publishing(_) => 5
    case Beginning(_) => 6
    case Binding(_) => 7
  }

  function ReadRank(r: ReadPc): nat {
    match r
    case NotReading => 8
    case AnnounceFirst => 7
    case Dispatching => 6
    case Reading => 5
    case Closing => 2
    case Closed => 0
  }

  function ConnRank(k: Conn): nat {
    ReadRank(k.read) + (if k.write.Some? then 3 else 0) + k.tails + (if k.finished then 0 else 1)
  }

  function Rank(s: State): nat {
    10 * PcRank(s.pc) + |s.pending| + if s.conns == [] then 0 else ConnRank(s.conns[|s.conns| - 1])
  }

  /** While stopping, the open context is cancelled and a published reactor's hold has been claimed. */
  lemma StoppingCancelsAndClaims(cfg: Config, run: seq<Label>)
    requires IsRun(Init(cfg), run)
    ensures var s := After(Init(cfg), run);
      s.f.stopping && s.f.ctx.Some? ==>
        && s.f.ctx.value < |s.conns| && s.conns[s.f.ctx.value].cancelled
        && (s.f.reactor.Some? ==> s.f.holdReleased)
  {
    InitInv(cfg);
    RunKeepsInv(Init(cfg), run);
  }

  lemma CallbackDescends(s: State, l: Label)
    requires Inv(s) && s.f.stopping && Enabled(s, l) && IsCallback(l)
    ensures Rank(Step(s, l)) < Rank(s) && Step(s, l).f.stopping
  {
    CallbackIsCurrent(s, l);
    CallbackStepIs(s, l);
    hide Step, Perform;
    var k := s.conns[l.c];
    assert l.c == |s.conns| - 1 && s.f.broken;
    assert SectionOf(s.f, l).write.None?;
  }

  lemma PublishDescends(s: State)
    requires Inv(s) && s.f.stopping && Enabled(s, Publish)
    ensures Rank(Step(s, Publish)) < Rank(s) && Step(s, Publish).f.stopping
  {
    assert PublishSection(s.f, s.pc.c).write.None?;
  }

  lemma RemoveHoldDescends(s: State, l: Label)
    requires Inv(s) && s.f.stopping && Enabled(s, l) && l.RemoveHold?
    ensures Rank(Step(s, l)) < Rank(s) && Step(s, l).f.stopping
  {
  }

  /** The worker's steps on its connection. */
  predicate OnConnection(l: Label) {
    l.Bind? || l.Begin? || l.WaitDone?
  }

  lemma ConnectionStepDescends(s: State, l: Label)
    requires Inv(s) && s.f.stopping && Enabled(s, l) && OnConnection(l)
    ensures Rank(Step(s, l)) < Rank(s) && Step(s, l).f.stopping
  {
    hide Perform, IssueRemoveHold, CallbackStep, Published, Unpublished, AllPast, Delay;
  }

  lemma WorkerDescends(s: State, l: Label)
    requires s.f.stopping && Enabled(s, l) && Internal(l) && !IsCallback(l)
    requires !l.Publish? && !l.RemoveHold? && !OnConnection(l)
    ensures Rank(Step(s, l)) < Rank(s) && Step(s, l).f.stopping
  {
    hide Perform, IssueRemoveHold, CallbackStep, ConnRank, Delay;
  }

  /** The user's calls cannot undo progress: `stop` and `send` do not raise the rank, `start` waits for the end. */
  lemma CallsDoNotDelay(s: State, l: Label)
    requires Inv(s) && s.f.stopping && Enabled(s, l) && !Internal(l)
    ensures l.Start? ==> s.pc.Idle?
    ensures !l.Start? ==> Rank(Step(s, l)) <= Rank(s) && Step(s, l).f.stopping
  {
  }

  /** While stopping, until the worker is joined, some own step is enabled. */
  lemma SomeStepEnabled(s: State) returns (l: Label)
    requires Inv(s) && s.f.stopping && !s.pc.Idle?
    ensures Internal(l) && Enabled(s, l)
  {
    match s.pc {
      case LoopTop => l := LoopCheck;
      case AnnounceConnecting => l := EmitConnecting;
      case Opening => l := RefuseOpen;
      case Binding(_) => l := Bind;
      case Beginning(_) => l := Begin;
      case Publishing(_) => l := Publish;
      case AfterRun => l := CheckAfterRun;
      case AnnounceDisconnected => l := EmitDisconnected;
      case BackingOff => l := Wake;
      case AnnounceStopped => l := EmitStopped;
      case Exited => l := Join;
      case Waiting(c) => l := WaitingStep(s, c);
    }
  }

  lemma WaitingStep(s: State, c: ConnId) returns (l: Label)
    requires Inv(s) && s.f.stopping && s.pc == Waiting(c)
    ensures Internal(l) && Enabled(s, l)
  {
    var k := s.conns[c];
    if k.finished { l := WaitDone; }
    else if s.pending != [] { l := RemoveHold(0); }
    else if k.write.Some? { l := WriteFail(c); }
    else if k.tails > 0 { l := WriteReturn(c); }
    else {
      match k.read {
        case Reading => l := ReadFail(c);
        case AnnounceFirst => l := EmitConnected(c);
        case Dispatching => l := NextRead(c);
        case Closing => l := ReadReturn(c);
        case Closed => l := OnDone(c);
      }
    }
  }

  function OwnSteps(run: seq<Label>): nat {
    if run == [] then 0 else (if Internal(run[0]) then 1 else 0) + OwnSteps(run[1..])
  }

  lemma {:induction false} RankBoundsOwnSteps(s: State, run: seq<Label>)
    requires Inv(s) && s.f.stopping && IsRun(s, run)
    requires forall i :: 0 <= i < |run| ==> !run[i].Start?
    ensures Rank(After(s, run)) + OwnSteps(run) <= Rank(s)
    ensures Inv(After(s, run)) && After(s, run).f.stopping
    decreases |run|
  {
    hide Inv, Enabled, Step, Rank;
    if run != [] {
      var l := run[0];
      StepKeepsInv(s, l);
      if !Internal(l) { CallsDoNotDelay(s, l); }
      else if IsCallback(l) { CallbackDescends(s, l); }
      else if l.Publish? { PublishDescends(s); }
      else if l.RemoveHold? { RemoveHoldDescends(s, l); }
      else if OnConnection(l) { ConnectionStepDescends(s, l); }
      else { WorkerDescends(s, l); }
      RankBoundsOwnSteps(Step(s, l), run[1..]);
    }
  }

  // ---- and the end is announced ------------------------------------------------------------------

  predicate EndAnnounced(s: State) {
    s.pc.Idle? ==> Complete(s.events)
  }

  lemma BecomesIdle(s: State, l: Label)
    requires Inv(s) && Enabled(s, l) && !l.Start? && Step(s, l).pc.Idle?
    ensures s.pc.Exited? || s.pc.Idle?
    ensures Step(s, l).events == s.events
  {
    hide Perform;
    if l.Stop? { PerformFrame(s.(moved := s.moved || s.f.joinable), StopSection(s.f)); }
    if l.Send? { PerformFrame(Journal(s, l.r, l.remember), SendSection(s.f, l.r, l.remember)); }
    if l.Publish? { PerformFrame(s.(pc := Waiting(s.pc.c)), PublishSection(s.f, s.pc.c)); }
    if IsCallback(l) { CallbackStaysOpen(s, l); }
  }

  lemma CallbackStaysOpen(s: State, l: Label)
    requires Inv(s) && Enabled(s, l) && IsCallback(l)
    ensures !Step(s, l).pc.Idle?
  {
    hide Step, Perform;
    CallbackIsCurrent(s, l);
    CallbackStepIs(s, l);
    PerformFrame(CalledBack(s, l), SectionOf(s.f, l));
  }

  lemma {:induction false} RunAnnouncesEnd(s: State, run: seq<Label>)
    requires Inv(s) && Told(s) && EndAnnounced(s) && IsRun(s, run)
    requires forall i :: 0 <= i < |run| ==> !run[i].Start?
    ensures EndAnnounced(After(s, run))
    decreases |run|
  {
    hide Inv, Enabled, Step, Complete;
    if run != [] {
      var l := run[0];
      StepKeepsInv(s, l);
      StepTells(s, l);
      if Step(s, l).pc.Idle? { BecomesIdle(s, l); }
      RunAnnouncesEnd(Step(s, l), run[1..]);
    }
  }

  /**
   * Stopping always finishes. From any reachable state with `stopping_` set and the worker not yet joined,
   * and whatever further stop and send calls come: the program and gRPC take at most `Rank` more steps; as
   * long as the worker has not been joined a step is available; and when it has been joined, `stopped` has
   * been announced as the last notification. So every run that takes available steps ends that way.
   */
  lemma StopAlwaysFinishes(cfg: Config, before: seq<Label>, run: seq<Label>)
    requires IsRun(Init(cfg), before)
    requires After(Init(cfg), before).f.stopping && !After(Init(cfg), before).pc.Idle?
    requires IsRun(After(Init(cfg), before), run) && forall i :: 0 <= i < |run| ==> !run[i].Start?
    ensures OwnSteps(run) <= Rank(After(Init(cfg), before))
    ensures var s := After(After(Init(cfg), before), run);
      if s.pc.Idle? then Complete(s.events) else exists l :: Internal(l) && Enabled(s, l)
  {
    hide Enabled, Step, Rank, Complete;
    InitInv(cfg);
    RunKeepsInv(Init(cfg), before);
    RunTells(Init(cfg), before);
    RankBoundsOwnSteps(After(Init(cfg), before), run);
    RunAnnouncesEnd(After(Init(cfg), before), run);
    var s := After(After(Init(cfg), before), run);
    if !s.pc.Idle? {
      var l := SomeStepEnabled(s);
    }
  }
}
