/** What holds in every reachable state of the stream: reactor lifetime, hold release, and the write order. */
module StreamSafety {
  import opened Basics
  import opened Stories
  import opened Requests
  import opened Registry
  import opened StreamCore
  import opened StreamProtocol

  // ---- reactor lifetime and hold release --------------------------------------------------

  /**
   * No run ever uses a reactor illegally: every RemoveHold, StartWrite, TryCancel and callback meets a live
   * reactor in the state gRPC demands, and no write starts while another is outstanding.
   */
  lemma NeverFaults(cfg: Config, run: seq<Label>)
    requires IsRun(Init(cfg), run)
    ensures !After(Init(cfg), run).fault
  {
    InitInv(cfg);
    RunKeepsInv(Init(cfg), run);
  }

  /**
   * Over any number of reconnects each connection's hold is removed at most once, exactly once when OnDone
   * has come, and never after it; `done_` implies `hold_released_`.
   */
  lemma HoldRemovedExactlyOnce(cfg: Config, run: seq<Label>)
    requires IsRun(Init(cfg), run)
    ensures HoldsOnce(After(Init(cfg), run))
  {
    hide Inv, Step, Enabled, HoldsOnce, IsRun, After;
    InitInv(cfg);
    RunKeepsInv(Init(cfg), run);
    InvHoldsOnce(After(Init(cfg), run));
  }

  predicate HeldOnce(k: Conn) {
    && k.removes <= 1
    && (k.removes == 1 ==> k.holds == 0)
    && (k.finished ==> k.removes == 1)
    && (!k.alive ==> k.finished)
  }

  predicate HoldsOnce(s: State) {
    && (forall c :: 0 <= c < |s.conns| ==> HeldOnce(s.conns[c]))
    && (s.f.done ==> s.f.holdReleased)
  }

  lemma InvHoldsOnce(s: State)
    requires Inv(s)
    ensures HoldsOnce(s)
  {
    hide HeldOnce, Past;
    forall c | 0 <= c < |s.conns| ensures HeldOnce(s.conns[c]) {
      if Past(s.conns[c]) { PastHeldOnce(s.conns[c]); } else { OpenHeldOnce(s, c); }
    }
  }

  lemma PastHeldOnce(k: Conn)
    requires Past(k)
    ensures HeldOnce(k)
  {
  }

  lemma OpenHeldOnce(s: State, c: ConnId)
    requires Inv(s) && c < |s.conns| && !Past(s.conns[c])
    ensures HeldOnce(s.conns[c])
  {
  }

  /** What the state points at is alive. */
  predicate PointersLive(s: State) {
    && (s.f.ctx.Some? ==> s.f.ctx.value + 1 == |s.conns| && s.conns[s.f.ctx.value].alive)
    && (s.f.reactor.Some? ==> s.f.ctx == s.f.reactor && s.f.ctx.Some? && Started(s.conns[s.f.ctx.value]))
    && |s.pending| <= 1
    && (s.pending != [] ==> s.f.holdReleased && s.f.reactor == Some(s.pending[0]))
    && (forall c :: 0 <= c < |s.conns| && s.conns[c].alive ==> s.f.ctx == Some(c))
  }

  lemma LiveWhileOpen(s: State, c: ConnId)
    requires IsOpen(s, c) && (Published(s, c) || (Unpublished(s, s.conns[c])))
    ensures PointersLive(s)
  {
  }

  lemma LiveAtRest(s: State)
    requires AtRest(s)
    ensures PointersLive(s)
  {
  }

  lemma InvPointersLive(s: State)
    requires Inv(s)
    ensures PointersLive(s)
  {
    hide PointersLive, Published, Unpublished, AtRest, IsOpen;
    match s.pc {
      case Binding(c) => LiveWhileOpen(s, c);
      case Beginning(c) => LiveWhileOpen(s, c);
      case Publishing(c) => LiveWhileOpen(s, c);
      case Waiting(c) => LiveWhileOpen(s, c);
      case _ => LiveAtRest(s);
    }
  }

  /** `reactor_`, `ctx_` and every claimed release point at a live connection, and only one is ever open. */
  lemma PointersNeverDangle(cfg: Config, run: seq<Label>)
    requires IsRun(Init(cfg), run)
    ensures PointersLive(After(Init(cfg), run))
  {
    hide Inv, Step, Enabled, PointersLive, IsRun, After;
    InitInv(cfg);
    RunKeepsInv(Init(cfg), run);
    InvPointersLive(After(Init(cfg), run));
  }

  /**
   * When the worker ends a connection nothing refers to it any more: the call is done, its hold was removed
   * exactly once, no release is pending, and neither `reactor_` nor, from then on, `ctx_` points at it.
   */
  lemma FinishedConnectionIsUnreferenced(cfg: Config, run: seq<Label>)
    requires IsRun(Init(cfg), run) && Enabled(After(Init(cfg), run), WaitDone)
    ensures var s := After(Init(cfg), run);
      var t := Step(s, WaitDone);
      && t.f == FinishSection(s.f) && t.f.ctx.None? && t.f.reactor.None? && t.pending == []
      && s.conns[s.pc.c].finished && s.conns[s.pc.c].removes == 1 && s.conns[s.pc.c].write.None?
      && (forall c :: 0 <= c < |t.conns| ==> !t.conns[c].alive)
  {
    hide IsRun, After;
    InitInv(cfg);
    RunKeepsInv(Init(cfg), run);
  }

  predicate Started(k: Conn) {
    k.alive && k.bound && k.started && !k.finished
  }

  // ---- write order ---------------------------------------------------------------------------

  /** The requests of a journal that were queued for writing. */
  function Accepted(journal: seq<Sent>): seq<Request> {
    if journal == [] then []
    else
      var e := journal[|journal| - 1];
      Accepted(journal[..|journal| - 1]) + if e.queued then [e.request] else []
  }

  function Due(k: Conn): seq<Request> {
    k.snapshot + Accepted(k.journal)
  }

  ghost predicate Fifo(s: State) {
    && (forall c :: 0 <= c < |s.conns| ==> s.conns[c].sent <= Due(s.conns[c]))
    && (s.f.ctx.Some? && s.f.ctx.value < |s.conns| ==>
          var k := s.conns[s.f.ctx.value]; k.sent + s.f.queue == Due(k))
  }

  lemma AcceptedAppend(journal: seq<Sent>, e: Sent)
    ensures Accepted(journal + [e]) == Accepted(journal) + if e.queued then [e.request] else []
  {
  }

  /** The parts of a connection that the write order is about. */
  function Writes(k: Conn): (seq<Request>, seq<Request>, seq<Sent>) {
    (k.sent, k.snapshot, k.journal)
  }

  /** Nothing that the write order is about changed, except that the context may have been cleared. */
  predicate SameWrites(s: State, t: State) {
    && |t.conns| == |s.conns| && t.f.queue == s.f.queue
    && (t.f.ctx == s.f.ctx || t.f.ctx.None?)
    && forall c :: 0 <= c < |s.conns| ==> Writes(t.conns[c]) == Writes(s.conns[c])
  }

  lemma FrameFifo(s: State, t: State)
    requires Fifo(s) && SameWrites(s, t)
    ensures Fifo(t)
  {
  }

  /** The published reactor, if any, is that of the open connection. */
  predicate Aimed(s: State) {
    s.f.reactor.Some? ==> s.f.ctx == s.f.reactor && s.f.reactor.value < |s.conns|
  }

  lemma InvAimed(s: State)
    requires Inv(s)
    ensures Aimed(s)
  {
  }

  lemma MaybeWriteKeepsFifo(s: State)
    requires Aimed(s) && Fifo(s)
    ensures Fifo(Perform(s, MaybeWrite(s.f)))
  {
    hide Accepted;
    if MayWrite(s.f) {
      var c := s.f.reactor.value;
      var k, q := s.conns[c], s.f.queue;
      var t := Perform(s, MaybeWrite(s.f));
      assert s.f.ctx == Some(c) && t.conns == s.conns[c := k.(write := Some(q[0]), sent := k.sent + [q[0]])];
      assert k.sent + [q[0]] + q[1..] == k.sent + q;
    }
  }

  lemma EnqueueKeepsFifo(s: State, r: Request, remember: bool)
    requires Fifo(s) && !s.f.stopping && Aimed(s)
    ensures Fifo(Enqueue(s, r, remember)) && Aimed(Enqueue(s, r, remember))
  {
    hide Accepted, Update;
    if s.f.ctx.Some? && s.f.ctx.value < |s.conns| {
      var c := s.f.ctx.value;
      var k, e := s.conns[c], Sent(r, remember, Accepts(s.f));
      AcceptedAppend(k.journal, e);
      assert k.sent + (s.f.queue + [r]) == k.sent + s.f.queue + [r];
      assert Due(k.(journal := k.journal + [e])) == Due(k) + if e.queued then [r] else [];
    }
  }

  lemma SendKeepsFifo(s: State, r: Request, remember: bool)
    requires Inv(s) && Fifo(s)
    ensures Fifo(Step(s, Send(r, remember)))
  {
    hide Update, Fifo, Inv, Enqueue, MaybeWrite;
    if !s.f.stopping {
      InvAimed(s);
      EnqueueKeepsFifo(s, r, remember);
      MaybeWriteKeepsFifo(Enqueue(s, r, remember));
      SendSplits(s, r, remember);
    }
  }

  lemma PublishKeepsFifo(s: State)
    requires Inv(s) && Enabled(s, Publish) && Fifo(s)
    ensures Fifo(Step(s, Publish))
  {
    hide Accepted;
    var p := s.(pc := Waiting(s.pc.c), f := s.f.(reactor := Some(s.pc.c)));
    FrameFifo(s, p);
    MaybeWriteKeepsFifo(p);
    FrameFifo(s, s.(pc := p.pc, f := p.f.(holdReleased := true), pending := s.pending + [s.pc.c]));
  }

  /** The state in which a write callback has freed the slot and not yet looked for the next write. */
  function SlotFreed(s: State, c: nat): State
    requires c < |s.conns|
  {
    var k := s.conns[c];
    Callback(s.(f := s.f.(writeInFlight := false)), c, k.(write := None, tails := k.tails + 1))
  }

  lemma WriteOkSplits(s: State, l: Label)
    requires Enabled(s, l) && l.WriteOk?
    ensures Step(s, l) == Perform(SlotFreed(s, l.c), MaybeWrite(SlotFreed(s, l.c).f))
  {
  }

  lemma WriteOkKeepsFifo(s: State, l: Label)
    requires Inv(s) && Enabled(s, l) && l.WriteOk? && Fifo(s)
    ensures Fifo(Step(s, l))
  {
    hide Fifo, Inv, Step;
    InvAimed(s);
    CallbackIsCurrent(s, l);
    FrameFifo(s, SlotFreed(s, l.c));
    MaybeWriteKeepsFifo(SlotFreed(s, l.c));
    WriteOkSplits(s, l);
  }

  lemma CallbackKeepsWrites(k: Conn, f: Fields, l: Label)
    requires IsCallback(l) && !l.WriteOk?
    ensures Writes(CallAfter(k, f, l)) == Writes(k)
    ensures var o := SectionOf(f, l); o.write.None? && o.fields.queue == f.queue && o.fields.ctx == f.ctx
  {
    SectionCases(f, l);
    hide WriteDoneSection, SectionOf, Update;
  }

  lemma CallbackSameWrites(s: State, l: Label)
    requires Enabled(s, l) && IsCallback(l) && !l.WriteOk?
    ensures SameWrites(s, Step(s, l))
  {
    hide Step, Perform;
    CallbackStepIs(s, l);
    hide CallAfter, SectionOf;
    CallbackKeepsWrites(s.conns[l.c], s.f, l);
  }

  lemma StopSameWrites(s: State)
    ensures SameWrites(s, Step(s, Stop))
  {
    var t := Step(s, Stop);
    if s.f.ctx.Some? && s.f.ctx.value < |s.conns| {
      assert t.conns == s.conns[s.f.ctx.value := s.conns[s.f.ctx.value].(cancelled := true)];
    } else {
      assert t.conns == s.conns;
    }
  }

  lemma OtherSameWrites(s: State, l: Label)
    requires Enabled(s, l) && !IsCallback(l) && !l.Send? && !l.Publish? && !l.Open? && !l.Stop?
    ensures SameWrites(s, Step(s, l))
  {
    hide Perform, CallbackStep, Delay, Replay, Enumerates;
  }

  lemma OpenKeepsFifo(s: State, l: Label)
    requires Enabled(s, l) && Fifo(s) && l.Open?
    ensures Fifo(Step(s, l))
  {
  }

  /** Every step keeps the write order. */
  lemma StepKeepsFifo(s: State, l: Label)
    requires Inv(s) && Enabled(s, l) && Fifo(s)
    ensures Fifo(Step(s, l))
  {
    hide Inv, Enabled, Step, Fifo;
    if l.Send? { SendKeepsFifo(s, l.r, l.remember); }
    else if l.Publish? { PublishKeepsFifo(s); }
    else if l.WriteOk? { WriteOkKeepsFifo(s, l); }
    else if l.Open? { OpenKeepsFifo(s, l); }
    else {
      if IsCallback(l) { CallbackSameWrites(s, l); }
      else if l.Stop? { StopSameWrites(s); }
      else { OtherSameWrites(s, l); }
      FrameFifo(s, Step(s, l));
    }
  }

  lemma {:induction false} RunKeepsFifo(s: State, run: seq<Label>)
    requires Inv(s) && Fifo(s) && IsRun(s, run)
    ensures Fifo(After(s, run))
    decreases |run|
  {
    hide Inv, Enabled, Step, Fifo;
    if run != [] {
      StepKeepsInv(s, run[0]);
      StepKeepsFifo(s, run[0]);
      RunKeepsFifo(Step(s, run[0]), run[1..]);
    }
  }

  /**
   * Writes leave in order: on every connection of every run, what has been handed to StartWrite is a prefix
   * of the replayed registry followed by the accepted sends, and on the open one the queue is the rest.
   */
  lemma WritesLeaveInOrder(cfg: Config, run: seq<Label>)
    requires IsRun(Init(cfg), run)
    ensures var s := After(Init(cfg), run);
      && (forall c :: 0 <= c < |s.conns| ==> s.conns[c].sent <= s.conns[c].snapshot + Accepted(s.conns[c].journal))
      && (forall c :: s.f.ctx == Some(c) ==>
            c < |s.conns| && s.conns[c].sent + s.f.queue == s.conns[c].snapshot + Accepted(s.conns[c].journal))
  {
    InitInv(cfg);
    RunKeepsInv(Init(cfg), run);
    RunKeepsFifo(Init(cfg), run);
  }
}
