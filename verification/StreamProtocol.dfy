/**
 * The stream as a step system: one step per critical section of `mu_`, and separate steps for what happens
 * outside the lock (binding and starting the call, each claimed RemoveHold, each notification) and for what
 * gRPC does (reads and writes completing, OnDone).
 *
 * gRPC is an environment with these rules. OnDone comes once, and only when no hold is left, the last read
 * has failed and its callback has returned, and no write or write callback is outstanding. A cancelled call
 * delivers no further message. Using a reactor that was destroyed, was never started, is done or has no hold
 * left is illegal, as is a second write while one is outstanding; an illegal use raises `fault`.
 *
 * A claimed RemoveHold may be issued at any later moment, even after the claiming callback would have had
 * to return: this allows more interleavings than the program has.
 */
module StreamProtocol {
  import opened Basics
  import opened Stories
  import opened Requests
  import opened Registry
  import opened StreamCore

  /** Where the worker thread is, inside `run` and `run_once`. */
  datatype Pc =
    | Idle
    | LoopTop
    | AnnounceConnecting
    | Opening
    | Binding(c: ConnId)
    | Beginning(c: ConnId)
    | Publishing(c: ConnId)
    | Waiting(c: ConnId)
    | AfterRun
    | AnnounceDisconnected
    | BackingOff
    | AnnounceStopped
    | Exited

  /** The read side of a call: a read outstanding, or what its callback still has to do. */
  datatype ReadPc = NotReading | Reading | AnnounceFirst | Dispatching | Closing | Closed

  /** A request handed to `send` while the connection was open. */
  datatype Sent = Sent(request: Request, remembered: bool, queued: bool)

  /** One connection: its reactor object, and the call as gRPC sees it. */
  datatype Conn = Conn(
    alive: bool,               // the reactor object still exists
    bound: bool,
    started: bool,
    holds: nat,
    removes: nat,              // RemoveHold calls made
    read: ReadPc,
    write: Option<Request>,    // the buffer of the outstanding write
    tails: nat,                // write callbacks past their section, not yet returned
    cancelled: bool,
    finished: bool,            // OnDone delivered
    sent: seq<Request>,        // every StartWrite, in order
    snapshot: seq<Request>,    // the registry replayed at open
    journal: seq<Sent>
  )

  datatype State = State(
    cfg: Config,
    f: Fields,
    pc: Pc,
    moved: bool,               // a stop() holds the thread handle and has not joined it
    attempt: nat,
    conns: seq<Conn>,          // every connection ever opened
    pending: seq<ConnId>,      // claimed RemoveHold calls not yet issued
    events: seq<Event>,        // notifications since the latest start
    breaks: seq<bool>,         // per reported break since then: had it carried data?
    waits: seq<int>,           // per backoff since then: its length
    fault: bool
  )

  datatype Label =
    | Start
    | Stop
    | Join
    | Send(r: Request, remember: bool)
    | LoopCheck
    | EmitConnecting
    | Open(order: seq<string>)
    | RefuseOpen
    | Bind
    | Begin
    | Publish
    | WaitDone
    | CheckAfterRun
    | EmitDisconnected
    | Wake
    | EmitStopped
    | RemoveHold(i: nat)
    | ReadOk(c: ConnId)
    | EmitConnected(c: ConnId)
    | NextRead(c: ConnId)
    | ReadFail(c: ConnId)
    | ReadReturn(c: ConnId)
    | WriteOk(c: ConnId)
    | WriteFail(c: ConnId)
    | WriteReturn(c: ConnId)
    | OnDone(c: ConnId)

  function Init(cfg: Config): State {
    State(cfg, InitialFields, Idle, false, 0, [], [], [], [], [], false)
  }

  // ---- transport effects -----------------------------------------------------------

  predicate Usable(k: Conn) {
    k.alive && k.started && !k.finished && k.holds > 0
  }

  function StartWrite(s: State, w: Option<Write>): State {
    match w
    case None => s
    case Some(Write(c, r)) =>
      if c >= |s.conns| then s.(fault := true)
      else
        var k := s.conns[c];
        s.(conns := s.conns[c := k.(write := Some(r), sent := k.sent + [r])],
           fault := s.fault || !Usable(k) || k.write.Some?)
  }

  function Cancel(s: State, target: Option<ConnId>): State {
    match target
    case None => s
    case Some(c) =>
      if c >= |s.conns| then s.(fault := true)
      else s.(conns := s.conns[c := s.conns[c].(cancelled := true)], fault := s.fault || !s.conns[c].alive)
  }

  function Post(s: State, release: Option<ConnId>): State {
    match release
    case None => s
    case Some(c) => s.(pending := s.pending + [c])
  }

  /** Carry out what a section decided. */
  function Perform(s: State, o: Outcome): State {
    Post(StartWrite(Cancel(s.(f := o.fields), o.cancel), o.write), o.release)
  }

  function IssueRemoveHold(s: State, c: ConnId): State {
    if c >= |s.conns| then s.(fault := true)
    else
      var k := s.conns[c];
      s.(conns := s.conns[c := k.(holds := if k.holds > 0 then k.holds - 1 else 0, removes := k.removes + 1)],
         fault := s.fault || !Usable(k))
  }

  function Journal(s: State, r: Request, remember: bool): State {
    if s.f.stopping || s.f.ctx.None? || s.f.ctx.value >= |s.conns| then s
    else
      var c := s.f.ctx.value;
      var k := s.conns[c];
      s.(conns := s.conns[c := k.(journal := k.journal + [Sent(r, remember, Accepts(s.f))])])
  }

  /** An accepted `send` up to its last statement: journal entry made, registry updated, request queued. */
  function Enqueue(s: State, r: Request, remember: bool): State {
    var t := Journal(s, r, remember);
    t.(f := s.f.(subs := if remember then Update(s.f.subs, r) else s.f.subs,
                 queue := if Accepts(s.f) then s.f.queue + [r] else s.f.queue))
  }

  function NewConn(snapshot: seq<Request>): Conn {
    Conn(true, false, false, 0, 0, NotReading, None, 0, false, false, [], snapshot, [])
  }

  // ---- steps --------------------------------------------------------------------------

  ghost predicate Enabled(s: State, l: Label) {
    match l
    case Start => !s.moved
    case Stop => true
    case Join => s.moved && s.pc.Exited?
    case Send(_, _) => true
    case LoopCheck => s.pc.LoopTop?
    case EmitConnecting => s.pc.AnnounceConnecting?
    case Open(order) => s.pc.Opening? && !s.f.stopping && Enumerates(order, s.f.subs)
    case RefuseOpen => s.pc.Opening? && s.f.stopping
    case Bind => s.pc.Binding? && s.pc.c < |s.conns|
    case Begin => s.pc.Beginning? && s.pc.c < |s.conns|
    case Publish => s.pc.Publishing?
    case WaitDone => s.pc.Waiting? && s.pc.c < |s.conns| && s.f.done
    case CheckAfterRun => s.pc.AfterRun?
    case EmitDisconnected => s.pc.AnnounceDisconnected?
    case Wake => s.pc.BackingOff?
    case EmitStopped => s.pc.AnnounceStopped?
    case RemoveHold(i) => i < |s.pending|
    case ReadOk(c) => c < |s.conns| && s.conns[c].read.Reading? && !s.conns[c].cancelled
    case EmitConnected(c) => c < |s.conns| && s.conns[c].read.AnnounceFirst?
    case NextRead(c) => c < |s.conns| && s.conns[c].read.Dispatching?
    case ReadFail(c) => c < |s.conns| && s.conns[c].read.Reading?
    case ReadReturn(c) => c < |s.conns| && s.conns[c].read.Closing?
    case WriteOk(c) => c < |s.conns| && s.conns[c].write.Some?
    case WriteFail(c) => c < |s.conns| && s.conns[c].write.Some?
    case WriteReturn(c) => c < |s.conns| && s.conns[c].tails > 0
    case OnDone(c) => c < |s.conns| && MayFinish(s.conns[c])
  }

  /** gRPC's rule for delivering OnDone. */
  predicate MayFinish(k: Conn) {
    k.started && !k.finished && k.holds == 0 && k.read.Closed? && k.write.None? && k.tails == 0
  }

  /** The steps of reactor callbacks. */
  predicate IsCallback(l: Label) {
    l.ReadOk? || l.EmitConnected? || l.NextRead? || l.ReadFail? || l.ReadReturn? ||
    l.WriteOk? || l.WriteFail? || l.WriteReturn? || l.OnDone?
  }

  /** A callback runs on connection `c`: the reactor object must still exist. */
  function Callback(s: State, c: ConnId, k: Conn): State
    requires c < |s.conns|
  {
    s.(conns := s.conns[c := k], fault := s.fault || !s.conns[c].alive)
  }

  /** The call after a callback step, before its critical section takes effect. */
  function CallAfter(k: Conn, f: Fields, l: Label): Conn
    requires IsCallback(l)
  {
    match l
    case ReadOk(_) => k.(read := if f.gotData then Dispatching else AnnounceFirst)
    case EmitConnected(_) => k.(read := Dispatching)
    case NextRead(_) => k.(read := Reading)
    case ReadFail(_) => k.(read := Closing)
    case ReadReturn(_) => k.(read := Closed)
    case WriteOk(_) => k.(write := None, tails := k.tails + 1)
    case WriteFail(_) => k.(write := None, tails := k.tails + 1)
    case WriteReturn(_) => k.(tails := if k.tails > 0 then k.tails - 1 else 0)
    case OnDone(_) => k.(finished := true)
  }

  /** The critical section of a callback step, if it has one. */
  function SectionOf(f: Fields, l: Label): Outcome
    requires IsCallback(l)
  {
    match l
    case ReadOk(_) => Quiet(DataSection(f))
    case ReadFail(_) => ReadClosedSection(f)
    case WriteOk(_) => WriteDoneSection(f)
    case WriteFail(_) => ReadClosedSection(f)
    case OnDone(_) => Quiet(DoneSection(f))
    case _ => Quiet(f)
  }

  /** The state a callback step leaves before its section's decisions are carried out. */
  function CalledBack(s: State, l: Label): State
    requires IsCallback(l) && l.c < |s.conns|
  {
    var told := if l.EmitConnected? then s.events + [Connected] else s.events;
    Callback(s.(events := told), l.c, CallAfter(s.conns[l.c], s.f, l))
  }

  function CallbackStep(s: State, l: Label): State
    requires IsCallback(l) && l.c < |s.conns|
  {
    Perform(CalledBack(s, l), SectionOf(s.f, l))
  }

  ghost function Step(s: State, l: Label): State
    requires Enabled(s, l)
  {
    match l
    case Start =>
      if s.f.joinable then s
      else s.(f := StartSection(s.f), pc := LoopTop, attempt := 0, events := [], breaks := [], waits := [])
    case Stop => Perform(s.(moved := s.moved || s.f.joinable), StopSection(s.f))
    case Join => s.(moved := false, pc := Idle)
    case Send(r, remember) => Perform(Journal(s, r, remember), SendSection(s.f, r, remember))
    case LoopCheck => s.(pc := if s.f.stopping then AnnounceStopped else AnnounceConnecting)
    case EmitConnecting => s.(events := s.events + [Connecting], pc := Opening)
    case Open(order) =>
      var c, replay := |s.conns|, Replay(s.f.subs, order);
      s.(f := SetupSection(s.f, c, replay), conns := s.conns + [NewConn(replay)], pc := Binding(c))
    case RefuseOpen => s.(pc := AfterRun)
    case Bind =>
      s.(conns := s.conns[s.pc.c := s.conns[s.pc.c].(bound := true)], pc := Beginning(s.pc.c))
    case Begin =>
      var c, k := s.pc.c, s.conns[s.pc.c];
      s.(conns := s.conns[c := k.(started := true, holds := k.holds + 1, read := Reading)],
         pc := Publishing(c), fault := s.fault || !k.bound || !k.alive)
    case Publish => Perform(s.(pc := Waiting(s.pc.c)), PublishSection(s.f, s.pc.c))
    case WaitDone =>
      s.(f := FinishSection(s.f), conns := s.conns[s.pc.c := s.conns[s.pc.c].(alive := false)], pc := AfterRun)
    case CheckAfterRun => s.(pc := if s.f.stopping then AnnounceStopped else AnnounceDisconnected)
    case EmitDisconnected =>
      var attempt := if s.f.gotData then 0 else s.attempt;
      var t := s.(events := s.events + [Disconnected], breaks := s.breaks + [s.f.gotData]);
      if !s.cfg.reconnect then t.(attempt := attempt, pc := AnnounceStopped)
      else t.(waits := s.waits + [Delay(s.cfg, attempt)], attempt := attempt + 1, pc := BackingOff)
    case Wake => s.(pc := if s.f.stopping then AnnounceStopped else LoopTop)
    case EmitStopped => s.(events := s.events + [Stopped], pc := Exited)
    case RemoveHold(i) =>
      IssueRemoveHold(s.(pending := s.pending[..i] + s.pending[i + 1..]), s.pending[i])
    case _ => CallbackStep(s, l)
  }

  // ---- runs ---------------------------------------------------------------------------

  ghost predicate IsRun(s: State, run: seq<Label>)
    decreases |run|
  {
    run == [] || (Enabled(s, run[0]) && IsRun(Step(s, run[0]), run[1..]))
  }

  ghost function After(s: State, run: seq<Label>): State
    requires IsRun(s, run)
    decreases |run|
  {
    if run == [] then s else After(Step(s, run[0]), run[1..])
  }

  // ---- the invariant --------------------------------------------------------------------

  /** A connection that is over: released once, finished, destroyed. */
  predicate Past(k: Conn) {
    && !k.alive && k.bound && k.started && k.finished
    && k.holds == 0 && k.removes == 1
    && k.read.Closed? && k.write.None? && k.tails == 0
  }

  predicate AllPast(conns: seq<Conn>, n: nat)
    requires n <= |conns|
  {
    forall i :: 0 <= i < n ==> Past(conns[i])
  }

  /** No connection is open: nothing points at one and no claim is left. */
  predicate AtRest(s: State) {
    && s.f.ctx.None? && s.f.reactor.None? && s.pending == []
    && AllPast(s.conns, |s.conns|)
  }

  predicate IsOpen(s: State, c: ConnId) {
    && |s.conns| == c + 1 && AllPast(s.conns, c)
    && s.f.ctx == Some(c) && s.conns[c].alive
    && (s.f.stopping ==> s.f.broken && s.conns[c].cancelled)
  }

  /** Opened, reactor not yet published. */
  predicate Unpublished(s: State, k: Conn) {
    && s.f.reactor.None? && s.pending == []
    && !s.f.done && !s.f.holdReleased && !s.f.writeInFlight
    && !k.finished && k.removes == 0 && k.write.None? && k.tails == 0 && k.sent == []
  }

  predicate Published(s: State, c: ConnId)
    requires c < |s.conns|
  {
    var k := s.conns[c];
    && k.bound && k.started && !k.read.NotReading?
    && if k.finished then
         && s.f.done && s.f.reactor.None? && s.pending == [] && s.f.broken && s.f.holdReleased
         && Past(k.(alive := false))
       else
         && !s.f.done && s.f.reactor == Some(c)
         && s.f.broken == s.f.holdReleased
         && (k.read.Closing? || k.read.Closed? ==> s.f.broken)
         && (k.write.Some? ==> s.f.writeInFlight)
         && if s.f.broken then
              || (s.pending == [c] && k.holds == 1 && k.removes == 0)
              || (s.pending == [] && k.holds == 0 && k.removes == 1)
            else
              s.pending == [] && k.holds == 1 && k.removes == 0 && (s.f.writeInFlight ==> k.write.Some?)
  }

  predicate Located(s: State) {
    match s.pc
    case Binding(c) =>
      IsOpen(s, c) && Unpublished(s, s.conns[c])
      && !s.conns[c].bound && !s.conns[c].started && s.conns[c].holds == 0 && s.conns[c].read.NotReading?
    case Beginning(c) =>
      IsOpen(s, c) && Unpublished(s, s.conns[c])
      && s.conns[c].bound && !s.conns[c].started && s.conns[c].holds == 0 && s.conns[c].read.NotReading?
    case Publishing(c) =>
      IsOpen(s, c) && Unpublished(s, s.conns[c])
      && s.conns[c].bound && s.conns[c].started && s.conns[c].holds == 1 && !s.conns[c].read.NotReading?
      && (s.conns[c].read.Closing? || s.conns[c].read.Closed? ==> s.f.broken)
    case Waiting(c) => IsOpen(s, c) && Published(s, c)
    case _ => AtRest(s)
  }

  predicate Threads(s: State) {
    && s.f.joinable == (!s.pc.Idle? && !s.f.stopping)
    && s.moved == (!s.pc.Idle? && s.f.stopping)
  }

  predicate Inv(s: State) {
    !s.fault && Threads(s) && Located(s) && (s.f.done ==> s.f.holdReleased)
  }

  lemma InitInv(cfg: Config)
    ensures Inv(Init(cfg))
  {
  }

  /** Equal but for the outstanding write, what was sent and the cancellation. */
  predicate SameCall(k: Conn, k': Conn) {
    k' == k.(write := k'.write, sent := k'.sent, cancelled := k'.cancelled)
  }

  predicate SameCalls(a: seq<Conn>, b: seq<Conn>) {
    |a| == |b| && forall c :: 0 <= c < |a| ==> SameCall(a[c], b[c])
  }

  lemma CancelFrame(s: State, target: Option<ConnId>)
    ensures var t := Cancel(s, target); t == s.(conns := t.conns, fault := t.fault) && SameCalls(s.conns, t.conns)
  {
  }

  lemma StartWriteFrame(s: State, w: Option<Write>)
    ensures var t := StartWrite(s, w); t == s.(conns := t.conns, fault := t.fault) && SameCalls(s.conns, t.conns)
  {
  }

  lemma SameCallsTransitive(a: seq<Conn>, b: seq<Conn>, c: seq<Conn>)
    requires SameCalls(a, b) && SameCalls(b, c)
    ensures SameCalls(a, c)
  {
  }

  /** Carrying out a section's decisions touches only writes and cancellations of connections. */
  lemma PerformFrame(s: State, o: Outcome)
    ensures var t := Perform(s, o);
      t == s.(f := o.fields, conns := t.conns, pending := t.pending, fault := t.fault) && SameCalls(s.conns, t.conns)
  {
    hide Cancel, StartWrite, SameCalls;
    var u := s.(f := o.fields);
    var v := Cancel(u, o.cancel);
    CancelFrame(u, o.cancel);
    StartWriteFrame(v, o.write);
    SameCallsTransitive(u.conns, v.conns, StartWrite(v, o.write).conns);
  }

  lemma CallbackStepUnfolds(s: State, l: Label)
    requires Enabled(s, l) && IsCallback(l)
    ensures l.c < |s.conns| && Step(s, l) == CallbackStep(s, l)
  {
    hide CallbackStep, Perform, MayFinish;
  }

  lemma CallbackStepIs(s: State, l: Label)
    requires Enabled(s, l) && IsCallback(l)
    ensures l.c < |s.conns| && Step(s, l) == Perform(CalledBack(s, l), SectionOf(s.f, l))
    ensures SectionOf(s.f, l).write.None? ==>
      Step(s, l) == Post(CalledBack(s, l).(f := SectionOf(s.f, l).fields), SectionOf(s.f, l).release)
  {
    hide Step, Enabled, SectionOf, CalledBack, Perform, Post;
    CallbackStepUnfolds(s, l);
    CallbacksDoNotCancel(s.f, l);
    if SectionOf(s.f, l).write.None? { PerformQuiet(CalledBack(s, l), SectionOf(s.f, l)); }
  }

  /** A callback's section is one of five, and that of a completed write only for a completed write. */
  lemma SectionCases(f: Fields, l: Label)
    requires IsCallback(l)
    ensures l.WriteOk? ==> SectionOf(f, l) == WriteDoneSection(f)
    ensures !l.WriteOk? ==>
      || SectionOf(f, l) == Quiet(f) || SectionOf(f, l) == Quiet(DataSection(f))
      || SectionOf(f, l) == Quiet(DoneSection(f)) || SectionOf(f, l) == ReadClosedSection(f)
  {
    hide WriteDoneSection, ReadClosedSection, DoneSection, DataSection, Quiet;
  }

  lemma CallbacksDoNotCancel(f: Fields, l: Label)
    requires IsCallback(l)
    ensures SectionOf(f, l).cancel.None?
  {
  }

  lemma PerformQuiet(s: State, o: Outcome)
    requires o.write.None? && o.cancel.None?
    ensures Perform(s, o) == Post(s.(f := o.fields), o.release)
  {
  }

  // ---- every step keeps the invariant ------------------------------------------------------

  /** Callbacks only ever run on the open, started, unfinished connection. */
  lemma CallbackIsCurrent(s: State, l: Label)
    requires Inv(s) && Enabled(s, l) && IsCallback(l)
    ensures (s.pc.Publishing? || s.pc.Waiting?) && l.c == s.pc.c && !s.conns[l.c].finished
  {
    assert Past(s.conns[l.c]) ==> !Enabled(s, l);
  }

  lemma ReadStepKeepsInv(s: State, l: Label)
    requires Inv(s) && Enabled(s, l)
    requires l.ReadOk? || l.EmitConnected? || l.NextRead? || l.ReadReturn?
    ensures Inv(Step(s, l))
  {
    CallbackIsCurrent(s, l);
    CallbackStepIs(s, l);
    hide Step;
  }

  lemma ReadFailKeepsInv(s: State, l: Label)
    requires Inv(s) && Enabled(s, l) && l.ReadFail?
    ensures Inv(Step(s, l))
  {
    CallbackIsCurrent(s, l);
    CallbackStepIs(s, l);
    hide Step;
  }

  lemma WriteOkKeepsInv(s: State, l: Label)
    requires Inv(s) && Enabled(s, l) && l.WriteOk?
    ensures Inv(Step(s, l))
  {
    CallbackIsCurrent(s, l);
    CallbackStepIs(s, l);
    hide Step;
    assert s.pc.Waiting?;
  }

  lemma FinishKeepsInv(s: State, l: Label)
    requires Inv(s) && Enabled(s, l) && (l.WriteReturn? || l.OnDone?)
    ensures Inv(Step(s, l))
  {
    CallbackIsCurrent(s, l);
    CallbackStepIs(s, l);
    hide Step;
    assert s.pc.Waiting?;
  }

  lemma WriteFailKeepsInv(s: State, l: Label)
    requires Inv(s) && Enabled(s, l) && l.WriteFail?
    ensures Inv(Step(s, l))
  {
    CallbackIsCurrent(s, l);
    CallbackStepIs(s, l);
    hide Step;
  }

  lemma StopKeepsInv(s: State)
    requires Inv(s)
    ensures Inv(Step(s, Stop))
  {
    var u, o := s.(moved := s.moved || s.f.joinable), StopSection(s.f);
    assert Step(s, Stop) == Perform(u, o);
    hide Step;
    match s.pc {
      case Waiting(c) =>
        var t := Post(Cancel(u.(f := o.fields), Some(c)), o.release);
        assert Perform(u, o) == t;
        assert t.conns == s.conns[c := s.conns[c].(cancelled := true)];
      case _ => assert o.release.None?;
    }
  }

  lemma JournalKeepsInv(s: State, r: Request, remember: bool)
    requires Inv(s)
    ensures Inv(Journal(s, r, remember)) && Journal(s, r, remember).f == s.f
  {
  }

  /** The invariant says nothing of the registry, nor of the queue. */
  lemma QueueKeepsInv(s: State, subs: Registry, queue: seq<Request>)
    requires Inv(s)
    ensures Inv(s.(f := s.f.(subs := subs, queue := queue)))
  {
  }

  lemma MaybeWriteKeepsInv(s: State)
    requires Inv(s)
    ensures Inv(Perform(s, MaybeWrite(s.f)))
  {
  }

  lemma SendSplits(s: State, r: Request, remember: bool)
    requires !s.f.stopping
    ensures Step(s, Send(r, remember)) == Perform(Enqueue(s, r, remember), MaybeWrite(Enqueue(s, r, remember).f))
  {
    hide Update;
  }

  lemma SendKeepsInv(s: State, r: Request, remember: bool)
    requires Inv(s)
    ensures Inv(Step(s, Send(r, remember)))
  {
    hide Update, Inv;
    if !s.f.stopping {
      var t, u := Journal(s, r, remember), Enqueue(s, r, remember);
      JournalKeepsInv(s, r, remember);
      QueueKeepsInv(t, u.f.subs, u.f.queue);
      assert u == t.(f := t.f.(subs := u.f.subs, queue := u.f.queue));
      MaybeWriteKeepsInv(u);
      SendSplits(s, r, remember);
    }
  }

  lemma PublishKeepsInv(s: State)
    requires Inv(s) && Enabled(s, Publish)
    ensures Inv(Step(s, Publish))
  {
  }

  lemma RemoveHoldKeepsInv(s: State, l: Label)
    requires Inv(s) && Enabled(s, l) && l.RemoveHold?
    ensures Inv(Step(s, l))
  {
  }

  lemma WorkerStepKeepsInv(s: State, l: Label)
    requires Inv(s) && Enabled(s, l)
    requires !IsCallback(l) && !l.Stop? && !l.Send? && !l.Publish? && !l.RemoveHold?
    ensures Inv(Step(s, l))
  {
    hide Perform, IssueRemoveHold, CallbackStep, Delay, Replay, Enumerates;
  }

  lemma StepKeepsInv(s: State, l: Label)
    requires Inv(s) && Enabled(s, l)
    ensures Inv(Step(s, l))
  {
    hide Inv, Step, Enabled;
    if l.Stop? { StopKeepsInv(s); }
    else if l.Send? { SendKeepsInv(s, l.r, l.remember); }
    else if l.Publish? { PublishKeepsInv(s); }
    else if l.RemoveHold? { RemoveHoldKeepsInv(s, l); }
    else if !IsCallback(l) { WorkerStepKeepsInv(s, l); }
    else if l.ReadFail? { ReadFailKeepsInv(s, l); }
    else if l.WriteFail? { WriteFailKeepsInv(s, l); }
    else if l.WriteOk? { WriteOkKeepsInv(s, l); }
    else if l.WriteReturn? || l.OnDone? { FinishKeepsInv(s, l); }
    else { ReadStepKeepsInv(s, l); }
  }

  lemma {:induction false} RunKeepsInv(s: State, run: seq<Label>)
    requires Inv(s) && IsRun(s, run)
    ensures Inv(After(s, run))
    decreases |run|
  {
    hide Inv, Step, Enabled;
    if run != [] {
      StepKeepsInv(s, run[0]);
      RunKeepsInv(Step(s, run[0]), run[1..]);
    }
  }
}
