/**
 * The read-only streams: the same reconnect loop as the market-data stream around a reactor without holds or
 * writes. The guarded state with its critical sections, the object, and the protocol as a step system.
 *
 * gRPC follows the rules of the market-data stream: OnDone comes once, after a read has failed, and a cancelled
 * call delivers no further message. A callback on a destroyed reactor, and a call opened while another is not
 * done, raise `fault`.
 */
module ServerStream {
  import opened Stories

  // ---- critical sections -----------------------------------------------------------------------

  datatype Fields = Fields(
    stopping: bool,            // stopping_
    done: bool,                // done_
    gotData: bool,             // got_data_
    ctx: bool,                 // ctx_ is set
    joinable: bool             // worker_.joinable()
  )

  const InitialFields: Fields := Fields(false, false, false, false, false)

  function StartSection(f: Fields): Fields {
    if f.joinable then f else f.(stopping := false, joinable := true)
  }

  function StopSection(f: Fields): Fields {
    f.(stopping := true, joinable := false)
  }

  function OpenSection(f: Fields): Fields {
    if f.stopping then f else f.(ctx := true, done := false)
  }

  class ServerStream {
    var stopping: bool
    var done: bool
    var gotData: bool
    var ctx: bool
    var joinable: bool

    function View(): Fields
      reads this
    {
      Fields(stopping, done, gotData, ctx, joinable)
    }

    constructor ()
      ensures View() == InitialFields
    {
      stopping, done, gotData, ctx, joinable := false, false, false, false, false;
    }

    method Start() returns (spawned: bool)
      modifies this
      ensures View() == StartSection(old(View())) && spawned == !old(joinable)
    {
      if joinable { return false; }
      stopping := false;
      joinable := true;
      return true;
    }

    method Stop() returns (cancels: bool, joins: bool)
      modifies this
      ensures View() == StopSection(old(View())) && cancels == old(ctx) && joins == old(joinable)
    {
      stopping := true;
      cancels := ctx;
      joins := joinable;
      joinable := false;
    }

    /** The first section of `run_once`. */
    method Open() returns (ready: bool)
      modifies this
      ensures View() == OpenSection(old(View())) && ready == !old(stopping)
    {
      if stopping { return false; }
      ctx := true;
      done := false;
      return true;
    }

    /** `handle_data` up to its notification: whether this is the connection's first message. */
    method HandleData() returns (first: bool)
      modifies this
      ensures View() == old(View()).(gotData := true) && first == !old(gotData)
    {
      first := !gotData;
      if first { gotData := true; }
    }
  }

  // ---- the protocol ------------------------------------------------------------------------------

  datatype Pc =
    | Idle
    | LoopTop
    | AnnounceConnecting
    | Resetting
    | Opening
    | Beginning
    | Waiting
    | AfterRun
    | AnnounceDisconnected
    | BackingOff
    | AnnounceStopped
    | Exited

  datatype ReadPc = NotReading | Reading | AnnounceFirst | Dispatching | Closed

  /** The latest call, with the reactor object it runs on. */
  datatype Call = Call(alive: bool, started: bool, read: ReadPc, cancelled: bool, finished: bool)

  datatype State = State(
    cfg: Config,
    f: Fields,
    pc: Pc,
    moved: bool,               // a stop() holds the thread handle and has not joined it
    attempt: nat,
    call: Call,
    events: seq<Event>,        // notifications since the latest start
    breaks: seq<bool>,         // per reported break since then: had it carried data?
    waits: seq<int>,           // per backoff since then: its length
    fault: bool
  )

  datatype Label =
    | Start | Stop | Join
    | LoopCheck | EmitConnecting | ResetData | Open | RefuseOpen | Begin | WaitDone
    | CheckAfterRun | EmitDisconnected | Wake | EmitStopped
    | ReadOk | EmitConnected | NextRead | ReadFail | OnDone

  function Init(cfg: Config): State {
    State(cfg, InitialFields, Idle, false, 0, Call(false, false, NotReading, false, false), [], [], [], false)
  }

  predicate Enabled(s: State, l: Label) {
    match l
    case Start => !s.moved
    case Stop => true
    case Join => s.moved && s.pc.Exited?
    case LoopCheck => s.pc.LoopTop?
    case EmitConnecting => s.pc.AnnounceConnecting?
    case ResetData => s.pc.Resetting?
    case Open => s.pc.Opening? && !s.f.stopping
    case RefuseOpen => s.pc.Opening? && s.f.stopping
    case Begin => s.pc.Beginning?
    case WaitDone => s.pc.Waiting? && s.f.done
    case CheckAfterRun => s.pc.AfterRun?
    case EmitDisconnected => s.pc.AnnounceDisconnected?
    case Wake => s.pc.BackingOff?
    case EmitStopped => s.pc.AnnounceStopped?
    case ReadOk => s.call.read.Reading? && !s.call.cancelled
    case EmitConnected => s.call.read.AnnounceFirst?
    case NextRead => s.call.read.Dispatching?
    case ReadFail => s.call.read.Reading?
    case OnDone => s.call.started && !s.call.finished && s.call.read.Closed?
  }

  function Callback(s: State, k: Call): State {
    s.(call := k, fault := s.fault || !s.call.alive)
  }

  function Step(s: State, l: Label): State
    requires Enabled(s, l)
  {
    var k := s.call;
    match l
    case Start =>
      if s.f.joinable then s
      else s.(f := StartSection(s.f), pc := LoopTop, attempt := 0, events := [], breaks := [], waits := [])
    case Stop =>
      s.(f := StopSection(s.f), moved := s.moved || s.f.joinable,
         call := if s.f.ctx then k.(cancelled := true) else k, fault := s.fault || (s.f.ctx && !k.alive))
    case Join => s.(moved := false, pc := Idle)
    case LoopCheck => s.(pc := if s.f.stopping then AnnounceStopped else AnnounceConnecting)
    case EmitConnecting => s.(events := s.events + [Connecting], pc := Resetting)
    case ResetData => s.(f := s.f.(gotData := false), pc := Opening)
    case Open =>
      s.(f := OpenSection(s.f), call := Call(true, false, NotReading, false, false), pc := Beginning,
         fault := s.fault || (k.started && !k.finished))
    case RefuseOpen => s.(pc := AfterRun)
    case Begin => s.(call := k.(started := true, read := Reading), pc := Waiting, fault := s.fault || !k.alive)
    case WaitDone => s.(f := s.f.(ctx := false), call := k.(alive := false), pc := AfterRun)
    case CheckAfterRun => s.(pc := if s.f.stopping then AnnounceStopped else AnnounceDisconnected)
    case EmitDisconnected =>
      var attempt := if s.f.gotData then 0 else s.attempt;
      var t := s.(events := s.events + [Disconnected], breaks := s.breaks + [s.f.gotData]);
      if !s.cfg.reconnect then t.(attempt := attempt, pc := AnnounceStopped)
      else t.(waits := s.waits + [Delay(s.cfg, attempt)], attempt := attempt + 1, pc := BackingOff)
    case Wake => s.(pc := if s.f.stopping then AnnounceStopped else LoopTop)
    case EmitStopped => s.(events := s.events + [Stopped], pc := Exited)
    case ReadOk =>
      Callback(s.(f := s.f.(gotData := true)), k.(read := if s.f.gotData then Dispatching else AnnounceFirst))
    case EmitConnected => Callback(s.(events := s.events + [Connected]), k.(read := Dispatching))
    case NextRead => Callback(s, k.(read := Reading))
    case ReadFail => Callback(s, k.(read := Closed))
    case OnDone => Callback(s.(f := s.f.(done := true)), k.(finished := true))
  }

  predicate IsRun(s: State, run: seq<Label>)
    decreases |run|
  {
    run == [] || (Enabled(s, run[0]) && IsRun(Step(s, run[0]), run[1..]))
  }

  function After(s: State, run: seq<Label>): State
    requires IsRun(s, run)
    decreases |run|
  {
    if run == [] then s else After(Step(s, run[0]), run[1..])
  }

  // ---- what every step keeps -----------------------------------------------------------------------

  /** The call while its connection is open: what the worker waits for is what gRPC delivers. */
  predicate Located(s: State) {
    var k := s.call;
    match s.pc
    case Beginning =>
      s.f.ctx && k == Call(true, false, NotReading, k.cancelled, false) && (s.f.stopping ==> k.cancelled) && !s.f.done
    case Waiting =>
      && s.f.ctx && k.alive && k.started && !k.read.NotReading? && (s.f.stopping ==> k.cancelled)
      && s.f.done == k.finished && (k.finished ==> k.read.Closed?)
    case _ => !s.f.ctx && !k.alive && (k.read.NotReading? || k.read.Closed?) && (k.started ==> k.finished)
  }

  /** What has been told so far, by where the worker is and what the read callback still has to say. */
  predicate Told(s: State) {
    match s.pc
    case Idle => s.events == [] || Complete(s.events)
    case Exited => Complete(s.events)
    case LoopTop => Rounds(s.events)
    case AnnounceConnecting => Rounds(s.events)
    case BackingOff => Rounds(s.events)
    case Resetting => EndsWith(s.events, [Connecting])
    case Opening => !s.f.gotData && ToldSoFar(s, false)
    case Beginning => !s.f.gotData && ToldSoFar(s, false)
    case Waiting => (s.call.read.AnnounceFirst? ==> s.f.gotData) && ToldSoFar(s, s.call.read.AnnounceFirst?)
    case AfterRun => ToldSoFar(s, false)
    case AnnounceDisconnected => ToldSoFar(s, false)
    case AnnounceStopped => Rounds(s.events) || Trying(s.events)
  }

  /** Connected was told exactly if data has come, unless the callback is just about to tell it. */
  predicate ToldSoFar(s: State, pending: bool) {
    EndsWith(s.events, if s.f.gotData && !pending then [Connecting, Connected] else [Connecting])
  }

  ghost predicate Paced(s: State) {
    && s.breaks == Carried(s.events)
    && if s.cfg.reconnect then PacedBy(s.cfg, s.breaks, s.waits, s.attempt) else s.waits == []
  }

  ghost predicate Inv(s: State) {
    && !s.fault && Located(s) && Told(s) && Paced(s)
    && s.f.joinable == (!s.pc.Idle? && !s.f.stopping)
    && s.moved == (!s.pc.Idle? && s.f.stopping)
  }

  lemma InitInv(cfg: Config)
    ensures Inv(Init(cfg))
  {
  }

  /** Calls, threads and lifetimes: no callback ever meets a destroyed reactor. */
  lemma StepIsSafe(s: State, l: Label)
    requires Inv(s) && Enabled(s, l)
    ensures var t := Step(s, l);
      && !t.fault && Located(t)
      && t.f.joinable == (!t.pc.Idle? && !t.f.stopping) && t.moved == (!t.pc.Idle? && t.f.stopping)
  {
    hide Rounds, EndsWith, Told, Paced, Delay;
  }

  predicate Emits(l: Label) {
    l.EmitConnecting? || l.EmitConnected? || l.EmitDisconnected? || l.EmitStopped?
  }

  lemma EmissionTells(s: State, l: Label)
    requires Inv(s) && Enabled(s, l) && Emits(l)
    ensures Told(Step(s, l))
  {
    hide Rounds, EndsWith, Complete, Delay, Paced;
    match l {
      case EmitConnecting => ExtendRounds(s.events, Connecting);
      case EmitConnected =>
        Extend(s.events, [Connecting], Connected);
        assert [Connecting] + [Connected] == [Connecting, Connected];
      case EmitDisconnected => BreakEndsRound(s.events);
      case EmitStopped => StopCompletes(s.events);
    }
  }

  lemma SilentTells(s: State, l: Label)
    requires Inv(s) && Enabled(s, l) && !Emits(l)
    ensures Told(Step(s, l))
  {
    hide Rounds, EndsWith, Delay, Paced;
    NothingToldYet();
  }

  lemma BreakIsPaced(s: State)
    requires Inv(s) && s.pc.AnnounceDisconnected?
    ensures Paced(Step(s, EmitDisconnected))
  {
    hide Rounds, Delay, PacedBy, Carried;
    var n := |s.events|;
    assert s.events[n - 1].Connected? == s.f.gotData by {
      if s.f.gotData { assert s.events[n - 2..][1] == Connected; } else { assert s.events[n - 1..][0] == Connecting; }
    }
    CarriedAppend(s.events, Disconnected);
    if s.cfg.reconnect { BreakPaces(s.cfg, s.breaks, s.waits, s.attempt, s.f.gotData); }
  }

  lemma StepIsPaced(s: State, l: Label)
    requires Inv(s) && Enabled(s, l)
    ensures Paced(Step(s, l)) && Step(s, l).cfg == s.cfg
  {
    hide Rounds, EndsWith, Told, Delay, Carried;
    if l.EmitDisconnected? { BreakIsPaced(s); }
    else if l.EmitConnecting? { CarriedAppend(s.events, Connecting); }
    else if l.EmitConnected? { CarriedAppend(s.events, Connected); }
    else if l.EmitStopped? { CarriedAppend(s.events, Stopped); }
    NothingCarried();
  }

  lemma NothingCarried()
    ensures Carried([]) == []
  {
  }

  lemma StepKeepsInv(s: State, l: Label)
    requires Inv(s) && Enabled(s, l)
    ensures Inv(Step(s, l)) && Step(s, l).cfg == s.cfg
  {
    StepIsSafe(s, l);
    StepIsPaced(s, l);
    if Emits(l) { EmissionTells(s, l); } else { SilentTells(s, l); }
    hide Step, Located, Told, Paced;
  }

  lemma {:induction false} RunKeepsInv(s: State, run: seq<Label>)
    requires Inv(s) && IsRun(s, run)
    ensures Inv(After(s, run)) && After(s, run).cfg == s.cfg
    decreases |run|
  {
    hide Inv, Step, Enabled;
    if run != [] {
      StepKeepsInv(s, run[0]);
      RunKeepsInv(Step(s, run[0]), run[1..]);
    }
  }

  /**
   * In every run: no callback meets a destroyed reactor and no call is opened over another; once the worker has
   * exited, the notifications since its start form one complete story; and the k-th break told waits the initial
   * backoff doubled once per connection since the latest one told as connected (or since the first), at most
   * eight times, and never above the cap.
   */
  lemma RunsTellAndPace(cfg: Config, run: seq<Label>)
    requires IsRun(Init(cfg), run)
    ensures var s := After(Init(cfg), run);
      && !s.fault && (s.f.ctx ==> s.call.alive)
      && (s.pc.Exited? ==> Complete(s.events))
      && WaitsFollow(cfg, s.events, s.waits)
  {
    hide IsRun, After, Inv, Complete, WaitsFollow;
    InitInv(cfg);
    RunKeepsInv(Init(cfg), run);
    InvTellsAndPaces(After(Init(cfg), run));
  }

  lemma InvTellsAndPaces(s: State)
    requires Inv(s)
    ensures !s.fault && (s.f.ctx ==> s.call.alive) && (s.pc.Exited? ==> Complete(s.events))
    ensures WaitsFollow(s.cfg, s.events, s.waits)
  {
    hide Rounds, EndsWith, Complete, Delay, Healthy, Carried;
  }

  // ---- stopping ------------------------------------------------------------------------------------

  /** Steps the program and gRPC take by themselves. */
  predicate Internal(l: Label) {
    !l.Start? && !l.Stop?
  }

  function PcRank(pc: Pc): nat {
    match pc
    case Idle => 0
    case Exited => 1
    case AnnounceStopped => 2
    case LoopTop => 3
    case AfterRun => 3
    case BackingOff => 3
    case AnnounceDisconnected => 4
    case Opening => 4
    case Waiting => 4
    case Resetting => 5
    case Beginning => 5
    case AnnounceConnecting => 6
  }

  function ReadRank(r: ReadPc): nat {
    match r
    case NotReading => 4
    case AnnounceFirst => 3
    case Dispatching => 2
    case Reading => 1
    case Closed => 0
  }

  function Rank(s: State): nat {
    10 * PcRank(s.pc) + ReadRank(s.call.read) + if s.call.finished then 0 else 1
  }

  lemma StepDescends(s: State, l: Label)
    requires Inv(s) && s.f.stopping && Enabled(s, l)
    ensures l.Start? ==> s.pc.Idle?
    ensures !l.Start? ==> Step(s, l).f.stopping && Rank(Step(s, l)) + (if Internal(l) then 1 else 0) <= Rank(s)
  {
    hide Rounds, EndsWith, Told, Paced, Delay;
  }

  lemma SomeStepEnabled(s: State) returns (l: Label)
    requires Inv(s) && s.f.stopping && !s.pc.Idle?
    ensures Internal(l) && Enabled(s, l)
  {
    hide Told, Paced;
    match s.pc {
      case LoopTop => l := LoopCheck;
      case AnnounceConnecting => l := EmitConnecting;
      case Resetting => l := ResetData;
      case Opening => l := RefuseOpen;
      case Beginning => l := Begin;
      case AfterRun => l := CheckAfterRun;
      case AnnounceDisconnected => l := EmitDisconnected;
      case BackingOff => l := Wake;
      case AnnounceStopped => l := EmitStopped;
      case Exited => l := Join;
      case Waiting =>
        l := match s.call.read
          case Reading => ReadFail
          case AnnounceFirst => EmitConnected
          case Dispatching => NextRead
          case _ => if s.call.finished then WaitDone else OnDone;
    }
  }

  function OwnSteps(run: seq<Label>): nat {
    if run == [] then 0 else (if Internal(run[0]) then 1 else 0) + OwnSteps(run[1..])
  }

  lemma {:induction false} RankBoundsOwnSteps(s: State, run: seq<Label>)
    requires Inv(s) && s.f.stopping && IsRun(s, run)
    requires forall i :: 0 <= i < |run| ==> !run[i].Start?
    ensures Rank(After(s, run)) + OwnSteps(run) <= Rank(s)
    ensures Inv(After(s, run)) && After(s, run).f.stopping
    decreases |run|
  {
    hide Inv, Enabled, Step, Rank;
    if run != [] {
      StepKeepsInv(s, run[0]);
      StepDescends(s, run[0]);
      RankBoundsOwnSteps(Step(s, run[0]), run[1..]);
    }
  }

  predicate EndAnnounced(s: State) {
    s.pc.Idle? ==> Complete(s.events)
  }

  lemma StepAnnouncesEnd(s: State, l: Label)
    requires Inv(s) && Enabled(s, l) && !l.Start? && EndAnnounced(s)
    ensures EndAnnounced(Step(s, l))
  {
    hide Complete, Rounds, EndsWith, Paced, Delay;
  }

  lemma {:induction false} RunAnnouncesEnd(s: State, run: seq<Label>)
    requires Inv(s) && EndAnnounced(s) && IsRun(s, run)
    requires forall i :: 0 <= i < |run| ==> !run[i].Start?
    ensures EndAnnounced(After(s, run))
    decreases |run|
  {
    hide Inv, Enabled, Step, EndAnnounced;
    if run != [] {
      StepKeepsInv(s, run[0]);
      StepAnnouncesEnd(s, run[0]);
      RunAnnouncesEnd(Step(s, run[0]), run[1..]);
    }
  }

  /**
   * Stopping always finishes: from any reachable state with `stopping_` set and the worker not yet joined, and
   * whatever further stop calls come, the program and gRPC take at most `Rank` more steps; as long as the worker
   * has not been joined one is available; and when it has, `stopped` was the last notification.
   */
  lemma StopAlwaysFinishes(cfg: Config, before: seq<Label>, run: seq<Label>)
    requires IsRun(Init(cfg), before)
    requires After(Init(cfg), before).f.stopping && !After(Init(cfg), before).pc.Idle?
    requires IsRun(After(Init(cfg), before), run) && forall i :: 0 <= i < |run| ==> !run[i].Start?
    ensures OwnSteps(run) <= Rank(After(Init(cfg), before))
    ensures var s := After(After(Init(cfg), before), run);
      if s.pc.Idle? then Complete(s.events) else exists l :: Internal(l) && Enabled(s, l)
  {
    hide Enabled, Step, Rank, Complete, Inv;
    InitInv(cfg);
    RunKeepsInv(Init(cfg), before);
    RankBoundsOwnSteps(After(Init(cfg), before), run);
    RunAnnouncesEnd(After(Init(cfg), before), run);
    var s := After(After(Init(cfg), before), run);
    if !s.pc.Idle? { var l := SomeStepEnabled(s); }
  }

  // ---- the loop goes on until asked to stop ------------------------------------------------------------

  /** Whether a stop has been asked for since the latest start. */
  function StopAsked(before: bool, run: seq<Label>): bool
    decreases |run|
  {
    if run == [] then before
    else StopAsked(if run[0].Stop? then true else if run[0].Start? then false else before, run[1..])
  }

  /** The worker leaves its loop only to stop, or after the one break it tells without reconnecting. */
  predicate Loops(s: State) {
    if s.cfg.reconnect then s.pc.AnnounceStopped? || s.pc.Exited? ==> s.f.stopping
    else
      && |s.breaks| <= 1 && !s.pc.BackingOff?
      && (s.breaks != [] ==> s.pc.AnnounceStopped? || s.pc.Exited? || s.pc.Idle?)
  }

  lemma StepLoops(s: State, l: Label)
    requires Inv(s) && Enabled(s, l) && Loops(s)
    ensures Loops(Step(s, l))
    ensures Step(s, l).f.stopping == if l.Stop? then true else if l.Start? then false else s.f.stopping
  {
    hide Rounds, EndsWith, Told, Paced, Delay;
  }

  lemma {:induction false} RunLoops(s: State, run: seq<Label>)
    requires Inv(s) && Loops(s) && IsRun(s, run)
    ensures Loops(After(s, run)) && After(s, run).f.stopping == StopAsked(s.f.stopping, run)
    decreases |run|
  {
    hide Inv, Loops, Step, Enabled;
    if run != [] {
      StepKeepsInv(s, run[0]);
      StepLoops(s, run[0]);
      RunLoops(Step(s, run[0]), run[1..]);
    }
  }

  /**
   * In every run `stopping_` is set exactly if a stop has been asked for since the latest start. With reconnection
   * on the worker leaves its loop only then; with it off it tells at most one break, and then leaves.
   */
  lemma StopsOnlyWhenAsked(cfg: Config, run: seq<Label>)
    requires IsRun(Init(cfg), run)
    ensures var s := After(Init(cfg), run);
      && s.f.stopping == StopAsked(false, run)
      && (cfg.reconnect && (s.pc.AnnounceStopped? || s.pc.Exited?) ==> StopAsked(false, run))
      && (!cfg.reconnect ==> |s.breaks| <= 1 && !s.pc.BackingOff?)
  {
    hide Inv, Step, Enabled, IsRun, After;
    InitInv(cfg);
    RunKeepsInv(Init(cfg), run);
    RunLoops(Init(cfg), run);
  }

  /** From the top of the loop to the opening of a connection. */
  function Again(): seq<Label> {
    [LoopCheck] + ([EmitConnecting] + ([ResetData] + ([Open] + [])))
  }

  /** At the top of its loop, and not stopping, the worker opens a connection. */
  lemma LoopOpens(s: State)
    requires s.pc.LoopTop? && !s.f.stopping
    ensures IsRun(s, Again())
    ensures var t := After(s, Again());
      t.pc.Beginning? && t.f.ctx && t.call.alive && !t.call.started && t.events == s.events + [Connecting]
  {
    hide IsRun, After;
    var s1 := Step(s, LoopCheck);
    var s2 := Step(s1, EmitConnecting);
    var s3 := Step(s2, ResetData);
    RunOne(s3, Open, []);
    RunOne(s2, ResetData, [Open] + []);
    RunOne(s1, EmitConnecting, [ResetData] + ([Open] + []));
    RunOne(s, LoopCheck, [EmitConnecting] + ([ResetData] + ([Open] + [])));
  }

  function Reconnecting(): seq<Label> {
    [WaitDone] + ([CheckAfterRun] + ([EmitDisconnected] + ([Wake] + Again())))
  }

  /** With reconnection on and no stop asked for, a connection that is done is followed by the next one. */
  lemma BreakIsFollowedByConnection(s: State)
    requires s.pc.Waiting? && s.f.done && !s.f.stopping && s.cfg.reconnect
    ensures IsRun(s, Reconnecting())
    ensures var t := After(s, Reconnecting());
      && t.pc.Beginning? && t.f.ctx && t.call.alive && !t.call.started
      && t.events == s.events + [Disconnected] + [Connecting]
  {
    hide IsRun, After, Again, Delay;
    var s1 := Step(s, WaitDone);
    var s2 := Step(s1, CheckAfterRun);
    var s3 := Step(s2, EmitDisconnected);
    var s4 := Step(s3, Wake);
    LoopOpens(s4);
    RunOne(s3, Wake, Again());
    RunOne(s2, EmitDisconnected, [Wake] + Again());
    RunOne(s1, CheckAfterRun, [EmitDisconnected] + ([Wake] + Again()));
    RunOne(s, WaitDone, [CheckAfterRun] + ([EmitDisconnected] + ([Wake] + Again())));
  }

  /** The first message of a connection is told as connected; a later one is just dispatched. */
  lemma FirstMessageIsTold(s: State)
    requires Enabled(s, ReadOk)
    ensures var t := Step(s, ReadOk);
      && t.f.gotData
      && (!s.f.gotData ==> Enabled(t, EmitConnected) && Step(t, EmitConnected).events == s.events + [Connected])
      && (s.f.gotData ==> !Enabled(t, EmitConnected) && Enabled(t, NextRead) && t.events == s.events)
  {
  }

  lemma RunOne(s: State, l: Label, rest: seq<Label>)
    requires Enabled(s, l) && (rest == [] || IsRun(Step(s, l), rest))
    ensures IsRun(s, [l] + rest)
    ensures IsRun(Step(s, l), rest) && After(s, [l] + rest) == After(Step(s, l), rest)
    ensures rest == [] ==> After(s, [l] + rest) == Step(s, l)
  {
    hide Step, Enabled;
    assert ([l] + rest)[1..] == rest;
  }
}
