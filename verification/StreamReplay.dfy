/** The registry against the wire: what the server will hold once everything written and queued has arrived. */
module StreamReplay {
  import opened Basics
  import opened Stories
  import opened Requests
  import opened Registry
  import opened StreamCore
  import opened StreamProtocol
  import opened StreamSafety

  /** The server list after the connection's replay and every accepted send. */
  function Wire(k: Conn): Server {
    ApplyAll(map[], Due(k))
  }

  /** A request that names no target or asks for no change. */
  predicate Silent(r: Request) {
    ActionOf(r) == ActionUnspecified || Count(r) == 0
  }

  /** Remembered exactly when it was queued, or without effect either way. */
  predicate Faithful(e: Sent) {
    e.remembered == e.queued || Silent(e.request)
  }

  predicate Clean(journal: seq<Sent>) {
    forall i :: 0 <= i < |journal| ==> Faithful(journal[i])
  }

  ghost predicate Agreement(s: State) {
    && WellKeyed(s.f.subs)
    && (s.f.ctx.Some? && s.f.ctx.value < |s.conns| && Clean(s.conns[s.f.ctx.value].journal) ==>
          Represents(s.f.subs, Wire(s.conns[s.f.ctx.value])))
  }

  // ---- one send ---------------------------------------------------------------------------

  lemma SilentChangesNothing(reg: Registry, s: Server, r: Request)
    requires Silent(r)
    ensures Update(reg, r) == reg && Apply(s, r) == s
  {
  }

  lemma UpdateWellKeyed(reg: Registry, r: Request)
    requires WellKeyed(reg)
    ensures WellKeyed(Update(reg, r))
  {
    hide Key;
    if ActionOf(r) == ActionSubscribe { RememberWellKeyed(reg, r, Count(r)); }
    ForgetWellKeyed(reg, r, Count(r));
  }

  /** What a send leaves in the registry and puts on the open connection's wire. */
  lemma SendOutcome(s: State, r: Request, remember: bool, c: ConnId)
    requires !s.f.stopping && c < |s.conns|
    requires Aimed(s) && s.f.ctx == Some(c)
    ensures var t := Step(s, Send(r, remember));
      && |t.conns| == |s.conns| && t.f.ctx == s.f.ctx
      && t.f.subs == (if remember then Update(s.f.subs, r) else s.f.subs)
      && t.conns[c].journal == s.conns[c].journal + [Sent(r, remember, Accepts(s.f))]
      && t.conns[c].snapshot == s.conns[c].snapshot
  {
    hide Update;
    SendSplits(s, r, remember);
  }

  lemma WireAppend(k: Conn, k': Conn, e: Sent)
    requires k'.snapshot == k.snapshot && k'.journal == k.journal + [e]
    ensures Wire(k') == if e.queued then Apply(Wire(k), e.request) else Wire(k)
  {
    hide Apply;
    AcceptedAppend(k.journal, e);
    if e.queued {
      assert Due(k') == Due(k) + [e.request];
      assert Due(k')[..|Due(k)|] == Due(k);
    } else {
      assert Due(k') == Due(k);
    }
  }

  /** The registry already says what the request asks for. */
  predicate Redundant(reg: Registry, r: Request) {
    match ActionOf(r)
    case ActionSubscribe => forall i :: 0 <= i < Count(r) ==> AtRegistry(reg, TargetAt(r, i)) == Some(OptionsOf(r))
    case ActionUnsubscribe => forall i :: 0 <= i < Count(r) ==> AtRegistry(reg, TargetAt(r, i)) == None
    case ActionUnspecified => true
  }

  lemma RedundantChangesNothing(reg: Registry, s: Server, r: Request)
    requires Represents(reg, s) && Redundant(reg, r)
    ensures Apply(s, r) == s
  {
    hide Key, TargetAt, Count, AtServer, AtRegistry, Apply, OptionsOf;
    forall t ensures AtServer(Apply(s, r), t) == AtServer(s, t) {
      ServerEffect(s, r, t);
      assert AtRegistry(reg, t) == AtServer(s, t);
    }
    SameServer(Apply(s, r), s);
  }

  lemma UnchangedIsRedundant(reg: Registry, s: Server, r: Request)
    requires Represents(reg, s) && Apply(s, r) == s
    ensures Redundant(reg, r)
  {
    hide Key, TargetAt, Count, AtServer, AtRegistry, Apply, OptionsOf;
    forall i | 0 <= i < Count(r)
      ensures AtRegistry(reg, TargetAt(r, i)) == Effect(r, TargetAt(r, i), AtRegistry(reg, TargetAt(r, i)))
      ensures TargetAt(r, i) in Targets(r)
    {
      ServerEffect(s, r, TargetAt(r, i));
      assert AtRegistry(reg, TargetAt(r, i)) == AtServer(s, TargetAt(r, i));
    }
  }

  /**
   * Exactly when a send keeps the registry in step with the wire: when it is remembered just in case the
   * published connection takes it, or when the registry already says what it asks for. A remembered send
   * between the registry snapshot and the publication of the reactor is the case that fails.
   */
  lemma SendKeepsAgreementIff(s: State, r: Request, remember: bool, c: ConnId)
    requires Inv(s) && !s.f.stopping && s.f.ctx == Some(c)
    requires Represents(s.f.subs, Wire(s.conns[c]))
    ensures var t := Step(s, Send(r, remember));
      c < |t.conns| &&
      (Represents(t.f.subs, Wire(t.conns[c])) <==> remember == Accepts(s.f) || Redundant(s.f.subs, r))
  {
    hide Apply, Update, Represents, Step, Inv, Redundant;
    assert c < |s.conns| && Aimed(s) by { OpenExists(s, c); }
    SendOutcome(s, r, remember, c);
    var t := Step(s, Send(r, remember));
    var w := Wire(s.conns[c]);
    WireAppend(s.conns[c], t.conns[c], Sent(r, remember, Accepts(s.f)));
    UpdateRepresents(s.f.subs, w, r);
    if Redundant(s.f.subs, r) { RedundantChangesNothing(s.f.subs, w, r); }
    if Apply(w, r) == w { UnchangedIsRedundant(s.f.subs, w, r); }
    if Represents(t.f.subs, Wire(t.conns[c])) {
      if remember && !Accepts(s.f) { RepresentsUnique(t.f.subs, w, Apply(w, r)); }
      if !remember && Accepts(s.f) { RepresentsUnique(t.f.subs, w, Apply(w, r)); }
    }
  }

  lemma OpenExists(s: State, c: ConnId)
    requires Inv(s) && s.f.ctx == Some(c)
    ensures c < |s.conns| && Aimed(s)
  {
  }

  // ---- every run -----------------------------------------------------------------------------

  function Logs(k: Conn): (seq<Request>, seq<Sent>) {
    (k.snapshot, k.journal)
  }

  predicate SameLogs(s: State, t: State) {
    |t.conns| == |s.conns| && forall c :: 0 <= c < |s.conns| ==> Logs(t.conns[c]) == Logs(s.conns[c])
  }

  lemma PerformSameLogs(s: State, o: Outcome)
    ensures SameLogs(s, Perform(s, o)) && Perform(s, o).f == o.fields
  {
    hide Perform;
    PerformFrame(s, o);
    forall c | 0 <= c < |s.conns| ensures Logs(Perform(s, o).conns[c]) == Logs(s.conns[c]) {
      assert SameCall(s.conns[c], Perform(s, o).conns[c]);
    }
  }

  /** The registry is what it was, and the context is what it was or none. */
  predicate SameHead(f: Fields, g: Fields) {
    g.subs == f.subs && (g.ctx == f.ctx || g.ctx.None?)
  }

  lemma CallbackKeepsLogs(k: Conn, f: Fields, l: Label)
    requires IsCallback(l)
    ensures Logs(CallAfter(k, f, l)) == Logs(k)
  {
    hide Update, Replay, ApplyAll;
  }

  lemma CallbackKeepsHead(f: Fields, l: Label)
    requires IsCallback(l)
    ensures SameHead(f, SectionOf(f, l).fields)
  {
    SectionsKeepHead(f);
    SectionCases(f, l);
    hide SectionOf, ReadClosedSection, WriteDoneSection, DoneSection;
  }

  lemma SectionsKeepHead(f: Fields)
    ensures SameHead(f, ReadClosedSection(f).fields)
    ensures SameHead(f, WriteDoneSection(f).fields)
    ensures SameHead(f, DoneSection(f))
  {
  }

  lemma CallbackStepSameLogs(s: State, l: Label)
    requires Enabled(s, l) && IsCallback(l)
    ensures SameLogs(s, Step(s, l)) && SameHead(s.f, Step(s, l).f)
  {
    hide Perform, Step;
    CallbackStepIs(s, l);
    hide CallAfter, SectionOf;
    CallbackKeepsLogs(s.conns[l.c], s.f, l);
    CallbackKeepsHead(s.f, l);
    PerformSameLogs(CalledBack(s, l), SectionOf(s.f, l));
  }

  lemma OtherSameLogs(s: State, l: Label)
    requires Enabled(s, l) && !IsCallback(l) && !l.Send? && !l.Open?
    ensures SameLogs(s, Step(s, l)) && SameHead(s.f, Step(s, l).f)
  {
    hide Perform, SameLogs;
    if l.Stop? {
      var u := s.(moved := s.moved || s.f.joinable);
      PerformSameLogs(u, StopSection(s.f));
      SameConnsSameLogs(s, u, Step(s, l));
    } else if l.Publish? {
      var u := s.(pc := Waiting(s.pc.c));
      PerformSameLogs(u, PublishSection(s.f, s.pc.c));
      SameConnsSameLogs(s, u, Step(s, l));
    } else {
      WorkerSameLogs(s, l);
    }
  }

  lemma SameConnsSameLogs(s: State, s': State, t: State)
    requires s'.conns == s.conns && SameLogs(s', t)
    ensures SameLogs(s, t)
  {
  }

  lemma WorkerSameLogs(s: State, l: Label)
    requires Enabled(s, l) && !IsCallback(l) && !l.Send? && !l.Open? && !l.Stop? && !l.Publish?
    ensures SameLogs(s, Step(s, l)) && SameHead(s.f, Step(s, l).f)
  {
    hide Perform, CallbackStep, Delay, Replay, Enumerates;
  }

  lemma FrameAgreement(s: State, t: State)
    requires Agreement(s) && SameLogs(s, t) && SameHead(s.f, t.f)
    ensures Agreement(t)
  {
  }

  lemma OpenAgrees(s: State, l: Label)
    requires Agreement(s) && Enabled(s, l) && l.Open?
    ensures Agreement(Step(s, l))
  {
    hide Represents, WellKeyed;
    var k := NewConn(Replay(s.f.subs, l.order));
    assert Due(k) == k.snapshot;
    ReplayRepresents(s.f.subs, l.order);
  }

  lemma SendAgrees(s: State, r: Request, remember: bool)
    requires Inv(s) && Agreement(s)
    ensures Agreement(Step(s, Send(r, remember)))
  {
    hide Represents, WellKeyed, Update, Apply, Inv, Step;
    if s.f.stopping {
      assert Step(s, Send(r, remember)) == s by { StoppingSendIsSilent(s, r, remember); }
    } else {
      UpdateWellKeyed(s.f.subs, r);
      if s.f.ctx.Some? {
        var c := s.f.ctx.value;
        OpenExists(s, c);
        SendOutcome(s, r, remember, c);
        var t := Step(s, Send(r, remember));
        var k, k', e := s.conns[c], t.conns[c], Sent(r, remember, Accepts(s.f));
        if Clean(k'.journal) {
          CleanAppend(k.journal, e);
          WireAppend(k, k', e);
          UpdateRepresents(s.f.subs, Wire(k), r);
          if Silent(r) { SilentChangesNothing(s.f.subs, Wire(k), r); }
        }
      } else {
        ClosedSend(s, r, remember);
      }
    }
  }

  lemma StoppingSendIsSilent(s: State, r: Request, remember: bool)
    requires s.f.stopping
    ensures Step(s, Send(r, remember)) == s
  {
  }

  lemma ClosedSend(s: State, r: Request, remember: bool)
    requires Inv(s) && s.f.ctx.None? && !s.f.stopping
    ensures Step(s, Send(r, remember)).f.ctx.None?
    ensures Step(s, Send(r, remember)).f.subs == if remember then Update(s.f.subs, r) else s.f.subs
  {
    hide Update, Perform, Inv;
    PerformFrame(Journal(s, r, remember), SendSection(s.f, r, remember));
  }

  lemma CleanAppend(journal: seq<Sent>, e: Sent)
    requires Clean(journal + [e])
    ensures Clean(journal) && Faithful(e)
  {
    assert (journal + [e])[|journal|] == e;
    forall i | 0 <= i < |journal| ensures Faithful(journal[i]) {
      assert (journal + [e])[i] == journal[i];
    }
  }

  lemma StepKeepsAgreement(s: State, l: Label)
    requires Inv(s) && Enabled(s, l) && Agreement(s)
    ensures Agreement(Step(s, l))
  {
    hide Inv, Enabled, Step, Agreement;
    if l.Send? { SendAgrees(s, l.r, l.remember); }
    else if l.Open? { OpenAgrees(s, l); }
    else {
      if IsCallback(l) { CallbackStepSameLogs(s, l); } else { OtherSameLogs(s, l); }
      FrameAgreement(s, Step(s, l));
    }
  }

  lemma {:induction false} RunKeepsAgreement(s: State, run: seq<Label>)
    requires Inv(s) && Agreement(s) && IsRun(s, run)
    ensures Agreement(After(s, run))
    decreases |run|
  {
    hide Inv, Enabled, Step, Agreement;
    if run != [] {
      StepKeepsInv(s, run[0]);
      StepKeepsAgreement(s, run[0]);
      RunKeepsAgreement(Step(s, run[0]), run[1..]);
    }
  }

  /**
   * In every run, on the open connection: applying what was written, is in flight and is queued, in order,
   * to an empty server gives exactly what the registry stands for, provided every effective request since
   * the snapshot was both remembered and taken by the connection.
   */
  lemma RegistryMatchesWire(cfg: Config, run: seq<Label>, c: ConnId)
    requires IsRun(Init(cfg), run)
    requires After(Init(cfg), run).f.ctx == Some(c)
    ensures var s := After(Init(cfg), run);
      c < |s.conns| &&
      (Clean(s.conns[c].journal) ==> Represents(s.f.subs, ApplyAll(map[], s.conns[c].sent + s.f.queue)))
  {
    hide Inv, Enabled, Step, Represents;
    var s := After(Init(cfg), run);
    InitInv(cfg);
    RunKeepsInv(Init(cfg), run);
    OpenExists(s, c);
    RunKeepsAgreement(Init(cfg), run);
    WritesLeaveInOrder(cfg, run);
  }

  // ---- the same, in terms of the calls made -------------------------------------------------------

  predicate AllRemembered(run: seq<Label>) {
    forall i :: 0 <= i < |run| && run[i].Send? ==> run[i].remember
  }

  /** Connection `c` is over or published, and as long as it is unbroken it took every effective send. */
  predicate TookAll(s: State, c: ConnId) {
    c < |s.conns| && (s.f.ctx == Some(c) ==> s.pc == Waiting(c) && (!s.f.broken ==> Clean(s.conns[c].journal)))
  }

  lemma StaysWaiting(s: State, l: Label)
    requires Inv(s) && Enabled(s, l) && s.pc.Waiting? && !l.Send?
    ensures Step(s, l).f.ctx.Some? ==> Step(s, l).pc == s.pc && (s.f.broken ==> Step(s, l).f.broken)
  {
    hide Perform;
    if IsCallback(l) {
      CallbackStepIs(s, l);
      hide Step;
      PerformFrame(CalledBack(s, l), SectionOf(s.f, l));
    }
    else if l.Stop? { PerformFrame(s.(moved := s.moved || s.f.joinable), StopSection(s.f)); }
  }

  lemma UnbrokenAccepts(s: State, r: Request)
    requires Inv(s) && s.pc.Waiting? && !s.f.stopping
    ensures s.f.broken || Accepts(s.f)
    ensures Step(s, Send(r, true)).pc == s.pc && Step(s, Send(r, true)).f.broken == s.f.broken
  {
    hide Update, Perform;
    PerformFrame(Journal(s, r, true), SendSection(s.f, r, true));
  }

  lemma SendTakes(s: State, r: Request, c: ConnId)
    requires Inv(s) && TookAll(s, c)
    ensures TookAll(Step(s, Send(r, true)), c)
  {
    hide Inv, Step;
    var t := Step(s, Send(r, true));
    if s.f.stopping {
      StoppingSendIsSilent(s, r, true);
    } else if s.f.ctx.None? {
      SendKeepsConns(s, r);
    } else {
      OpenExists(s, s.f.ctx.value);
      SendOutcome(s, r, true, s.f.ctx.value);
      if s.f.ctx.value == c {
        UnbrokenAccepts(s, r);
        assert !t.f.broken ==> Clean(t.conns[c].journal);
      }
    }
  }

  lemma SendKeepsConns(s: State, r: Request)
    requires Inv(s) && s.f.ctx.None? && !s.f.stopping
    ensures Step(s, Send(r, true)).f.ctx.None? && |Step(s, Send(r, true)).conns| == |s.conns|
  {
    hide Update, Perform, Inv;
    PerformFrame(Journal(s, r, true), SendSection(s.f, r, true));
  }

  lemma OpenIsNew(s: State, l: Label)
    requires Enabled(s, l) && l.Open?
    ensures Step(s, l).f.ctx == Some(|s.conns|) && |Step(s, l).conns| == |s.conns| + 1
  {
  }

  lemma StepTakes(s: State, l: Label, c: ConnId)
    requires Inv(s) && Enabled(s, l) && TookAll(s, c) && (l.Send? ==> l.remember)
    ensures TookAll(Step(s, l), c)
  {
    hide Inv, Step, Enabled, Clean;
    if l.Send? { SendTakes(s, l.r, c); }
    else if l.Open? { OpenIsNew(s, l); }
    else {
      if IsCallback(l) { CallbackStepSameLogs(s, l); } else { OtherSameLogs(s, l); }
      if s.f.ctx == Some(c) { StaysWaiting(s, l); }
      assert Logs(Step(s, l).conns[c]) == Logs(s.conns[c]);
    }
  }

  lemma {:induction false} RunTakes(s: State, run: seq<Label>, c: ConnId)
    requires Inv(s) && TookAll(s, c) && IsRun(s, run) && AllRemembered(run)
    ensures TookAll(After(s, run), c)
    decreases |run|
  {
    hide Inv, Step, Enabled, TookAll;
    if run != [] {
      StepKeepsInv(s, run[0]);
      StepTakes(s, run[0], c);
      RunTakes(Step(s, run[0]), run[1..], c);
    }
  }

  lemma PublishTakes(s: State, c: ConnId)
    requires s.pc == Publishing(c) && c < |s.conns| && s.conns[c].journal == []
    ensures TookAll(Step(s, Publish), c)
  {
    hide Perform;
    OtherSameLogs(s, Publish);
    PerformFrame(s.(pc := Waiting(c)), PublishSection(s.f, c));
    assert Logs(Step(s, Publish).conns[c]) == Logs(s.conns[c]);
  }

  /**
   * If nothing was sent between the snapshot and the publication of connection `c`, and every later send was
   * to be remembered, then as long as the connection is open and unbroken, what was written, is in flight and
   * is queued gives the server exactly the registry.
   */
  lemma RememberedSendsReachWire(cfg: Config, before: seq<Label>, after: seq<Label>, c: ConnId)
    requires IsRun(Init(cfg), before + [Publish] + after) && AllRemembered(after)
    requires IsRun(Init(cfg), before) && After(Init(cfg), before).pc == Publishing(c)
    requires c < |After(Init(cfg), before).conns| && After(Init(cfg), before).conns[c].journal == []
    ensures var t := After(Init(cfg), before + [Publish] + after);
      t.f.ctx == Some(c) && !t.f.broken ==>
        c < |t.conns| && Represents(t.f.subs, ApplyAll(map[], t.conns[c].sent + t.f.queue))
  {
    hide Inv, Step, Enabled, Represents, TookAll;
    var s, run := After(Init(cfg), before), before + [Publish] + after;
    assert before + ([Publish] + after) == run;
    RunSplits(Init(cfg), before, [Publish] + after);
    assert ([Publish] + after)[1..] == after;
    InitInv(cfg);
    RunKeepsInv(Init(cfg), before);
    PublishTakes(s, c);
    StepKeepsInv(s, Publish);
    RunTakes(Step(s, Publish), after, c);
    var t := After(Init(cfg), run);
    if t.f.ctx == Some(c) && !t.f.broken {
      TookAllIsClean(t, c);
      RegistryMatchesWire(cfg, run, c);
    }
  }

  lemma TookAllIsClean(s: State, c: ConnId)
    requires TookAll(s, c) && s.f.ctx == Some(c) && !s.f.broken
    ensures c < |s.conns| && Clean(s.conns[c].journal)
  {
  }

  lemma {:induction false} RunSplits(s: State, run: seq<Label>, more: seq<Label>)
    requires IsRun(s, run) && IsRun(s, run + more)
    ensures IsRun(After(s, run), more) && After(s, run + more) == After(After(s, run), more)
    decreases |run|
  {
    hide Step, Enabled;
    if run == [] {
      assert run + more == more;
    } else {
      assert (run + more)[1..] == run[1..] + more;
      RunSplits(Step(s, run[0]), run[1..], more);
    }
  }

  // ---- subscribe once ----------------------------------------------------------------------------

  predicate Remembers(s: State, l: Label) {
    l.Send? && l.remember && !s.f.stopping
  }

  /** The requests a run was asked to remember, in order. */
  ghost function Remembered(s: State, run: seq<Label>): seq<Request>
    requires IsRun(s, run)
    decreases |run|
  {
    if run == [] then []
    else (if Remembers(s, run[0]) then [run[0].r] else []) + Remembered(Step(s, run[0]), run[1..])
  }

  lemma StepUpdatesRegistry(s: State, l: Label)
    requires Enabled(s, l)
    ensures Step(s, l).f.subs == if Remembers(s, l) then Update(s.f.subs, l.r) else s.f.subs
  {
    hide Update, Perform;
    if l.Send? { PerformFrame(Journal(s, l.r, l.remember), SendSection(s.f, l.r, l.remember)); }
    else if l.Open? {}
    else if IsCallback(l) { CallbackStepSameLogs(s, l); }
    else { OtherSameLogs(s, l); }
  }

  lemma {:induction false} UpdateAllCons(reg: Registry, r: Request, rs: seq<Request>)
    ensures UpdateAll(reg, [r] + rs) == UpdateAll(Update(reg, r), rs)
  {
    hide Update;
    if rs == [] {
      assert [r] + rs == [r] && [r][..0] == [];
    } else {
      UpdateAllCons(reg, r, rs[..|rs| - 1]);
      assert ([r] + rs)[..|rs|] == [r] + rs[..|rs| - 1];
    }
  }

  lemma {:induction false} RunUpdatesRegistry(s: State, run: seq<Label>)
    requires IsRun(s, run)
    ensures After(s, run).f.subs == UpdateAll(s.f.subs, Remembered(s, run))
    decreases |run|
  {
    hide Update, Enabled, Step;
    if run != [] {
      var l, rest := run[0], Remembered(Step(s, run[0]), run[1..]);
      StepUpdatesRegistry(s, l);
      RunUpdatesRegistry(Step(s, l), run[1..]);
      if Remembers(s, l) { UpdateAllCons(s.f.subs, l.r, rest); } else { assert [] + rest == rest; }
    }
  }

  /**
   * The caller subscribes once: whenever a connection is opened, first or again, in whatever order the
   * registry is walked, writing the queued replay to an empty server has the effect of writing every request
   * remembered since the stream was made.
   */
  lemma ReconnectReplaysHistory(cfg: Config, run: seq<Label>, order: seq<string>)
    requires IsRun(Init(cfg), run) && Enabled(After(Init(cfg), run), Open(order))
    ensures var t := Step(After(Init(cfg), run), Open(order));
      ApplyAll(map[], t.f.queue) == ApplyAll(map[], Remembered(Init(cfg), run))
  {
    hide Update, Apply, Key;
    RunUpdatesRegistry(Init(cfg), run);
    ReplayCompactsHistory(Remembered(Init(cfg), run), order);
  }

  // ---- the window between snapshot and publication ---------------------------------------------

  lemma RunCons(s: State, l: Label, rest: seq<Label>)
    requires Enabled(s, l) && IsRun(Step(s, l), rest)
    ensures IsRun(s, [l] + rest) && After(s, [l] + rest) == After(Step(s, l), rest)
  {
  }

  /** Subscribe on a connection that has just been opened, then bind, begin and publish it. */
  function MissedTail(r: Request): seq<Label> {
    [Send(r, true)] + ([Bind] + ([Begin] + ([Publish] + [])))
  }

  function OpenThen(rest: seq<Label>): seq<Label> {
    [Start] + ([LoopCheck] + ([EmitConnecting] + ([Open([])] + rest)))
  }

  function MissedRun(r: Request): seq<Label> {
    OpenThen(MissedTail(r))
  }

  function OpenedState(cfg: Config): State {
    State(cfg, Fields(false, false, false, false, false, false, None, Some(0), true, [], map[]),
          Binding(0), false, 0, [NewConn([])], [], [Connecting], [], [], false)
  }

  function MissedState(cfg: Config, r: Request): State {
    State(cfg,
          Fields(false, false, false, false, false, false, Some(0), Some(0), true, [], Update(map[], r)),
          Waiting(0), false, 0,
          [Conn(true, true, true, 1, 0, Reading, None, 0, false, false, [], [], [Sent(r, true, false)])],
          [], [Connecting], [], [], false)
  }

  lemma MissedTailReaches(cfg: Config, r: Request)
    ensures IsRun(OpenedState(cfg), MissedTail(r))
    ensures After(OpenedState(cfg), MissedTail(r)) == MissedState(cfg, r)
  {
    hide Update, IsRun, After;
    var s0 := OpenedState(cfg);
    var s1 := Step(s0, Send(r, true));
    assert [] + [Sent(r, true, false)] == [Sent(r, true, false)];
    assert s1.conns == [NewConn([]).(journal := [Sent(r, true, false)])];
    var s2 := Step(s1, Bind);
    var s3 := Step(s2, Begin);
    assert Step(s3, Publish) == MissedState(cfg, r);
    var rest: seq<Label> := [];
    assert IsRun(Step(s3, Publish), rest) && After(Step(s3, Publish), rest) == Step(s3, Publish) by {
      EmptyRun(Step(s3, Publish));
    }
    RunCons(s3, Publish, rest);
    RunCons(s2, Begin, [Publish] + rest);
    RunCons(s1, Bind, [Begin] + ([Publish] + rest));
    RunCons(s0, Send(r, true), [Bind] + ([Begin] + ([Publish] + rest)));
  }

  lemma EmptyRun(s: State)
    ensures IsRun(s, []) && After(s, []) == s
  {
  }

  /** Start the stream and open its first connection, then go on. */
  lemma OpenThenReaches(cfg: Config, rest: seq<Label>)
    requires IsRun(OpenedState(cfg), rest)
    ensures IsRun(Init(cfg), OpenThen(rest)) && After(Init(cfg), OpenThen(rest)) == After(OpenedState(cfg), rest)
  {
    hide Update, Enumerates, IsRun, After;
    EmptyEnumerates();
    var s0 := Init(cfg);
    var s1 := Step(s0, Start);
    var s2 := Step(s1, LoopCheck);
    var s3 := Step(s2, EmitConnecting);
    assert Replay(map[], []) == [];
    assert Step(s3, Open([])) == OpenedState(cfg);
    RunCons(s3, Open([]), rest);
    RunCons(s2, EmitConnecting, [Open([])] + rest);
    RunCons(s1, LoopCheck, [EmitConnecting] + ([Open([])] + rest));
    RunCons(s0, Start, [LoopCheck] + ([EmitConnecting] + ([Open([])] + rest)));
  }

  lemma EmptyEnumerates()
    ensures Enumerates([], map[])
  {
  }

  /**
   * The window is real, for every subscribe that names a target: the published, unbroken connection has
   * written nothing and has nothing to write, while the registry holds the subscription.
   */
  lemma WindowLosesSubscribe(cfg: Config, r: Request)
    requires ActionOf(r) == ActionSubscribe && Count(r) > 0
    ensures IsRun(Init(cfg), MissedRun(r))
    ensures var s := After(Init(cfg), MissedRun(r));
      && |s.conns| == 1 && s.f.reactor == Some(0) && Accepts(s.f)
      && s.conns[0].sent + s.f.queue == []
      && AtRegistry(s.f.subs, TargetAt(r, 0)) == Some(OptionsOf(r))
      && !Represents(s.f.subs, ApplyAll(map[], s.conns[0].sent + s.f.queue))
  {
    hide Update, Key, Step, Enabled, OpenThen, MissedTail;
    MissedTailReaches(cfg, r);
    OpenThenReaches(cfg, MissedTail(r));
    var t := TargetAt(r, 0);
    assert t in Targets(r);
    RegistryEffect(map[], r, t);
    assert AtServer(map[], t) == None;
  }
}
