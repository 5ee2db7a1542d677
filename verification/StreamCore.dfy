/**
 * The state `mu_` guards in a market-data stream, and each of its critical sections as a function.
 *
 * A section yields the new guarded state together with what it decides to do to the transport: a write
 * started under the lock, a hold whose release it claims (the call itself follows after unlock), and a
 * context it cancels. Connections are named by their ordinal, so that a stale pointer is a visible value.
 */
module StreamCore {
  import opened Basics
  import opened Requests
  import opened Registry

  type ConnId = nat

  datatype Fields = Fields(
    stopping: bool,            // stopping_
    done: bool,                // done_
    gotData: bool,             // got_data_
    broken: bool,              // broken_
    holdReleased: bool,        // hold_released_
    writeInFlight: bool,       // write_in_flight_
    reactor: Option<ConnId>,   // reactor_
    ctx: Option<ConnId>,       // ctx_
    joinable: bool,            // worker_.joinable()
    queue: seq<Request>,       // write_queue_
    subs: Registry             // subscriptions_
  )

  datatype Write = Write(conn: ConnId, request: Request)

  datatype Outcome = Outcome(
    fields: Fields,
    write: Option<Write>,      // StartWrite issued under the lock
    release: Option<ConnId>,   // RemoveHold to be issued after unlock
    cancel: Option<ConnId>     // TryCancel issued under the lock
  )

  function Quiet(f: Fields): Outcome {
    Outcome(f, None, None, None)
  }

  const InitialFields: Fields :=
    Fields(false, false, false, false, false, false, None, None, false, [], map[])

  predicate MayWrite(f: Fields) {
    f.reactor.Some? && !f.broken && !f.holdReleased && !f.writeInFlight && f.queue != []
  }

  /** `maybe_write_locked`: pop the oldest queued request and start writing it, if a write may start. */
  function MaybeWrite(f: Fields): Outcome {
    if MayWrite(f) then
      Outcome(f.(writeInFlight := true, queue := f.queue[1..]),
              Some(Write(f.reactor.value, f.queue[0])), None, None)
    else
      Quiet(f)
  }

  /** Claim the release of the published reactor's hold, unless it has been claimed already. */
  function ClaimHold(f: Fields): Outcome {
    if f.reactor.Some? && !f.holdReleased then
      Outcome(f.(holdReleased := true), None, f.reactor, None)
    else
      Quiet(f)
  }

  function StartSection(f: Fields): Fields {
    if f.joinable then f else f.(stopping := false, joinable := true)
  }

  function StopSection(f: Fields): Outcome {
    var claimed := ClaimHold(f.(stopping := true, broken := true, joinable := false));
    claimed.(cancel := f.ctx)
  }

  /** The first section of `run_once`, past its stopping test: a fresh connection and the registry to replay. */
  function SetupSection(f: Fields, c: ConnId, replay: seq<Request>): Fields {
    f.(ctx := Some(c), done := false, broken := false, holdReleased := false, gotData := false,
       writeInFlight := false, queue := replay)
  }

  /** The publishing section of `run_once`. */
  function PublishSection(f: Fields, c: ConnId): Outcome {
    if f.done then Quiet(f)
    else
      var p := f.(reactor := Some(c));
      if (p.stopping || p.broken) && !p.holdReleased then
        Outcome(p.(holdReleased := true), None, Some(c), None)
      else MaybeWrite(p)
  }

  function WriteDoneSection(f: Fields): Outcome {
    MaybeWrite(f.(writeInFlight := false))
  }

  function ReadClosedSection(f: Fields): Outcome {
    ClaimHold(f.(broken := true))
  }

  /** `handle_response` up to its notification. */
  function DataSection(f: Fields): Fields {
    f.(gotData := true)
  }

  /** The last section of `run_once`, before the reactor is destroyed. */
  function FinishSection(f: Fields): Fields {
    f.(ctx := None)
  }

  function DoneSection(f: Fields): Fields {
    f.(reactor := None, done := true)
  }

  predicate Accepts(f: Fields) {
    f.reactor.Some? && !f.broken && !f.holdReleased
  }

  function SendSection(f: Fields, r: Request, remember: bool): Outcome {
    if f.stopping then Quiet(f)
    else
      var g := if remember then f.(subs := Update(f.subs, r)) else f;
      if Accepts(g) then MaybeWrite(g.(queue := g.queue + [r])) else Quiet(g)
  }
}
