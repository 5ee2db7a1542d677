/**
 * The stream object. Each method is one critical section of `mu_`, written statement by statement, and is
 * proved to be the section's function on the guarded state; what the section does to the transport comes
 * back as out-parameters.
 */
module MarketDataStream {
  import opened Basics
  import opened Requests
  import opened Registry
  import opened StreamCore

  /** The loop of `run_once` over the registry: every registered request is queued once. */
  method QueueAll(subs: Registry) returns (queue: seq<Request>, order: seq<string>)
    ensures Enumerates(order, subs) && queue == Replay(subs, order)
  {
    queue, order := [], [];
    var left := subs.Keys;
    while left != {}
      invariant left <= subs.Keys
      invariant forall k :: k in subs <==> k in left || k in order
      invariant forall i, j :: 0 <= i < j < |order| ==> order[i] != order[j]
      invariant forall k :: k in order ==> k !in left
      invariant queue == Replay(subs, order)
      decreases left
    {
      var k :| k in left;
      queue := queue + [subs[k]];
      order := order + [k];
      left := left - {k};
    }
  }

  class MarketDataStream {
    var stopping: bool
    var done: bool
    var gotData: bool
    var broken: bool
    var holdReleased: bool
    var writeInFlight: bool
    var reactor: Option<ConnId>
    var ctx: Option<ConnId>
    var joinable: bool
    var queue: seq<Request>
    var subs: Registry

    function View(): Fields
      reads this
    {
      Fields(stopping, done, gotData, broken, holdReleased, writeInFlight, reactor, ctx, joinable, queue, subs)
    }

    constructor ()
      ensures View() == InitialFields
    {
      stopping, done, gotData, broken, holdReleased, writeInFlight := false, false, false, false, false, false;
      reactor, ctx, joinable := None, None, false;
      queue, subs := [], map[];
    }

    method Start() returns (spawned: bool)
      modifies this
      ensures View() == StartSection(old(View()))
      ensures spawned == !old(joinable)
    {
      if joinable { return false; }
      stopping := false;
      joinable := true;
      return true;
    }

    method Stop() returns (release: Option<ConnId>, cancel: Option<ConnId>, joins: bool)
      modifies this
      ensures Outcome(View(), None, release, cancel) == StopSection(old(View()))
      ensures joins == old(joinable)
    {
      release, cancel := None, None;
      stopping := true;
      broken := true;
      if reactor.Some? && !holdReleased {
        holdReleased := true;
        release := reactor;
      }
      if ctx.Some? { cancel := ctx; }
      joins := joinable;
      joinable := false;
    }

    /** Open connection `c`: reset the connection's flags and queue every registered request. */
    method Setup(c: ConnId) returns (ready: bool, ghost order: seq<string>)
      modifies this
      ensures ready == !old(stopping)
      ensures !ready ==> View() == old(View())
      ensures ready ==> Enumerates(order, old(subs))
      ensures ready ==> View() == SetupSection(old(View()), c, Replay(old(subs), order))
    {
      hide Replay, Enumerates;
      order := [];
      if stopping { return false, order; }
      ctx := Some(c);
      done, broken, holdReleased, gotData, writeInFlight := false, false, false, false, false;
      queue, order := QueueAll(subs);
      ready := true;
    }

    method Publish(c: ConnId) returns (write: Option<Write>, release: Option<ConnId>)
      modifies this
      ensures Outcome(View(), write, release, None) == PublishSection(old(View()), c)
    {
      write, release := None, None;
      if !done {
        reactor := Some(c);
        if (stopping || broken) && !holdReleased {
          holdReleased := true;
          release := Some(c);
        } else {
          write := MaybeWriteLocked();
        }
      }
    }

    method FinishConnection()
      modifies this
      ensures View() == FinishSection(old(View()))
    {
      ctx := None;
    }

    method MaybeWriteLocked() returns (write: Option<Write>)
      modifies this
      ensures Outcome(View(), write, None, None) == MaybeWrite(old(View()))
    {
      if reactor.None? || broken || holdReleased || writeInFlight || queue == [] { return None; }
      writeInFlight := true;
      var next := queue[0];
      queue := queue[1..];
      write := Some(Write(reactor.value, next));
    }

    method HandleWriteDone(ok: bool) returns (write: Option<Write>, release: Option<ConnId>)
      modifies this
      ensures Outcome(View(), write, release, None) ==
              if ok then WriteDoneSection(old(View())) else ReadClosedSection(old(View()))
    {
      write, release := None, None;
      if !ok {
        release := HandleReadClosed();
        return;
      }
      writeInFlight := false;
      write := MaybeWriteLocked();
    }

    method HandleReadClosed() returns (release: Option<ConnId>)
      modifies this
      ensures Outcome(View(), None, release, None) == ReadClosedSection(old(View()))
    {
      release := None;
      broken := true;
      if reactor.Some? && !holdReleased {
        holdReleased := true;
        release := reactor;
      }
    }

    method HandleResponse() returns (first: bool)
      modifies this
      ensures View() == DataSection(old(View()))
      ensures first == !old(gotData)
    {
      first := false;
      if !gotData {
        gotData := true;
        first := true;
      }
    }

    method HandleDone()
      modifies this
      ensures View() == DoneSection(old(View()))
    {
      reactor := None;
      done := true;
    }

    method RememberLocked(r: Request)
      modifies this`subs
      ensures subs == RememberUpTo(old(subs), r, Count(r))
    {
      hide Key, Single;
      var keys := BuildKeys(r);
      for i := 0 to |keys|
        invariant subs == RememberUpTo(old(subs), r, i)
      {
        subs := subs[keys[i] := Single(r, i)];
      }
    }

    method ForgetLocked(r: Request)
      modifies this`subs
      ensures subs == ForgetUpTo(old(subs), r, Count(r))
    {
      hide Key, Single;
      var keys := BuildKeys(r);
      for i := 0 to |keys|
        invariant subs == ForgetUpTo(old(subs), r, i)
      {
        subs := subs - {keys[i]};
      }
    }

    method Send(r: Request, remember: bool) returns (write: Option<Write>)
      modifies this
      ensures Outcome(View(), write, None, None) == SendSection(old(View()), r, remember)
    {
      hide Key, Single, RememberUpTo, ForgetUpTo, MaybeWrite;
      write := None;
      if stopping { return; }
      if remember {
        var action := ActionOf(r);
        if action == ActionSubscribe {
          RememberLocked(r);
        } else if action == ActionUnsubscribe {
          ForgetLocked(r);
        }
      }
      if reactor.Some? && !broken && !holdReleased {
        queue := queue + [r];
        write := MaybeWriteLocked();
      }
    }
  }
}
