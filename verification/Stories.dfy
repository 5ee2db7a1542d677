/**
 * What a stream tells its user, and how long it waits after each break: the order of state notifications, read
 * as rounds, and the backoff that follows from them. Both kinds of stream share it.
 */
module Stories {
  import opened Basics

  datatype Config = Config(initialBackoff: int, maxBackoff: int, reconnect: bool)

  datatype Event = Connecting | Connected | Disconnected | Stopped

  // ---- notifications ------------------------------------------------------------------------

  /** Whole rounds: (connecting connected? disconnected)*. */
  predicate Rounds(es: seq<Event>) {
    var n := |es|;
    || n == 0
    || (n >= 2 && es[n - 2..] == [Connecting, Disconnected] && Rounds(es[..n - 2]))
    || (n >= 3 && es[n - 3..] == [Connecting, Connected, Disconnected] && Rounds(es[..n - 3]))
  }

  /** Whole rounds followed by `tail`. */
  predicate EndsWith(es: seq<Event>, tail: seq<Event>) {
    |tail| <= |es| && es[|es| - |tail|..] == tail && Rounds(es[..|es| - |tail|])
  }

  /** (connecting connected? disconnected)* (connecting connected?)? stopped */
  predicate Complete(es: seq<Event>) {
    EndsWith(es, [Stopped]) || EndsWith(es, [Connecting, Stopped]) || EndsWith(es, [Connecting, Connected, Stopped])
  }

  predicate Trying(es: seq<Event>) {
    EndsWith(es, [Connecting]) || EndsWith(es, [Connecting, Connected])
  }

  lemma NothingToldYet()
    ensures Rounds([])
  {
  }

  lemma Extend(es: seq<Event>, tail: seq<Event>, e: Event)
    requires EndsWith(es, tail)
    ensures EndsWith(es + [e], tail + [e])
  {
    assert (es + [e])[..|es + [e]| - |tail + [e]|] == es[..|es| - |tail|];
  }

  lemma ExtendRounds(es: seq<Event>, e: Event)
    requires Rounds(es)
    ensures EndsWith(es + [e], [e])
  {
  }

  lemma ExtendTrying(es: seq<Event>, e: Event)
    requires Trying(es)
    ensures EndsWith(es + [e], [Connecting, e]) || EndsWith(es + [e], [Connecting, Connected, e])
  {
    hide Rounds, EndsWith;
    assert [Connecting] + [e] == [Connecting, e];
    assert [Connecting, Connected] + [e] == [Connecting, Connected, e];
    if EndsWith(es, [Connecting]) { Extend(es, [Connecting], e); }
    else { Extend(es, [Connecting, Connected], e); }
  }

  lemma RoundEnds(es: seq<Event>)
    requires EndsWith(es, [Connecting, Disconnected]) || EndsWith(es, [Connecting, Connected, Disconnected])
    ensures Rounds(es)
  {
  }

  /** A disconnection ends the round. */
  lemma BreakEndsRound(es: seq<Event>)
    requires Trying(es)
    ensures Rounds(es + [Disconnected])
  {
    hide Rounds, EndsWith;
    ExtendTrying(es, Disconnected);
    RoundEnds(es + [Disconnected]);
  }

  /** Stopped completes the story, between rounds or within one. */
  lemma StopCompletes(es: seq<Event>)
    requires Rounds(es) || Trying(es)
    ensures Complete(es + [Stopped])
  {
    hide Rounds, EndsWith;
    if Rounds(es) { ExtendRounds(es, Stopped); } else { ExtendTrying(es, Stopped); }
  }

  // ---- breaks ----------------------------------------------------------------------------------

  /** For each disconnection told, whether its round told of a connection: whether it came right after one. */
  function Carried(es: seq<Event>): seq<bool> {
    if es == [] then []
    else
      var n := |es| - 1;
      Carried(es[..n]) + if es[n].Disconnected? then [n > 0 && es[n - 1].Connected?] else []
  }

  lemma {:induction false} CarriedAppend(es: seq<Event>, e: Event)
    ensures Carried(es + [e]) ==
      Carried(es) + if e.Disconnected? then [es != [] && es[|es| - 1].Connected?] else []
  {
    assert (es + [e])[..|es|] == es;
  }

  // ---- backoff ---------------------------------------------------------------------------------

  /** Backoff before the next attempt: doubled per attempt up to 2^8, capped. */
  function Delay(cfg: Config, attempt: nat): int {
    var d := cfg.initialBackoff * Pow2(if attempt < 8 then attempt else 8);
    if d > cfg.maxBackoff then cfg.maxBackoff else d
  }

  /** The latest connection up to break `k` that carried data, or the first one if none did. */
  function Healthy(breaks: seq<bool>, k: nat): (j: nat)
    requires k < |breaks|
    ensures j <= k && (breaks[j] || j == 0)
    ensures forall i :: j < i <= k ==> !breaks[i]
  {
    if breaks[k] || k == 0 then k else Healthy(breaks, k - 1)
  }

  lemma HealthyStep(breaks: seq<bool>, k: nat)
    requires k < |breaks|
    ensures Healthy(breaks, k) == if breaks[k] || k == 0 then k else Healthy(breaks, k - 1)
  {
  }

  lemma {:induction false} HealthyAppend(breaks: seq<bool>, b: bool, k: nat)
    requires k < |breaks|
    ensures Healthy(breaks + [b], k) == Healthy(breaks, k)
  {
    if k > 0 { HealthyAppend(breaks, b, k - 1); }
  }

  /** Each wait is the one its distance from the latest healthy connection calls for; so will the next be. */
  ghost predicate PacedBy(cfg: Config, breaks: seq<bool>, waits: seq<int>, attempt: nat) {
    && |waits| == |breaks|
    && (forall k :: 0 <= k < |waits| ==> waits[k] == Delay(cfg, k - Healthy(breaks, k)))
    && attempt == if breaks == [] then 0 else |breaks| - Healthy(breaks, |breaks| - 1)
  }

  /** Each wait follows from the notifications: its distance from the latest connection told as connected. */
  ghost predicate WaitsFollow(cfg: Config, es: seq<Event>, waits: seq<int>) {
    forall k :: 0 <= k < |waits| ==> k < |Carried(es)| && waits[k] == Delay(cfg, k - Healthy(Carried(es), k))
  }

  lemma BreakPaces(cfg: Config, breaks: seq<bool>, waits: seq<int>, attempt: nat, b: bool)
    requires PacedBy(cfg, breaks, waits, attempt)
    ensures var e := if b then 0 else attempt; PacedBy(cfg, breaks + [b], waits + [Delay(cfg, e)], e + 1)
  {
    hide Delay, Healthy;
    HealthyStep(breaks + [b], |breaks|);
    forall k | 0 <= k < |breaks| ensures Healthy(breaks + [b], k) == Healthy(breaks, k) {
      HealthyAppend(breaks, b, k);
    }
  }
}
