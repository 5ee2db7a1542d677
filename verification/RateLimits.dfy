/** The fixed-window counter of one method group, over whole runs of attempts. */
module RateLimits {

  /** A group's fields: `limit`, `count`, `window_start`. */
  datatype Window = Window(limit: int, count: int, start: int)

  function Fresh(limit: int): Window {
    Window(limit, 0, 0)
  }

  function Roll(g: Window, now: int, length: int): Window {
    if now - g.start >= length then g.(start := now, count := 0) else g
  }

  datatype Attempted = Attempted(window: Window, granted: bool)

  /** One attempt at time `now`, by `try_acquire` or by one turn of `acquire`'s loop. */
  function Attempt(g: Window, now: int, length: int): Attempted {
    if g.limit <= 0 then Attempted(g, true)
    else
      var r := Roll(g, now, length);
      if r.count < r.limit then Attempted(r.(count := r.count + 1), true) else Attempted(r, false)
  }

  // ---- runs ------------------------------------------------------------------------------------

  /** A grant, with the window it was counted in. */
  datatype Grant = Grant(time: int, start: int)

  datatype Ledger = Ledger(window: Window, grants: seq<Grant>)

  function Enter(l: Ledger, now: int, length: int): Ledger {
    var a := Attempt(l.window, now, length);
    Ledger(a.window, if a.granted then l.grants + [Grant(now, a.window.start)] else l.grants)
  }

  /** A fresh group after attempts at the given times. */
  function Run(limit: int, length: int, times: seq<int>): Ledger {
    if times == [] then Ledger(Fresh(limit), [])
    else Enter(Run(limit, length, times[..|times| - 1]), times[|times| - 1], length)
  }

  /** Readings of a clock that does not run backwards, from the epoch on. */
  predicate Clock(times: seq<int>) {
    && (forall i :: 0 <= i < |times| ==> times[i] >= 0)
    && (forall i, j :: 0 <= i <= j < |times| ==> times[i] <= times[j])
  }

  // ---- what every run keeps ----------------------------------------------------------------------

  /** The last `count` grants were counted in the current window, the earlier ones at least a window before. */
  ghost predicate Sound(l: Ledger, length: int, now: int) {
    var g, n := l.window, |l.grants|;
    && 0 <= g.count <= g.limit && g.count <= n && g.start <= now
    && (forall i :: n - g.count <= i < n ==> l.grants[i].start == g.start)
    && (forall i :: 0 <= i < n - g.count ==> l.grants[i].start <= g.start - length)
    && (forall i :: 0 <= i < n ==> l.grants[i].start <= l.grants[i].time < l.grants[i].start + length)
    && (forall i :: 0 <= i < n ==> l.grants[i].time <= now)
    && (forall i, j :: 0 <= i <= j < n ==> l.grants[i].time <= l.grants[j].time)
    && (forall i, j :: 0 <= i && i + g.limit <= j < n ==> l.grants[i].start + length <= l.grants[j].start)
  }

  lemma RollKeepsSound(l: Ledger, length: int, before: int, now: int)
    requires l.window.limit > 0 && length > 0 && before <= now && Sound(l, length, before)
    ensures Sound(l.(window := Roll(l.window, now, length)), length, now)
    ensures now < Roll(l.window, now, length).start + length && 0 <= Roll(l.window, now, length).count
  {
  }

  lemma GrantKeepsSound(l: Ledger, length: int, now: int)
    requires 0 <= l.window.count < l.window.limit && Sound(l, length, now) && now < l.window.start + length
    ensures Sound(Ledger(l.window.(count := l.window.count + 1), l.grants + [Grant(now, l.window.start)]), length, now)
  {
  }

  lemma EnterKeepsSound(l: Ledger, length: int, before: int, now: int)
    requires l.window.limit > 0 && length > 0 && before <= now && Sound(l, length, before)
    ensures Sound(Enter(l, now, length), length, now)
  {
    hide Sound;
    RollKeepsSound(l, length, before, now);
    var rolled := l.(window := Roll(l.window, now, length));
    if rolled.window.count < rolled.window.limit {
      GrantKeepsSound(rolled, length, now);
    }
  }

  lemma {:induction false} RunIsSound(limit: int, length: int, times: seq<int>)
    requires limit > 0 && length > 0 && Clock(times)
    ensures Run(limit, length, times).window.limit == limit
    ensures Sound(Run(limit, length, times), length, if times == [] then 0 else times[|times| - 1])
  {
    if times != [] {
      var earlier, now := times[..|times| - 1], times[|times| - 1];
      RunIsSound(limit, length, earlier);
      EnterKeepsSound(Run(limit, length, earlier), length,
                      if earlier == [] then 0 else earlier[|earlier| - 1], now);
    }
  }

  /** Each counted window holds at most `limit` grants: grants that far apart lie in windows a length apart. */
  lemma WindowHoldsLimit(limit: int, length: int, times: seq<int>, i: nat, j: nat)
    requires limit > 0 && length > 0 && Clock(times)
    requires i + limit <= j < |Run(limit, length, times).grants|
    ensures var grants := Run(limit, length, times).grants; grants[i].start + length <= grants[j].start
  {
    RunIsSound(limit, length, times);
  }

  /** Any 2 * limit + 1 grants span more than a window length. */
  lemma GrantsSpread(limit: int, length: int, times: seq<int>, i: nat, j: nat)
    requires limit > 0 && length > 0 && Clock(times)
    requires i + 2 * limit <= j < |Run(limit, length, times).grants|
    ensures var grants := Run(limit, length, times).grants; grants[j].time - grants[i].time > length
  {
    RunIsSound(limit, length, times);
    var grants := Run(limit, length, times).grants;
    assert grants[i].start + length <= grants[i + limit].start;
    assert grants[i + limit].start + length <= grants[j].start;
  }

  /** Grants with a time in [lo, hi). */
  function Within(grants: seq<Grant>, lo: int, hi: int): nat {
    if grants == [] then 0
    else
      Within(grants[..|grants| - 1], lo, hi) + if lo <= grants[|grants| - 1].time < hi then 1 else 0
  }

  lemma {:induction false} WithinFrom(grants: seq<Grant>, lo: int, hi: int, n: nat)
    requires n <= |grants| && forall i :: 0 <= i < |grants| - n ==> grants[i].time < lo
    ensures Within(grants, lo, hi) <= n
  {
    if grants != [] {
      WithinFrom(grants[..|grants| - 1], lo, hi, if n == 0 then 0 else n - 1);
    }
  }

  lemma {:induction false} WithinBound(grants: seq<Grant>, lo: int, hi: int, n: nat)
    requires forall i, j :: 0 <= i && i + n <= j < |grants| ==> grants[j].time - grants[i].time > hi - lo
    ensures Within(grants, lo, hi) <= n
  {
    if |grants| > n {
      var last := |grants| - 1;
      if lo <= grants[last].time < hi {
        forall i | 0 <= i < |grants| - n ensures grants[i].time < lo {
          assert grants[last].time - grants[i].time > hi - lo;
        }
        WithinFrom(grants, lo, hi, n);
      } else {
        WithinBound(grants[..last], lo, hi, n);
      }
    } else {
      WithinFrom(grants, lo, hi, |grants|);
    }
  }

  /** In every run, any half-open interval of one window length contains at most 2 * limit grants. */
  lemma IntervalHoldsTwiceLimit(limit: int, length: int, times: seq<int>, lo: int)
    requires limit > 0 && length > 0 && Clock(times)
    ensures Within(Run(limit, length, times).grants, lo, lo + length) <= 2 * limit
  {
    hide Run;
    var grants := Run(limit, length, times).grants;
    forall i, j | 0 <= i && i + 2 * limit <= j < |grants| ensures grants[j].time - grants[i].time > lo + length - lo {
      GrantsSpread(limit, length, times, i, j);
    }
    WithinBound(grants, lo, lo + length, 2 * limit);
  }

  /** An attempt at `now` on a group that has seen attempts at `times` gets no slot. */
  predicate Refused(limit: int, length: int, times: seq<int>, now: int) {
    !Attempt(Run(limit, length, times).window, now, length).granted
  }

  lemma {:induction false} RunKeepsLimit(limit: int, length: int, times: seq<int>)
    ensures Run(limit, length, times).window.limit == limit
  {
    if times != [] { RunKeepsLimit(limit, length, times[..|times| - 1]); }
  }

  /** A limit of zero, as the API reports for unrestricted groups, or below never refuses. */
  lemma UnrestrictedNeverRefuses(limit: int, length: int, times: seq<int>, now: int)
    requires limit <= 0
    ensures !Refused(limit, length, times, now)
  {
    RunKeepsLimit(limit, length, times);
    hide Run;
  }

  /** Exactly `limit` grants were counted in the current window, all others at least a window before it. */
  ghost predicate Exhausted(l: Ledger, length: int) {
    var limit, n := l.window.limit, |l.grants|;
    && 0 <= limit <= n
    && (forall i :: n - limit <= i < n ==> l.grants[i].start == l.window.start)
    && (forall i :: 0 <= i < n - limit ==> l.grants[i].start <= l.window.start - length)
  }

  lemma ClockPrefix(times: seq<int>, more: seq<int>)
    requires Clock(times + more)
    ensures Clock(times)
    ensures forall i, j :: 0 <= i < |times| && 0 <= j < |more| ==> times[i] <= more[j]
    ensures forall j :: 0 <= j < |more| ==> more[j] >= 0
  {
    var all := times + more;
    assert forall i :: 0 <= i < |times| ==> all[i] == times[i];
    assert forall j :: 0 <= j < |more| ==> all[|times| + j] == more[j];
  }

  /** A refusal comes if and only if exactly `limit` grants were counted in a window that is still open. */
  lemma RefusalIsDue(limit: int, length: int, times: seq<int>, now: int)
    requires limit > 0 && length > 0 && Clock(times + [now])
    ensures var l := Run(limit, length, times);
      Refused(limit, length, times, now) <==> now < l.window.start + length && Exhausted(l, length)
  {
    ClockPrefix(times, [now]);
    RunIsSound(limit, length, times);
    var l := Run(limit, length, times);
    hide Run;
    assert Exhausted(l, length) ==> l.grants[|l.grants| - limit].start == l.window.start;
  }

  // ---- more attempts only add grants ------------------------------------------------------------------

  lemma RunSnoc(limit: int, length: int, times: seq<int>, now: int)
    ensures Run(limit, length, times + [now]) == Enter(Run(limit, length, times), now, length)
  {
    assert (times + [now])[..|times|] == times;
  }

  lemma {:induction false} RunExtends(limit: int, length: int, times: seq<int>, more: seq<int>)
    ensures Run(limit, length, times).grants <= Run(limit, length, times + more).grants
    ensures |Run(limit, length, times + more).grants| <= |Run(limit, length, times).grants| + |more|
    decreases |more|
  {
    if more == [] {
      assert times + more == times;
    } else {
      var most, last := more[..|more| - 1], more[|more| - 1];
      RunExtends(limit, length, times, most);
      RunSnoc(limit, length, times + most, last);
      assert times + most + [last] == times + more;
    }
  }

  lemma {:induction false} WithinPrefix(grants: seq<Grant>, more: seq<Grant>, lo: int, hi: int)
    requires grants <= more
    ensures Within(grants, lo, hi) <= Within(more, lo, hi)
    decreases |more|
  {
    if |grants| < |more| { WithinPrefix(grants, more[..|more| - 1], lo, hi); } else { assert grants == more; }
  }

  // ---- the bound is attained -----------------------------------------------------------------------

  function Repeat(t: int, n: nat): seq<int> {
    seq(n, _ => t)
  }

  /** One attempt that finds room. */
  lemma OneMore(l: Ledger, t: int, length: int)
    requires length > 0 && Roll(l.window, t, length).count < l.window.limit && l.window.limit > 0
    ensures var r := Roll(l.window, t, length);
      && Enter(l, t, length) == Ledger(r.(count := r.count + 1), l.grants + [Grant(t, r.start)])
      && forall c :: Roll(r.(count := c), t, length) == r.(count := c)
  {
  }

  lemma {:induction false} Burst(limit: int, length: int, times: seq<int>, t: int, n: nat)
    requires limit > 0 && length > 0 && n > 0
    requires var g := Roll(Run(limit, length, times).window, t, length); g.limit == limit && g.count + n <= limit
    ensures var l := Run(limit, length, times);
      var g := Roll(l.window, t, length);
      Run(limit, length, times + Repeat(t, n)) ==
      Ledger(g.(count := g.count + n), l.grants + seq(n, _ => Grant(t, g.start)))
  {
    hide Run, Enter, Attempt;
    var l := Run(limit, length, times);
    var g := Roll(l.window, t, length);
    OneMore(l, t, length);
    var most := times + Repeat(t, n - 1);
    assert times + Repeat(t, n) == most + [t];
    RunSnoc(limit, length, most, t);
    if n == 1 {
      assert most == times;
      assert seq(1, _ => Grant(t, g.start)) == [Grant(t, g.start)];
    } else {
      Burst(limit, length, times, t, n - 1);
      var m := Run(limit, length, most);
      assert Roll(m.window, t, length) == m.window;
      OneMore(m, t, length);
      assert seq(n - 1, _ => Grant(t, g.start)) + [Grant(t, g.start)] == seq(n, _ => Grant(t, g.start));
    }
  }

  lemma {:induction false} WithinAll(grants: seq<Grant>, lo: int, hi: int)
    requires forall i :: 0 <= i < |grants| ==> lo <= grants[i].time < hi
    ensures Within(grants, lo, hi) == |grants|
  {
    if grants != [] { WithinAll(grants[..|grants| - 1], lo, hi); }
  }

  /** For every limit, attempts around a window boundary do get 2 * limit grants within one length. */
  lemma TwiceLimitIsReached(limit: nat, length: int)
    requires limit > 0 && length >= 2
    ensures var times := Repeat(length - 1, limit) + Repeat(length, limit);
      Clock(times) && Within(Run(limit, length, times).grants, length - 1, 2 * length - 1) == 2 * limit
  {
    hide Run, Within;
    TwoBursts(limit, length);
    WithinAll(Run(limit, length, Repeat(length - 1, limit) + Repeat(length, limit)).grants, length - 1, 2 * length - 1);
  }

  lemma TwoBursts(limit: nat, length: int)
    requires limit > 0 && length >= 2
    ensures Run(limit, length, Repeat(length - 1, limit) + Repeat(length, limit)).grants ==
      seq(limit, _ => Grant(length - 1, 0)) + seq(limit, _ => Grant(length, length))
  {
    hide Run;
    var first, grants := Repeat(length - 1, limit), seq(limit, _ => Grant(length - 1, 0));
    NoAttempts(limit, length);
    Burst(limit, length, [], length - 1, limit);
    assert [] + first == first && [] + grants == grants;
    Burst(limit, length, first, length, limit);
  }

  lemma NoAttempts(limit: int, length: int)
    ensures Run(limit, length, []) == Ledger(Fresh(limit), [])
  {
  }

  // ---- waiting ---------------------------------------------------------------------------------------

  /** One turn of `acquire`'s loop: what other threads attempted on the group before it, and its own reading. */
  datatype Turn = Turn(others: seq<int>, reading: int)

  /** The attempts made on the group up to the end of the given turns. */
  function Attempts(turns: seq<Turn>): seq<int> {
    if turns == [] then []
    else
      var last := turns[|turns| - 1];
      Attempts(turns[..|turns| - 1]) + last.others + [last.reading]
  }

  /** The waiter's own attempt of turn `k` gets no slot, on a group that had seen attempts `before`. */
  predicate RefusedAt(limit: int, length: int, before: seq<int>, turns: seq<Turn>, k: nat)
    requires k < |turns|
  {
    Refused(limit, length, before + Attempts(turns[..k]) + turns[k].others, turns[k].reading)
  }

  /** The waiter gets its slot in turn number `used`, the first that is not refused. */
  ghost predicate Served(limit: int, length: int, before: seq<int>, turns: seq<Turn>, used: nat) {
    && 1 <= used <= |turns| && !RefusedAt(limit, length, before, turns, used - 1)
    && forall k :: 0 <= k < used - 1 ==> RefusedAt(limit, length, before, turns, k)
  }

  /** The waiter is still waiting after all its turns. */
  ghost predicate StillWaiting(limit: int, length: int, before: seq<int>, turns: seq<Turn>) {
    forall k :: 0 <= k < |turns| ==> RefusedAt(limit, length, before, turns, k)
  }

  /**
   * Whatever other threads do: a waiter that was refused in one window, and is refused again when that window
   * is over, was passed over by `limit` new grants in between. A lone waiter is served there.
   */
  lemma PassedOverOnlyByOthers(limit: int, length: int, times: seq<int>, now: int, others: seq<int>, next: int)
    requires limit > 0 && length > 0 && Clock(times + [now] + others + [next])
    requires Refused(limit, length, times, now) && Refused(limit, length, times + [now] + others, next)
    requires next >= Run(limit, length, times).window.start + length
    ensures var l, m := Run(limit, length, times), Run(limit, length, times + [now] + others);
      |others| >= |m.grants| - |l.grants| >= limit && m.window.start > l.window.start
  {
    hide Run;
    var l, m := Run(limit, length, times), Run(limit, length, times + [now] + others);
    ClockPrefix(times + [now] + others, [next]);
    ClockPrefix(times + [now], others);
    RefusalIsDue(limit, length, times, now);
    RefusalIsDue(limit, length, times + [now] + others, next);
    RunSnoc(limit, length, times, now);
    RunExtends(limit, length, times + [now], others);
    ClockPrefix(times, [now]);
    RunIsSound(limit, length, times);
    RunIsSound(limit, length, times + [now] + others);
    assert l.grants[|l.grants| - 1] == m.grants[|l.grants| - 1];
  }

  /** The slot a served waiter gets is one new grant, at its last reading. */
  lemma ServedTakesOneSlot(limit: int, length: int, before: seq<int>, turns: seq<Turn>, used: nat)
    requires Served(limit, length, before, turns, used)
    ensures var last := turns[used - 1];
      var l := Run(limit, length, before + Attempts(turns[..used - 1]) + last.others);
      var m := Run(limit, length, before + Attempts(turns[..used]));
      && |m.grants| == |l.grants| + 1 && m.grants[..|l.grants|] == l.grants
      && m.grants[|l.grants|].time == last.reading
  {
    var last, most := turns[used - 1], Attempts(turns[..used - 1]);
    assert turns[..used][..used - 1] == turns[..used - 1];
    assert before + Attempts(turns[..used]) == before + most + last.others + [last.reading];
    RunSnoc(limit, length, before + most + last.others, last.reading);
    hide Run;
  }
}
