/** The blocking unary call: attempts, retries and the waits between them. Durations are milliseconds. */
module Unary {
  import opened Basics
  import opened RateLimits
  import RateLimiter

  datatype Code = Ok | ResourceExhausted | Unavailable | OtherCode(code: int)

  /** A finished call: its status and the `x-ratelimit-reset` seconds, negative when absent. */
  datatype Response = Response(code: Code, resetSeconds: int)

  /** The client's retry policy and the per-call override. */
  datatype Policy = Policy(maxAttempts: int, onRateLimit: bool, onUnavailable: bool, maxWait: int, retry: Option<bool>)

  predicate Retryable(p: Policy, r: Response) {
    && ((r.code.ResourceExhausted? && p.onRateLimit) || (r.code.Unavailable? && p.onUnavailable))
    && (p.retry.Some? ==> p.retry.value)
  }

  function Cap(p: Policy): int {
    if p.maxAttempts > 1 then p.maxAttempts else 1
  }

  /** The wait after failed attempt `k`. */
  function Delay(r: Response, k: nat): int
    requires k >= 1
  {
    if r.code.ResourceExhausted? then
      if r.resetSeconds >= 0 then 1000 * r.resetSeconds + 200 else 1000 * k
    else 100 * Pow2(if k - 1 < 8 then k - 1 else 8)
  }

  /** The call ends with attempt `k`. */
  predicate Stops(p: Policy, response: nat -> Response, k: nat)
    requires k >= 1
  {
    var r := response(k);
    r.code.Ok? || !Retryable(p, r) || k >= Cap(p) || Delay(r, k) > p.maxWait
  }

  /** Total wait over the attempts before `n`. */
  function Slept(response: nat -> Response, n: nat): int {
    if n <= 1 then 0 else Slept(response, n - 1) + Delay(response(n - 1), n - 1)
  }

  // ---- the limiter's view of a call ------------------------------------------------------------------

  /** The first `k` turns, or all there are. */
  function First(turns: seq<Turn>, k: nat): seq<Turn> {
    if k <= |turns| then turns[..k] else turns
  }

  /** The attempts on a group that had seen `before`, once the call has been served for `used` attempts. */
  function Timeline(before: seq<int>, turns: nat -> seq<Turn>, used: seq<nat>): seq<int> {
    if used == [] then before
    else
      var n := |used|;
      Timeline(before, turns, used[..n - 1]) + Attempts(First(turns(n), used[n - 1]))
  }

  /** Attempt number i + 1 of the call got its slot in its turn number used[i]. */
  ghost predicate Booked(limit: int, length: int, before: seq<int>, turns: nat -> seq<Turn>, used: seq<nat>) {
    used != [] ==>
      var n := |used|;
      && Booked(limit, length, before, turns, used[..n - 1])
      && Served(limit, length, Timeline(before, turns, used[..n - 1]), turns(n), used[n - 1])
  }

  /** How many attempts of the call started in [lo, hi), by the reading that served them. */
  function Started(turns: nat -> seq<Turn>, used: seq<nat>, lo: int, hi: int): nat {
    if used == [] then 0
    else
      var n := |used|;
      var waited := First(turns(n), used[n - 1]);
      Started(turns, used[..n - 1], lo, hi) +
      if waited != [] && lo <= waited[|waited| - 1].reading < hi then 1 else 0
  }

  lemma NothingBooked(limit: int, length: int, before: seq<int>, turns: nat -> seq<Turn>)
    ensures Booked(limit, length, before, turns, []) && Timeline(before, turns, []) == before
  {
  }

  lemma BookOne(limit: int, length: int, before: seq<int>, turns: nat -> seq<Turn>, used: seq<nat>, k: nat)
    requires Booked(limit, length, before, turns, used)
    requires Served(limit, length, Timeline(before, turns, used), turns(|used| + 1), k)
    ensures Booked(limit, length, before, turns, used + [k])
    ensures Timeline(before, turns, used + [k]) == Timeline(before, turns, used) + Attempts(turns(|used| + 1)[..k])
  {
    hide RefusedAt;
    assert (used + [k])[..|used|] == used;
  }

  /** One more attempt served is one more grant, at the reading that served it. */
  lemma OneGrantMore(limit: int, length: int, before: seq<int>, turns: seq<Turn>, k: nat, lo: int, hi: int)
    requires Served(limit, length, before, turns, k)
    ensures var l, m := Run(limit, length, before), Run(limit, length, before + Attempts(turns[..k]));
      && l.grants <= m.grants && |m.grants| > |l.grants|
      && Within(m.grants, lo, hi) >= Within(l.grants, lo, hi) + if lo <= turns[k - 1].reading < hi then 1 else 0
  {
    hide Run, RefusedAt;
    ServedTakesOneSlot(limit, length, before, turns, k);
    var waited := Attempts(turns[..k - 1]) + turns[k - 1].others;
    RunExtends(limit, length, before, waited);
    assert before + waited == before + Attempts(turns[..k - 1]) + turns[k - 1].others;
    var l, m := Run(limit, length, before + waited), Run(limit, length, before + Attempts(turns[..k]));
    WithinPrefix(Run(limit, length, before).grants, l.grants, lo, hi);
    assert m.grants[..|m.grants| - 1] == l.grants;
  }

  /** Each attempt of a call is one grant of its own in the group's ledger. */
  lemma {:induction false} AttemptsAreGrants(
    limit: int, length: int, before: seq<int>, turns: nat -> seq<Turn>, used: seq<nat>, lo: int, hi: int)
    requires Booked(limit, length, before, turns, used)
    ensures var l, m := Run(limit, length, before), Run(limit, length, Timeline(before, turns, used));
      && l.grants <= m.grants && |m.grants| >= |l.grants| + |used|
      && Within(m.grants, lo, hi) >= Within(l.grants, lo, hi) + Started(turns, used, lo, hi)
  {
    hide Run, RefusedAt, Within;
    if used != [] {
      var n := |used|;
      AttemptsAreGrants(limit, length, before, turns, used[..n - 1], lo, hi);
      OneGrantMore(limit, length, Timeline(before, turns, used[..n - 1]), turns(n), used[n - 1], lo, hi);
    }
  }

  /** So the limiter bounds the calls: of one call's attempts, at most 2 * limit start within one window length. */
  lemma AttemptsAreLimited(
    limit: int, length: int, before: seq<int>, turns: nat -> seq<Turn>, used: seq<nat>, lo: int)
    requires limit > 0 && length > 0 && Booked(limit, length, before, turns, used)
    requires Clock(Timeline(before, turns, used))
    ensures Started(turns, used, lo, lo + length) <= 2 * limit
  {
    hide Run, Served;
    AttemptsAreGrants(limit, length, before, turns, used, lo, lo + length);
    IntervalHoldsTwiceLimit(limit, length, Timeline(before, turns, used), lo);
  }

  lemma {:induction false} SleptBound(p: Policy, response: nat -> Response, n: nat)
    requires n >= 1 && forall k :: 1 <= k < n ==> !Stops(p, response, k)
    ensures 0 <= Slept(response, n) && (n > 1 ==> Slept(response, n) <= (n - 1) * p.maxWait)
  {
    if n > 1 {
      SleptBound(p, response, n - 1);
      assert !Stops(p, response, n - 1);
      assert (n - 1) * p.maxWait == (n - 2) * p.maxWait + p.maxWait;
    }
  }

  // ---- the call -----------------------------------------------------------------------------------------

  /**
   * On any stream of responses the call returns the first one that ends it: success, a failure that is not
   * retryable, the attempt cap, or a wait above the maximum. The waits add up to at most `maxWait` per retry.
   *
   * Each attempt first acquires from the limiter, over the turns given for it. A method outside the table
   * touches no group; a listed one gets one slot of its group per attempt, and if the turns of an attempt
   * run out before it is served the call is left waiting there, without a result.
   */
  method UnarySync(
    limiter: RateLimiter.RateLimiter, m: string, p: Policy, response: nat -> Response, turns: nat -> seq<Turn>)
    returns (result: Option<Response>, attempts: nat, slept: int, ghost used: seq<nat>)
    requires m in limiter.byMethod ==> limiter.byMethod[m].Follows(limiter.length)
    modifies if m in limiter.byMethod then {limiter.byMethod[m]} else {}
    ensures attempts <= Cap(p) && forall k :: 1 <= k < attempts ==> !Stops(p, response, k)
    ensures result.Some? ==> 1 <= attempts && Stops(p, response, attempts) && result.value == response(attempts)
    ensures result.None? ==> attempts < Cap(p) && (attempts >= 1 ==> !Stops(p, response, attempts))
    ensures slept == Slept(response, if result.Some? then attempts else attempts + 1)
    ensures 0 <= slept && (attempts >= 1 ==> slept <= (if result.Some? then attempts - 1 else attempts) * p.maxWait)
    ensures m !in limiter.byMethod ==> result.Some?
    ensures m in limiter.byMethod && limiter.byMethod[m].limit <= 0 && (forall k :: turns(k) != []) ==> result.Some?
    ensures m in limiter.byMethod ==> var g, length := limiter.byMethod[m], limiter.length;
      && g.Follows(length) && |used| == attempts && Booked(g.limit, length, old(g.times), turns, used)
      && (result.Some? ==> g.times == Timeline(old(g.times), turns, used))
      && (result.None? ==>
            && g.times == Timeline(old(g.times), turns, used) + Attempts(turns(attempts + 1))
            && StillWaiting(g.limit, length, Timeline(old(g.times), turns, used), turns(attempts + 1)))
  {
    hide Run, Served, StillWaiting, Booked, Timeline, Attempts, Pow2;
    hide RateLimiter.Group.Follows, RateLimiter.Group.View;
    if m in limiter.byMethod {
      NothingBooked(limiter.byMethod[m].limit, limiter.length, limiter.byMethod[m].times, turns);
    }
    var attempt := 1;
    slept, used := 0, [];
    while true
      invariant 1 <= attempt <= Cap(p)
      invariant forall k :: 1 <= k < attempt ==> !Stops(p, response, k)
      invariant slept == Slept(response, attempt)
      invariant m in limiter.byMethod ==> var g, length := limiter.byMethod[m], limiter.length;
        && g.Follows(length) && |used| == attempt - 1
        && Booked(g.limit, length, old(g.times), turns, used)
        && g.times == Timeline(old(g.times), turns, used)
      decreases Cap(p) - attempt
    {
      SleptBound(p, response, attempt);
      var granted, waited := limiter.Acquire(m, turns(attempt));
      if !granted {
        assert turns(attempt)[..waited] == turns(attempt);
        return None, attempt - 1, slept, used;
      }
      if m in limiter.byMethod {
        BookOne(limiter.byMethod[m].limit, limiter.length, old(limiter.byMethod[m].times), turns, used, waited);
      }
      used := used + [waited];
      var r := response(attempt);
      if r.code.Ok? { return Some(r), attempt, slept, used; }
      var retryable := (r.code.ResourceExhausted? && p.onRateLimit) || (r.code.Unavailable? && p.onUnavailable);
      if p.retry.Some? { retryable := retryable && p.retry.value; }
      if !retryable || attempt >= Cap(p) { return Some(r), attempt, slept, used; }
      var delay;
      if r.code.ResourceExhausted? {
        delay := if r.resetSeconds >= 0 then 1000 * r.resetSeconds + 200 else 1000 * attempt;
      } else {
        delay := 100 * Pow2(if attempt - 1 < 8 then attempt - 1 else 8);
      }
      if delay > p.maxWait { return Some(r), attempt, slept, used; }
      slept := slept + delay;
      attempt := attempt + 1;
    }
  }

  /** The per-call override can only narrow the policy: `true` changes nothing, `false` ends every call at once. */
  lemma OverrideOnlyNarrows(p: Policy, response: nat -> Response, k: nat)
    requires k >= 1
    ensures Stops(p.(retry := Some(true)), response, k) == Stops(p.(retry := None), response, k)
    ensures Stops(p.(retry := Some(false)), response, k)
  {
  }

  /** A forced retry comes if and only if the policy retries that code anyway, and cap and wait allow it. */
  lemma ForcedRetryIff(p: Policy, response: nat -> Response, k: nat)
    requires k >= 1 && p.retry == Some(true)
    ensures !Stops(p, response, k) <==>
      && k < Cap(p) && Delay(response(k), k) <= p.maxWait
      && match response(k).code
         case ResourceExhausted => p.onRateLimit
         case Unavailable => p.onUnavailable
         case _ => false
  {
  }

  /** So `retry = true` does not force one: an unavailable service ends the call at once if the policy says so. */
  lemma ForcedRetryIsIgnored(maxAttempts: int, onRateLimit: bool, maxWait: int, response: nat -> Response)
    requires response(1).code.Unavailable?
    ensures Stops(Policy(maxAttempts, onRateLimit, false, maxWait, Some(true)), response, 1)
  {
  }

  // ---- caps and waits -------------------------------------------------------------------------------------

  /** Where every failure may be retried and waited for, the call takes max(1, max_attempts) attempts, no fewer. */
  lemma StubbornFailureTakesAllAttempts(p: Policy, response: nat -> Response, k: nat)
    requires k >= 1 && !response(k).code.Ok? && Retryable(p, response(k)) && Delay(response(k), k) <= p.maxWait
    ensures Stops(p, response, k) <==> k >= 1 && k >= p.maxAttempts
  {
  }

  /** After RESOURCE_EXHAUSTED: the reported reset and 200 ms, or a second per attempt made if none is reported. */
  lemma WaitAfterExhaustion(r: Response, k: nat)
    requires k >= 1 && r.code.ResourceExhausted?
    ensures r.resetSeconds >= 0 ==> Delay(r, k) == r.resetSeconds * 1000 + 200
    ensures r.resetSeconds < 0 ==> Delay(r, k) == k * 1000
  {
  }

  /** After UNAVAILABLE: 100 ms at first, doubled with each attempt up to the ninth, and constant from there. */
  lemma WaitAfterUnavailable(r: Response, k: nat)
    requires k >= 1 && !r.code.ResourceExhausted?
    ensures k == 1 ==> Delay(r, k) == 100
    ensures k <= 8 ==> Delay(r, k + 1) == 2 * Delay(r, k)
    ensures k >= 9 ==> Delay(r, k) == 25600
  {
    assert Pow2(0) == 1 && Pow2(8) == 256;
  }

  /** The call sleeps between attempts, for the whole wait each time: with reset `s` before each retry, that often. */
  lemma {:induction false} SleepsEachWait(response: nat -> Response, n: nat, s: nat)
    requires n >= 1
    requires forall k :: 1 <= k < n ==> response(k).code.ResourceExhausted? && response(k).resetSeconds == s
    ensures Slept(response, n) == (n - 1) * (s * 1000 + 200)
  {
    if n > 1 {
      SleepsEachWait(response, n - 1, s);
      var w := s * 1000 + 200;
      assert (n - 1) * w == (n - 2) * w + w;
    }
  }
}
