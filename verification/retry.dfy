/**
 * The bounded retry of `connectToBrowser`: dial a target, and after each
 * failure either give up (no retries left) or pause and dial again.
 */
module Retry {
  import opened Cdp

  /** Initial value of `remainingRetries`. */
  const InitialRetries: nat := 5

  /** Pause between two dials, in milliseconds. */
  const PauseMs: nat := 500

  /** What one dial of the protocol library yields. */
  datatype DialOutcome = Connected | DialFailed(error: Error)

  /** Outcome of the k-th dial (counting from 0) of one retry loop. */
  type Dialer = nat -> DialOutcome

  /**
   * A retry run: `Ok(k)` when dial number k connected, or the error that
   * was rethrown; and the calls made.
   */
  datatype RetryRun = RetryRun(result: Result<nat>, trace: seq<Call>)

  /** n dials of `target`, with one pause between consecutive dials. */
  function Attempts(target: Option<string>, n: nat): seq<Call>
  {
    if n == 0 then []
    else if n == 1 then [Dial(target)]
    else [Dial(target), Pause(PauseMs)] + Attempts(target, n - 1)
  }

  /** Number of dials in a trace. */
  function DialCount(trace: seq<Call>): nat
  {
    if trace == [] then 0 else (if trace[0].Dial? then 1 else 0) + DialCount(trace[1..])
  }

  /** Total time spent pausing in a trace, in milliseconds. */
  function PausedMs(trace: seq<Call>): nat
  {
    if trace == [] then 0 else (if trace[0].Pause? then trace[0].ms else 0) + PausedMs(trace[1..])
  }

  lemma {:induction false} AttemptsCount(target: Option<string>, n: nat)
    requires n >= 1
    ensures DialCount(Attempts(target, n)) == n
    ensures PausedMs(Attempts(target, n)) == (n - 1) * PauseMs
  {
    if n > 1 {
      var rest := Attempts(target, n - 1);
      var trace := [Dial(target), Pause(PauseMs)] + rest;
      AttemptsCount(target, n - 1);
      assert Attempts(target, n) == trace;
      assert trace[1..] == [Pause(PauseMs)] + rest;
      assert trace[1..][1..] == rest;
    }
  }

  /**
   * The loop of `connectToBrowser` from dial number k on, with `remaining`
   * retries left.
   */
  function RetryFrom(target: Option<string>, dial: Dialer, remaining: nat, k: nat): (r: RetryRun)
    ensures r.result.Ok? ==>
      k <= r.result.value <= k + remaining && dial(r.result.value) == Connected
      && (forall i :: k <= i < r.result.value ==> dial(i).DialFailed?)
    ensures r.result.Err? ==>
      (forall i :: k <= i <= k + remaining ==> dial(i).DialFailed?)
      && dial(k + remaining) == DialFailed(r.result.error)
    decreases remaining
  {
    match dial(k)
    case Connected => RetryRun(Ok(k), [Dial(target)])
    case DialFailed(e) =>
      // `remainingRetries <= 0`: a nat is never negative
      if remaining == 0 then RetryRun(Err(e), [Dial(target)])
      else
        var rest := RetryFrom(target, dial, remaining - 1, k + 1);
        RetryRun(rest.result, [Dial(target), Pause(PauseMs)] + rest.trace)
  }

  /** Number of dials a run from dial number k with `remaining` retries made. */
  function DialsMade(r: Result<nat>, remaining: nat, k: nat): nat
  {
    if r.Ok? && r.value >= k then r.value - k + 1 else remaining + 1
  }

  /** Every dial but the last is followed by one pause of 500 ms. */
  lemma {:induction false} RetryTrace(target: Option<string>, dial: Dialer, remaining: nat, k: nat)
    ensures var r := RetryFrom(target, dial, remaining, k);
      r.trace == Attempts(target, DialsMade(r.result, remaining, k))
    decreases remaining
  {
    if dial(k).DialFailed? && remaining > 0 {
      RetryTrace(target, dial, remaining - 1, k + 1);
    }
  }

  /** A dial that fails from dial k up to dial n and then connects, within the budget. */
  lemma {:induction false} SucceedsAt(target: Option<string>, dial: Dialer, remaining: nat, k: nat, n: nat)
    requires k <= n <= k + remaining
    requires forall i :: k <= i < n ==> dial(i).DialFailed?
    requires dial(n) == Connected
    ensures RetryFrom(target, dial, remaining, k) == RetryRun(Ok(n), Attempts(target, n - k + 1))
    decreases remaining
  {
    if k < n {
      assert dial(k).DialFailed?;
      SucceedsAt(target, dial, remaining - 1, k + 1, n);
      assert Attempts(target, n - k + 1) == [Dial(target), Pause(PauseMs)] + Attempts(target, n - (k + 1) + 1);
    }
  }

  /** Some dial within the budget connects. */
  ghost predicate Reachable(dial: Dialer)
  {
    exists k :: 0 <= k <= InitialRetries && dial(k) == Connected
  }

  /** The loop returns a connection exactly when one of the first six dials connects. */
  lemma ReachableIff(target: Option<string>, dial: Dialer)
    ensures RetryFrom(target, dial, InitialRetries, 0).result.Ok? <==> Reachable(dial)
  {
  }

  /** A dial that fails n times (n at most 5) and then connects: n + 1 dials, n pauses of 500 ms. */
  lemma SucceedsAfterFailures(target: Option<string>, dial: Dialer, n: nat)
    requires n <= InitialRetries
    requires forall i :: 0 <= i < n ==> dial(i).DialFailed?
    requires dial(n) == Connected
    ensures var r := RetryFrom(target, dial, InitialRetries, 0);
      r.result == Ok(n) && DialCount(r.trace) == n + 1 && PausedMs(r.trace) == n * PauseMs
  {
    var r := RetryFrom(target, dial, InitialRetries, 0);
    SucceedsAt(target, dial, InitialRetries, 0, n);
    var trace := Attempts(target, n + 1);
    assert r.trace == trace;
    AttemptsCount(target, n + 1);
  }

  /**
   * When every dial fails the loop makes six dials with five pauses and
   * rethrows the error of the sixth dial.
   */
  lemma ExhaustsBudget(target: Option<string>, dial: Dialer)
    requires forall i :: 0 <= i <= InitialRetries ==> dial(i).DialFailed?
    ensures var r := RetryFrom(target, dial, InitialRetries, 0);
      r.result == Err(dial(InitialRetries).error)
      && DialCount(r.trace) == 6 && PausedMs(r.trace) == 5 * PauseMs
  {
    RetryTrace(target, dial, InitialRetries, 0);
    AttemptsCount(target, InitialRetries + 1);
  }

  /** The `for (;;)` loop of `connectToBrowser`, without the connection object it returns. */
  method RetryDial(target: Option<string>, dial: Dialer) returns (result: Result<nat>, trace: seq<Call>)
    ensures RetryRun(result, trace) == RetryFrom(target, dial, InitialRetries, 0)
    ensures result.Ok? ==> result.value <= InitialRetries && dial(result.value) == Connected
    ensures result.Err? ==> dial(InitialRetries) == DialFailed(result.error)
  {
    ghost var whole := RetryFrom(target, dial, InitialRetries, 0);
    var remainingRetries := InitialRetries;
    var k := 0;
    trace := [];
    while true
      invariant k + remainingRetries == InitialRetries
      invariant whole.result == RetryFrom(target, dial, remainingRetries, k).result
      invariant whole.trace == trace + RetryFrom(target, dial, remainingRetries, k).trace
      decreases remainingRetries
    {
      ghost var rest := RetryFrom(target, dial, remainingRetries, k);
      var outcome := dial(k);
      if outcome.Connected? {
        assert rest == RetryRun(Ok(k), [Dial(target)]);
        result, trace := Ok(k), trace + [Dial(target)];
        break;
      }
      if remainingRetries == 0 {
        assert rest == RetryRun(Err(outcome.error), [Dial(target)]);
        result, trace := Err(outcome.error), trace + [Dial(target)];
        break;
      }
      ghost var next := RetryFrom(target, dial, remainingRetries - 1, k + 1);
      assert rest == RetryRun(next.result, [Dial(target), Pause(PauseMs)] + next.trace);
      assert trace + rest.trace == (trace + [Dial(target), Pause(PauseMs)]) + next.trace;
      remainingRetries := remainingRetries - 1;
      trace := trace + [Dial(target), Pause(PauseMs)];
      k := k + 1;
    }
    assert RetryRun(result, trace) == whole;
  }
}
