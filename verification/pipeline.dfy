/**
 * What `openTab` does, as a function of the answers the remote browser
 * gives: dial the browser, create a browser context, create an
 * `about:blank` target in it, dial the target, assemble the tab and hand
 * it to the page driver's `setUpEvents`.
 */
module Pipeline {
  import opened Cdp
  import opened Retry

  /** The answers of the remote browser to the requests of one `openTab`. */
  datatype Remote = Remote(
    browserDial: Dialer,                  // dials of the browser endpoint
    createBrowserContext: Result<string>, // the new browserContextId
    createTarget: Result<string>,         // the new targetId
    targetDial: Dialer,                   // dials of the new target
    setUpEvents: Option<Error>)           // None: the page driver returns the tab

  /** The identifiers an assembled tab carries. */
  datatype TabIds = TabIds(browserContextId: string, targetId: string)

  datatype TabRun = TabRun(result: Result<TabIds>, trace: seq<Call>)

  /** The error a `setUpEvents` of a tab whose `prerender` is missing raises. */
  const MissingPrerender: Error := TypeError("errors")

  /** One `openTab`; `hasOptions` is false when the caller passes no options object. */
  function OpenTabSpec(endpoint: Option<string>, remote: Remote, hasOptions: bool): TabRun
  {
    var browser := RetryFrom(endpoint, remote.browserDial, InitialRetries, 0);
    if browser.result.Err? then TabRun(Err(browser.result.error), browser.trace)
    else
      var t1 := browser.trace + [CreateBrowserContext];
      match remote.createBrowserContext
      case Err(e) => TabRun(Err(e), t1)
      case Ok(browserContextId) =>
        var t2 := t1 + [CreateTarget(AboutBlank, browserContextId)];
        match remote.createTarget
        case Err(e) => TabRun(Err(e), t2)
        case Ok(targetId) =>
          var tab := RetryFrom(Some(targetId), remote.targetDial, InitialRetries, 0);
          var t3 := t2 + tab.trace;
          if tab.result.Err? then TabRun(Err(tab.result.error), t3)
          else if !hasOptions then TabRun(Err(MissingPrerender), t3)
          else
            var t4 := t3 + [SetUpEvents];
            match remote.setUpEvents
            case Some(e) => TabRun(Err(e), t4)
            case None => TabRun(Ok(TabIds(browserContextId, targetId)), t4)
  }

  /** What one retry loop of `openTab` contributes to the trace. */
  lemma DialPhase(target: Option<string>, dial: Dialer)
    ensures var r := RetryFrom(target, dial, InitialRetries, 0);
      (r.result.Ok? <==> Reachable(dial))
      && (r.result.Err? ==> dial(InitialRetries) == DialFailed(r.result.error))
      && r.trace == Attempts(target, DialsMade(r.result, InitialRetries, 0))
      && DialsMade(r.result, InitialRetries, 0) >= 1
      && |r.trace| > 0 && r.trace[|r.trace| - 1] == Dial(target)
      && CreateBrowserContext !in r.trace && SetUpEvents !in r.trace
      && forall i :: 0 <= i < |r.trace| ==> !r.trace[i].CreateTarget?
  {
    var r := RetryFrom(target, dial, InitialRetries, 0);
    ReachableIff(target, dial);
    RetryTrace(target, dial, InitialRetries, 0);
    NoCreationInAttempts(target, DialsMade(r.result, InitialRetries, 0));
  }

  /** `openTab` returns a tab exactly when every step succeeds, with the identifiers the browser handed out. */
  lemma OpenTabOutcome(endpoint: Option<string>, remote: Remote, hasOptions: bool)
    ensures var r := OpenTabSpec(endpoint, remote, hasOptions);
      (r.result.Ok? <==>
        Reachable(remote.browserDial) && remote.createBrowserContext.Ok? && remote.createTarget.Ok?
        && Reachable(remote.targetDial) && hasOptions && remote.setUpEvents.None?)
      && (r.result.Ok? ==>
        r.result.value == TabIds(remote.createBrowserContext.value, remote.createTarget.value))
  {
  }

  /** A failure rejects `openTab` with the error of the first step that failed, unchanged. */
  lemma OpenTabFailure(endpoint: Option<string>, remote: Remote, hasOptions: bool)
    ensures var r := OpenTabSpec(endpoint, remote, hasOptions);
      var ctx, tgt := remote.createBrowserContext, remote.createTarget;
      (!Reachable(remote.browserDial) ==>
        remote.browserDial(InitialRetries) == DialFailed(r.result.error) && CreateBrowserContext !in r.trace)
      && (Reachable(remote.browserDial) && ctx.Err? ==>
        r.result == Err(ctx.error) && |r.trace| > 0 && r.trace[|r.trace| - 1] == CreateBrowserContext)
      && (Reachable(remote.browserDial) && ctx.Ok? && tgt.Err? ==>
        r.result == Err(tgt.error)
        && |r.trace| > 0 && r.trace[|r.trace| - 1] == CreateTarget(AboutBlank, ctx.value))
      && (Reachable(remote.browserDial) && ctx.Ok? && tgt.Ok? && !Reachable(remote.targetDial) ==>
        remote.targetDial(InitialRetries) == DialFailed(r.result.error)
        && |r.trace| > 0 && r.trace[|r.trace| - 1] == Dial(Some(tgt.value)))
      && (Reachable(remote.browserDial) && ctx.Ok? && tgt.Ok? && Reachable(remote.targetDial) && !hasOptions ==>
        r.result == Err(MissingPrerender) && SetUpEvents !in r.trace)
      && (Reachable(remote.browserDial) && ctx.Ok? && tgt.Ok? && Reachable(remote.targetDial) && hasOptions
          && remote.setUpEvents.Some? ==>
        r.result == Err(remote.setUpEvents.value))
  {
    var r := OpenTabSpec(endpoint, remote, hasOptions);
    DialPhase(endpoint, remote.browserDial);
    var browser := RetryFrom(endpoint, remote.browserDial, InitialRetries, 0);
    if browser.result.Ok? && remote.createBrowserContext.Ok? && remote.createTarget.Ok? {
      var target := Some(remote.createTarget.value);
      DialPhase(target, remote.targetDial);
      var tab := RetryFrom(target, remote.targetDial, InitialRetries, 0);
      var t2 := browser.trace + [CreateBrowserContext, CreateTarget(AboutBlank, remote.createBrowserContext.value)];
      assert (t2 + tab.trace)[|t2 + tab.trace| - 1] == tab.trace[|tab.trace| - 1];
      if !hasOptions {
        assert SetUpEvents !in browser.trace;
      }
    }
  }

  /** A retry loop makes dials and pauses only, and ends with a dial. */
  lemma {:induction false} NoCreationInAttempts(target: Option<string>, n: nat)
    requires n >= 1
    ensures var trace := Attempts(target, n);
      CreateBrowserContext !in trace && SetUpEvents !in trace && trace[|trace| - 1] == Dial(target)
      && forall i :: 0 <= i < |trace| ==> !trace[i].CreateTarget?
  {
    if n > 1 {
      NoCreationInAttempts(target, n - 1);
    }
  }

  /* ---- The order of the requests, as an automaton ---- */

  datatype Stage =
    | Start
    | BrowserDialled | BrowserPaused
    | ContextRequested | TargetRequested
    | TargetDialled | TargetPaused
    | HandedOff

  /** The identifiers the requests of one `openTab` must use. */
  datatype Plan = Plan(endpoint: Option<string>, browserContextId: string, targetId: string)

  /** The stage after one more request, or `None` if the request is out of order. */
  function Step(s: Stage, c: Call, p: Plan): Option<Stage>
  {
    match s
    case Start => if c == Dial(p.endpoint) then Some(BrowserDialled) else None
    case BrowserDialled =>
      if c == Pause(PauseMs) then Some(BrowserPaused)
      else if c == CreateBrowserContext then Some(ContextRequested)
      else None
    case BrowserPaused => if c == Dial(p.endpoint) then Some(BrowserDialled) else None
    case ContextRequested =>
      if c == CreateTarget(AboutBlank, p.browserContextId) then Some(TargetRequested) else None
    case TargetRequested => if c == Dial(Some(p.targetId)) then Some(TargetDialled) else None
    case TargetDialled =>
      if c == Pause(PauseMs) then Some(TargetPaused)
      else if c == SetUpEvents then Some(HandedOff)
      else None
    case TargetPaused => if c == Dial(Some(p.targetId)) then Some(TargetDialled) else None
    case HandedOff => None
  }

  /** Run the automaton over a trace. */
  function Run(s: Option<Stage>, trace: seq<Call>, p: Plan): Option<Stage>
    decreases |trace|
  {
    if trace == [] || s.None? then s else Run(Step(s.value, trace[0], p), trace[1..], p)
  }

  lemma {:induction false} RunAppend(s: Option<Stage>, a: seq<Call>, b: seq<Call>, p: Plan)
    ensures Run(s, a + b, p) == Run(Run(s, a, p), b, p)
    decreases |a|
  {
    if a == [] {
      assert a + b == b;
    } else if s.None? {
      RunNone(b, p);
    } else {
      assert (a + b)[0] == a[0] && (a + b)[1..] == a[1..] + b;
      RunAppend(Step(s.value, a[0], p), a[1..], b, p);
    }
  }

  lemma {:induction false} RunNone(trace: seq<Call>, p: Plan)
    ensures Run(None, trace, p) == None
  {
  }

  /** A retry loop leaves the automaton at the stage after a dial, from any stage that starts one. */
  lemma {:induction false} RunAttempts(s0: Stage, dialled: Stage, paused: Stage, target: Option<string>, n: nat, p: Plan)
    requires n >= 1
    requires Step(s0, Dial(target), p) == Some(dialled)
    requires Step(dialled, Pause(PauseMs), p) == Some(paused)
    requires Step(paused, Dial(target), p) == Some(dialled)
    ensures Run(Some(s0), Attempts(target, n), p) == Some(dialled)
    decreases n
  {
    var trace := Attempts(target, n);
    if n == 1 {
      assert trace[1..] == [];
    } else {
      var rest := Attempts(target, n - 1);
      assert trace[1..] == [Pause(PauseMs)] + rest;
      assert trace[1..][1..] == rest;
      RunAttempts(paused, dialled, paused, target, n - 1, p);
    }
  }

  /** The identifiers the remote browser hands out (empty where a step fails). */
  function PlanOf(endpoint: Option<string>, remote: Remote): Plan
  {
    Plan(endpoint,
         if remote.createBrowserContext.Ok? then remote.createBrowserContext.value else "",
         if remote.createTarget.Ok? then remote.createTarget.value else "")
  }

  lemma RunSingle(s: Stage, c: Call, p: Plan)
    ensures Run(Some(s), [c], p) == Step(s, c, p)
  {
    assert [c][1..] == [];
  }

  /** Running the automaton one request further. */
  lemma RunThen(t: seq<Call>, c: Call, p: Plan, s: Stage)
    requires Run(Some(Start), t, p) == Some(s)
    ensures Run(Some(Start), t + [c], p) == Step(s, c, p)
  {
    RunAppend(Some(Start), t, [c], p);
    RunSingle(s, c, p);
  }

  /** The retry loop on the new target leaves the automaton after a dial of that target. */
  lemma RunThenTargetDials(t: seq<Call>, p: Plan, n: nat)
    requires n >= 1
    requires Run(Some(Start), t, p) == Some(TargetRequested)
    ensures Run(Some(Start), t + Attempts(Some(p.targetId), n), p) == Some(TargetDialled)
  {
    RunAttempts(TargetRequested, TargetDialled, TargetPaused, Some(p.targetId), n, p);
    RunAppend(Some(Start), t, Attempts(Some(p.targetId), n), p);
  }

  /**
   * Every request of `openTab` is made in protocol order, with the
   * identifiers the previous steps returned, and a tab that is returned
   * has been through every step.
   */
  lemma OpenTabInOrder(endpoint: Option<string>, remote: Remote, hasOptions: bool)
    ensures var r := OpenTabSpec(endpoint, remote, hasOptions);
      Run(Some(Start), r.trace, PlanOf(endpoint, remote)).Some?
      && (r.result.Ok? ==> Run(Some(Start), r.trace, PlanOf(endpoint, remote)) == Some(HandedOff))
  {
    var r := OpenTabSpec(endpoint, remote, hasOptions);
    var p := PlanOf(endpoint, remote);
    var browser := RetryFrom(endpoint, remote.browserDial, InitialRetries, 0);
    var t0 := browser.trace;
    assert Run(Some(Start), t0, p) == Some(BrowserDialled) by {
      RetryTrace(endpoint, remote.browserDial, InitialRetries, 0);
      RunAttempts(Start, BrowserDialled, BrowserPaused, endpoint, DialsMade(browser.result, InitialRetries, 0), p);
    }
    if browser.result.Ok? {
      var t1 := t0 + [CreateBrowserContext];
      RunThen(t0, CreateBrowserContext, p, BrowserDialled);
      if remote.createBrowserContext.Ok? {
        var t2 := t1 + [CreateTarget(AboutBlank, p.browserContextId)];
        RunThen(t1, CreateTarget(AboutBlank, p.browserContextId), p, ContextRequested);
        if remote.createTarget.Ok? {
          var target := Some(p.targetId);
          var tab := RetryFrom(target, remote.targetDial, InitialRetries, 0);
          var t3 := t2 + tab.trace;
          RetryTrace(target, remote.targetDial, InitialRetries, 0);
          RunThenTargetDials(t2, p, DialsMade(tab.result, InitialRetries, 0));
          if tab.result.Ok? && hasOptions {
            RunThen(t3, SetUpEvents, p, TargetDialled);
            assert r.trace == t3 + [SetUpEvents];
          } else {
            assert r.trace == t3;
          }
        } else {
          assert r.trace == t2;
        }
      } else {
        assert r.trace == t1;
      }
    } else {
      assert r.trace == t0;
    }
  }

  /**
   * The tab reaches `setUpEvents` exactly when both dials and both
   * creations succeed and there is an options object; a context that was
   * created is always followed by the creation of a target in it.
   */
  lemma OpenTabHandOff(endpoint: Option<string>, remote: Remote, hasOptions: bool)
    ensures var r := OpenTabSpec(endpoint, remote, hasOptions);
      (SetUpEvents in r.trace <==>
        Reachable(remote.browserDial) && remote.createBrowserContext.Ok? && remote.createTarget.Ok?
        && Reachable(remote.targetDial) && hasOptions)
      && (Reachable(remote.browserDial) && remote.createBrowserContext.Ok? ==>
        CreateTarget(AboutBlank, remote.createBrowserContext.value) in r.trace)
  {
    DialPhase(endpoint, remote.browserDial);
    if remote.createTarget.Ok? {
      DialPhase(Some(remote.createTarget.value), remote.targetDial);
    }
  }
}
