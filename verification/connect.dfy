/**
 * What `connect` does, as a function of the driver options, the
 * `BROWSER_WS_ENDPOINT` environment value, the answer of the version probe
 * and the order in which the probe answer and the 20 s timer arrive.
 */
module Connect {
  import opened Cdp
  import opened Latch

  /**
   * What `connect` reads of the options object `spawn` stored: its endpoint,
   * as it is at the moment `connect` is called.
   */
  datatype DriverOptions = DriverOptions(browserWsEndpoint: Option<string>)

  /** The answer of `CDP.Version({ target })`. */
  datatype ProbeOutcome =
    | ProbeOk(userAgent: Option<string>, browser: Option<string>)   // info['User-Agent'], info.Browser
    | ProbeFailed(error: Error)

  /**
   * Which event of the race comes first: the probe's answer (which clears
   * the timer), or the 20 s timer, after which the probe may still answer
   * (`probeLate`) or never answer.
   */
  datatype Race = ProbeFirst | TimerFirst(probeLate: bool)

  /** The driver fields `connect` writes. */
  datatype Identity = Identity(
    webSocketDebuggerURL: Option<string>,
    originalUserAgent: Option<string>,
    version: Option<string>)

  /** How a call to `connect` ends, the settle calls it made, and the fields it leaves. */
  datatype ConnectRun = ConnectRun(
    outcome: Outcome,
    calls: seq<Outcome>,
    timerStarted: bool,
    identity: Identity)

  const DefaultUserAgent: string := "Chrome (via WebSocket)"
  const DefaultVersion: string := "Remote Chrome"
  const NotConfigured: Error := Error("BROWSER_WS_ENDPOINT not configured")
  const ConnectTimeout: Error := Error("Timeout connecting to browser WebSocket endpoint")

  /** `options.browserWsEndpoint || BROWSER_WS_ENDPOINT`. */
  function ChooseEndpoint(explicit: Option<string>, env: Option<string>): (r: Option<string>)
    ensures Truthy(explicit) ==> r == explicit
    ensures !Truthy(explicit) ==> r == env
    ensures Truthy(r) <==> Truthy(explicit) || Truthy(env)
  {
    if Truthy(explicit) then explicit else env
  }

  /** `connect` gets past its configuration check. */
  predicate Configured(options: Option<DriverOptions>, env: Option<string>)
  {
    options.Some? && Truthy(ChooseEndpoint(options.value.browserWsEndpoint, env))
  }

  /** The probe's answer is handled: it came first, or came after the timer. */
  predicate ProbeHandled(race: Race)
  {
    race.ProbeFirst? || race.probeLate
  }

  /** A field the probe reports replaces the current value only when it is truthy. */
  function Override(current: Option<string>, reported: Option<string>): Option<string>
  {
    if Truthy(reported) then reported else current
  }

  /** The identity fields after the probe's answer has been handled. */
  function Probed(id: Identity, probe: ProbeOutcome): (r: Identity)
    ensures r.webSocketDebuggerURL == id.webSocketDebuggerURL
    ensures probe.ProbeFailed? ==> r == id
  {
    match probe
    case ProbeOk(userAgent, browser) =>
      id.(originalUserAgent := Override(id.originalUserAgent, userAgent),
          version := Override(id.version, browser))
    case ProbeFailed(_) => id
  }

  /**
   * One call to `connect`. `options` is what it reads of the object `spawn`
   * stored (`None` before `spawn`, when reading `this.options.browserWsEndpoint`
   * throws) and
   * `before` the identity fields as they were.
   */
  function ConnectSpec(options: Option<DriverOptions>, env: Option<string>, probe: ProbeOutcome,
                       race: Race, before: Identity): (r: ConnectRun)
    // the promise settles, and the first settle call decides it
    ensures r.calls != [] && r.outcome == r.calls[0]
    // nothing is settled after a resolve: the timer never fires after success
    ensures forall i :: 0 <= i < |r.calls| - 1 ==> r.calls[i] != Resolved
    ensures r.outcome == Rejected(NotConfigured) <==>
      options.Some? && !Truthy(ChooseEndpoint(options.value.browserWsEndpoint, env))
    ensures r.outcome == Rejected(ConnectTimeout) <==> Configured(options, env) && race.TimerFirst?
    // a failed probe never rejects
    ensures r.outcome.Rejected? <==> !Configured(options, env) || race.TimerFirst?
    // the missing-endpoint rejection comes before the timer and before any field is written
    ensures r.timerStarted <==> Configured(options, env)
    ensures !Configured(options, env) ==> r.identity == before && |r.calls| == 1
    ensures Configured(options, env) ==>
      r.identity.webSocketDebuggerURL == ChooseEndpoint(options.value.browserWsEndpoint, env)
    ensures Configured(options, env) ==>
      r.identity.originalUserAgent ==
        if ProbeHandled(race) && probe.ProbeOk? && Truthy(probe.userAgent)
        then probe.userAgent else Some(DefaultUserAgent)
    ensures Configured(options, env) ==>
      r.identity.version ==
        if ProbeHandled(race) && probe.ProbeOk? && Truthy(probe.browser)
        then probe.browser else Some(DefaultVersion)
  {
    match options
    case None =>
      var e := Rejected(TypeError("browserWsEndpoint"));
      ConnectRun(e, [e], false, before)
    case Some(opts) =>
      var endpoint := ChooseEndpoint(opts.browserWsEndpoint, env);
      if !Truthy(endpoint) then
        ConnectRun(Rejected(NotConfigured), [Rejected(NotConfigured)], false, before)
      else
        var seeded := Identity(endpoint, Some(DefaultUserAgent), Some(DefaultVersion));
        match race
        case ProbeFirst => ConnectRun(Resolved, [Resolved], true, Probed(seeded, probe))
        case TimerFirst(probeLate) =>
          if probeLate then
            ConnectRun(Rejected(ConnectTimeout), [Rejected(ConnectTimeout), Resolved], true, Probed(seeded, probe))
          else
            ConnectRun(Rejected(ConnectTimeout), [Rejected(ConnectTimeout)], true, seeded)
  }
}
