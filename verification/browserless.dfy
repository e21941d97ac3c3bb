/**
 * The browserless driver: instead of spawning Chrome it connects to a
 * remote one through its DevTools WebSocket endpoint, and opens tabs there.
 * Every request to the remote browser is an answer supplied as input
 * (`ProbeOutcome`, `Race`, `Remote`).
 */
module Browserless {
  import opened Cdp
  import opened Retry
  import opened Latch
  import opened Connect
  import opened Pipeline

  /**
   * The options object the server passes to `spawn`. The driver keeps a
   * reference to it, so `connect` sees the endpoint as it is when called.
   */
  class SpawnOptions {
    var browserWsEndpoint: Option<string>

    constructor (browserWsEndpoint: Option<string>)
      ensures this.browserWsEndpoint == browserWsEndpoint
    {
      this.browserWsEndpoint := browserWsEndpoint;
    }
  }

  /** The per-job options object (`req.prerender` of the server) a tab is opened for. */
  class JobOptions {
    var errors: seq<string>
    var requests: map<string, string>
    var numRequestsInFlight: int

    constructor (errors: seq<string>, requests: map<string, string>, numRequestsInFlight: int)
      ensures this.errors == errors && this.requests == requests
      ensures this.numRequestsInFlight == numRequestsInFlight
    {
      this.errors := errors;
      this.requests := requests;
      this.numRequestsInFlight := numRequestsInFlight;
    }
  }

  /** A DevTools client, as `CDP({ target })` returns it; a tab is a client of its target. */
  class Client {
    const target: Option<string>
    var browserContextId: Option<string>
    var browser: Client?
    var prerender: JobOptions?

    constructor (target: Option<string>)
      ensures this.target == target
      ensures browserContextId == None && browser == null && prerender == null
    {
      this.target := target;
      browserContextId := None;
      browser := null;
      prerender := null;
    }
  }

  /** `connectToBrowser(target)`: the retry loop, and a new client when a dial connects. */
  method ConnectToBrowser(target: Option<string>, dial: Dialer) returns (r: Result<Client>, trace: seq<Call>)
    ensures var run := RetryFrom(target, dial, InitialRetries, 0);
      trace == run.trace && (r.Ok? <==> run.result.Ok?) && (r.Err? ==> r.error == run.result.error)
    ensures r.Ok? ==> fresh(r.value) && r.value.target == target
    ensures r.Ok? ==> r.value.browserContextId == None && r.value.browser == null && r.value.prerender == null
  {
    var attempt;
    attempt, trace := RetryDial(target, dial);
    match attempt
    case Ok(_) =>
      var client := new Client(target);
      r := Ok(client);
    case Err(e) =>
      r := Err(e);
  }

  /**
   * Fill in a freshly dialled tab: its context, the browser connection it
   * belongs to, and the job options with their per-job state reset.
   */
  method AssembleTab(tab: Client, browser: Client, browserContext: string, options: JobOptions?)
      returns (r: Result<Client>)
    modifies tab, options
    ensures r.Ok? <==> options != null
    ensures r.Err? ==> r.error == MissingPrerender
    ensures tab.browserContextId == Some(browserContext) && tab.browser == browser && tab.prerender == options
    ensures r.Ok? ==> r.value == tab && options != null
    ensures options != null ==>
      options.errors == [] && options.requests == map[] && options.numRequestsInFlight == 0
  {
    tab.browserContextId := Some(browserContext);
    tab.browser := browser;
    tab.prerender := options;
    if tab.prerender == null {
      // `tab.prerender.errors = []` throws
      return Err(MissingPrerender);
    }
    tab.prerender.errors := [];
    tab.prerender.requests := map[];
    tab.prerender.numRequestsInFlight := 0;
    r := Ok(tab);
  }

  /** The `browserless` driver object. */
  class Driver {
    var options: SpawnOptions?
    var webSocketDebuggerURL: Option<string>
    var originalUserAgent: Option<string>
    var version: Option<string>

    function Fields(): Identity
      reads this
    {
      Identity(webSocketDebuggerURL, originalUserAgent, version)
    }

    /** What `connect` reads of the stored options object right now. */
    function OptionsRead(): Option<DriverOptions>
      reads this, options
    {
      if options == null then None else Some(DriverOptions(options.browserWsEndpoint))
    }

    constructor ()
      ensures options == null && Fields() == Identity(None, None, None)
    {
      options := null;
      webSocketDebuggerURL, originalUserAgent, version := None, None, None;
    }

    /** `spawn`: there is no local Chrome; only a reference to the options object is kept. */
    method Spawn(options: SpawnOptions?)
      modifies this
      ensures this.options == options
      ensures Fields() == old(Fields())
    {
      this.options := options;
    }

    /**
     * `connect`: pick the endpoint, start the 20 s timer, seed the identity
     * fields, and probe the endpoint's version. `env` is the value of
     * `BROWSER_WS_ENDPOINT`; `calls` are the calls made to `resolve` and
     * `reject`, of which the first decides `outcome`.
     */
    method Connect(env: Option<string>, probe: ProbeOutcome, race: Race)
        returns (outcome: Outcome, calls: seq<Outcome>, timerStarted: bool)
      modifies this
      ensures options == old(options)
      ensures ConnectRun(outcome, calls, timerStarted, Fields())
        == ConnectSpec(old(OptionsRead()), env, probe, race, old(Fields()))
    {
      var promise := new Promise();
      timerStarted := false;
      if options == null {
        // reading `this.options.browserWsEndpoint` throws inside the executor
        promise.Settle(Rejected(TypeError("browserWsEndpoint")));
      } else {
        var browserWsEndpoint := ChooseEndpoint(options.browserWsEndpoint, env);
        if !Truthy(browserWsEndpoint) {
          promise.Settle(Rejected(NotConfigured));
        } else {
          var connected := false;
          timerStarted := true;
          webSocketDebuggerURL := browserWsEndpoint;
          originalUserAgent := Some(DefaultUserAgent);
          version := Some(DefaultVersion);
          // when the probe answers first it clears the timer, which then never fires
          if race.TimerFirst? && !connected {
            promise.Settle(Rejected(ConnectTimeout));
          }
          if ProbeHandled(race) {
            if probe.ProbeOk? {
              if Truthy(probe.userAgent) {
                originalUserAgent := probe.userAgent;
              }
              if Truthy(probe.browser) {
                version := probe.browser;
              }
            }
            connected := true;
            promise.Settle(Resolved);
          }
        }
      }
      outcome, calls := promise.state.value, promise.calls;
    }

    /**
     * `openTab(options)`: dial the browser, create a context and an
     * `about:blank` target in it, dial the target, fill in the tab and hand
     * it to `setUpEvents`. The tab's `prerender` is the caller's `options`
     * object itself, so the per-job state is reset on that object.
     */
    method OpenTab(options: JobOptions?, remote: Remote) returns (r: Result<Client>, trace: seq<Call>)
      modifies options
      ensures var spec := OpenTabSpec(webSocketDebuggerURL, remote, options != null);
        trace == spec.trace && (r.Ok? <==> spec.result.Ok?) && (r.Err? ==> r.error == spec.result.error)
      ensures r.Ok? ==>
        var tab, ids := r.value, OpenTabSpec(webSocketDebuggerURL, remote, options != null).result.value;
        fresh(tab) && tab.target == Some(ids.targetId) && tab.browserContextId == Some(ids.browserContextId)
        && tab.browser != null && fresh(tab.browser) && tab.browser != tab
        && tab.browser.target == webSocketDebuggerURL
        && tab.prerender == options
      ensures options != null && SetUpEvents in trace ==>
        options.errors == [] && options.requests == map[] && options.numRequestsInFlight == 0
      ensures options != null && SetUpEvents !in trace ==> unchanged(options)
    {
      ghost var spec := OpenTabSpec(webSocketDebuggerURL, remote, options != null);
      var browserResult, t := ConnectToBrowser(webSocketDebuggerURL, remote.browserDial);
      trace := t;
      DialPhase(webSocketDebuggerURL, remote.browserDial);
      if browserResult.Err? {
        assert spec == TabRun(Err(browserResult.error), trace);
        return Err(browserResult.error), trace;
      }
      var browser := browserResult.value;

      trace := trace + [CreateBrowserContext];
      if remote.createBrowserContext.Err? {
        assert spec == TabRun(Err(remote.createBrowserContext.error), trace);
        return Err(remote.createBrowserContext.error), trace;
      }
      var browserContext := remote.createBrowserContext.value;

      trace := trace + [CreateTarget(AboutBlank, browserContext)];
      if remote.createTarget.Err? {
        assert spec == TabRun(Err(remote.createTarget.error), trace);
        return Err(remote.createTarget.error), trace;
      }
      var targetId := remote.createTarget.value;

      var tabResult;
      tabResult, t := ConnectToBrowser(Some(targetId), remote.targetDial);
      DialPhase(Some(targetId), remote.targetDial);
      assert SetUpEvents !in trace + t;
      trace := trace + t;
      if tabResult.Err? {
        assert spec == TabRun(Err(tabResult.error), trace);
        return Err(tabResult.error), trace;
      }
      var tab := tabResult.value;

      r := AssembleTab(tab, browser, browserContext, options);
      if r.Err? {
        assert spec == TabRun(Err(MissingPrerender), trace);
        return;
      }
      trace := trace + [SetUpEvents];
      if remote.setUpEvents.Some? {
        assert spec == TabRun(Err(remote.setUpEvents.value), trace);
        return Err(remote.setUpEvents.value), trace;
      }
      assert spec == TabRun(Ok(TabIds(browserContext, targetId)), trace);
    }
  }
}
