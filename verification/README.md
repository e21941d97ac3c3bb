# Browserless driver of prerender, modelled in Dafny

The `browserless` driver of prerender does not start Chrome. It connects
to a remote Chrome through its DevTools WebSocket endpoint and opens
isolated tabs there for the rendering pipeline. This project models the
driver's sequential logic. Every request to the remote browser is an
answer given as input: the version probe, the race between the probe and
the 20 s timer, every dial, context and target creation, and the page
driver's `setUpEvents`.

- `Cdp` (cdp.dfy): JavaScript optional values and truthiness, errors, and
  the `Call` record of the requests the driver makes, in order.
- `Retry` (retry.dfy): the `connectToBrowser` loop. `RetryFrom` is its
  specification and `RetryDial` the loop itself. The lemmas pin the count:
  up to 6 dials and 5 pauses of 500 ms, the first success is returned, and
  the sixth error is rethrown unchanged.
- `Latch` (latch.dfy): the promise `connect` returns. Only its first
  `resolve`/`reject` call settles it.
- `Connect` (connect.dfy): `ConnectSpec` describes what `connect` does:
  which endpoint it picks, the identity defaults and overrides, and the
  outcome of the timer/probe race.
- `Pipeline` (pipeline.dfy): `OpenTabSpec` describes what `openTab` does.
  Lemmas cover its outcome, how errors propagate, and call order. Order is
  checked against an automaton over the `Call` trace.
- `Browserless` (browserless.dfy): the driver as a class (`Driver`, whose
  fields `connect` writes in place), the DevTools clients (`Client`), the
  options object `spawn` is given (`SpawnOptions`), the job options object
  (`JobOptions`), and the methods `Spawn`, `Connect`,
  `OpenTab`, `ConnectToBrowser` and `AssembleTab`. `Connect`, `OpenTab`
  and `ConnectToBrowser` are proved equal to `ConnectSpec`, `OpenTabSpec`
  and `RetryFrom`; `Spawn` and `AssembleTab` state their effects in their
  `ensures`.

A race is modelled as a choice of which event comes first
(`Race = ProbeFirst | TimerFirst(probeLate)`). A dial oracle is a function
from the attempt number to the outcome, so no input needs a length
precondition.

Facts about the code that the model keeps:

- The code has no gateway handling, no token parameter and no HTTP
  discovery. The chosen endpoint is stored and dialled verbatim
  (lib/browsers/browserless.js:44, 102).
- The retry loop makes up to 6 dials and 5 pauses. `remainingRetries`
  starts at 5, and the loop throws only when a dial fails with none left
  (`Retry.ExhaustsBudget`).
- A probe that answers after the timer has rejected still overwrites
  `originalUserAgent` and `version`. Its `resolve` is ignored
  (`Race.TimerFirst(true)` in `Connect.ConnectSpec`).
- `spawn` keeps a reference to the caller's options object, and `connect`
  reads its `browserWsEndpoint` only when it is called
  (lib/browsers/browserless.js:10, 27). The model keeps that reference
  (`Browserless.SpawnOptions`, `Driver.OptionsRead`).
- Calling `connect` before `spawn` reads a property of `undefined`. That
  rejects with a `TypeError` (`TypeError("browserWsEndpoint")`).
- `openTab` without an options object dials, creates the context and the
  target, and then throws when it writes `tab.prerender.errors`
  (`TypeError("errors")`).

## Model

| member | source | states |
|---|---|---|
| `Browserless.Driver.Spawn` | lib/browsers/browserless.js:9-12 | stores a reference to the caller's options object (not a copy) and changes no connection field |
| `Connect.ChooseEndpoint` | lib/browsers/browserless.js:27 | a truthy explicit option wins, otherwise the environment value is used; the result is truthy iff one of the two is |
| `Connect.Probed` | lib/browsers/browserless.js:49-56 | handling the probe never changes the endpoint, and a failed probe changes nothing |
| `Connect.ConnectSpec` | lib/browsers/browserless.js:25-71 | the promise settles and the first call decides it; nothing settles after a resolve; rejection with "BROWSER_WS_ENDPOINT not configured" iff both endpoints are falsy, and then the timer is never started and no field is written; rejection with the timeout error iff the timer comes first; a failed probe never rejects; otherwise the endpoint is stored verbatim and the user agent/version are the defaults unless a handled probe reported truthy values |
| `Browserless.Driver.Connect` | lib/browsers/browserless.js:25-71 | the outcome, the settle calls, whether the timer started, and the driver's new fields are exactly those of `ConnectSpec` from the old fields and the endpoint the stored options object holds at the call; the stored reference is unchanged |
| `Latch.Promise.Settle` | lib/browsers/browserless.js:26-70 | records the call; a settled promise keeps its outcome; a pending one takes this one |
| `Retry.RetryFrom` | lib/browsers/browserless.js:81-100 | `Ok(j)`: dial j connected, every earlier dial failed, and j is within the budget; `Err(e)`: every dial in the budget failed and `e` is the last one's error |
| `Retry.RetryTrace` | lib/browsers/browserless.js:83-97 | the loop's trace is its dials with one 500 ms pause between consecutive dials |
| `Retry.AttemptsCount` | lib/browsers/browserless.js:86-96 | n dials with pauses between them hold n dials and (n - 1) × 500 ms of pausing |
| `Retry.SucceedsAt` | lib/browsers/browserless.js:84-97 | a dial that fails up to attempt n and then connects, within the budget, returns attempt n after n + 1 dials |
| `Retry.SucceedsAfterFailures` | lib/browsers/browserless.js:82-97 | n ≤ 5 failures and then a success: success after n + 1 dials and n × 500 ms of pausing |
| `Retry.ExhaustsBudget` | lib/browsers/browserless.js:82-97 | when every dial fails: exactly 6 dials, 5 pauses (2500 ms), and the sixth dial's error is rethrown unchanged |
| `Retry.ReachableIff` | lib/browsers/browserless.js:82-97 | the loop connects iff one of the first six dials connects |
| `Retry.RetryDial` | lib/browsers/browserless.js:82-99 | the loop's result and trace equal `RetryFrom` with 5 retries from dial 0; a success is a connecting dial within the budget; a failure carries the sixth dial's error |
| `Browserless.ConnectToBrowser` | lib/browsers/browserless.js:81-100 | the trace and outcome of the retry loop; on success a new client of exactly that target |
| `Browserless.AssembleTab` | lib/browsers/browserless.js:117-124 | the tab gets the context id, the first connection and the caller's options object itself (an alias); that object gets `errors = []`, `requests = {}`, `numRequestsInFlight = 0`; with no options object it fails with the `TypeError` |
| `Pipeline.DialPhase` | lib/browsers/browserless.js:102-116 | one retry phase of `openTab` connects iff a dial in the budget does, ends with a dial of its target, and makes no other request |
| `Pipeline.OpenTabOutcome` | lib/browsers/browserless.js:102-135 | `openTab` returns a tab iff both dial phases, both creations and `setUpEvents` succeed and there is an options object; the tab carries the created context id and target id |
| `Pipeline.OpenTabFailure` | lib/browsers/browserless.js:102-135 | each failing step rejects with its own error unchanged, and no later request is made |
| `Pipeline.OpenTabInOrder` | lib/browsers/browserless.js:102-116 | the request trace is accepted by the protocol automaton: browser dials, then the context, then an `about:blank` target in that context, then dials of that target id, then `setUpEvents`; a returned tab went through every stage |
| `Pipeline.OpenTabHandOff` | lib/browsers/browserless.js:105-128 | `setUpEvents` is reached iff every earlier step succeeded and there is an options object; a created context is always followed by the creation of a target in it |
| `Browserless.Driver.OpenTab` | lib/browsers/browserless.js:74-137 | trace and outcome equal `OpenTabSpec`; a returned tab is a new client of the created target, with the context id, a new browser connection to the driver's endpoint, and `prerender` aliasing the caller's options; the options' per-job state is reset iff `setUpEvents` was reached, and is unchanged otherwise |

## Left out

- Network traffic through `chrome-remote-interface` (`CDP`, `CDP.Version`, `Target.createBrowserContext`, `Target.createTarget`): a foreign library, so each call is an outcome given as input. A request that never answers is modelled only for the version probe (`TimerFirst(false)`). Every dial and creation answers.
- Wall-clock timers: the 20 s connect timeout is the order of events in `Race`, and each 500 ms sleep is a `Pause(500)` entry in the trace.
- Promise and event-loop concurrency, including several `connect` or `openTab` calls running at once: only the sequential "which event came first" order is modelled.
- `util.log` calls, and the `url` that `openTab` reads only to put in a log line.
- `onClose` and `kill`: no-ops in the source.
- Everything delegated to `./chrome` (`setUpEvents`, `closeTab`, `loadUrlThenWaitForPageLoadEvent`, `checkIfPageIsDoneLoading`, `executeJavascript`, `parseHtmlFromPage`, `captureScreenshot`, `printToPDF`, `getHarFile`): lib/browsers/chrome.js is not part of this model. `setUpEvents` is one step that returns the same tab or fails, and changes nothing.
- JavaScript values that are not strings where a string is expected (a numeric endpoint, a non-string `User-Agent`), and a `createBrowserContext`/`createTarget` answer that lacks its id field.
- The contents of the `errors` and `requests` collections: the page driver fills them, so they are modelled as a sequence of strings and a map from request id to string.
