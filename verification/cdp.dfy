/**
 * Values exchanged with the remote browser over the DevTools protocol:
 * optional JavaScript values, errors, and the record of the requests the
 * driver makes, in the order it makes them.
 */
module Cdp {

  /** A JavaScript value that may be `undefined`. */
  datatype Option<+T> = None | Some(value: T)

  /**
   * A rejection reason. `Error(message)` is an `Error` object with that
   * message (raised by the driver or by the protocol library); `TypeError`
   * is the runtime error raised when a property of `undefined`/`null` is
   * read or written.
   */
  datatype Error =
    | Error(message: string)
    | TypeError(property: string)

  datatype Result<+T> = Ok(value: T) | Err(error: Error)

  /** JavaScript truthiness of an optional string: present and non-empty. */
  predicate Truthy(v: Option<string>)
  {
    v.Some? && v.value != ""
  }

  /** The page every new target is created on. */
  const AboutBlank: string := "about:blank"

  /** One request the driver makes of the remote browser. */
  datatype Call =
    | Dial(target: Option<string>)                          // CDP({ target })
    | Pause(ms: nat)                                        // sleep before the next dial
    | CreateBrowserContext                                  // Target.createBrowserContext()
    | CreateTarget(url: string, browserContextId: string)   // Target.createTarget({...})
    | SetUpEvents                                           // hand the tab to the page driver
}
