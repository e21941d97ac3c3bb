/**
 * The promise `connect` returns: a cell that the first call to `resolve`
 * or `reject` settles; later calls are recorded but change nothing.
 */
module Latch {
  import opened Cdp

  datatype Outcome = Resolved | Rejected(error: Error)

  /** The outcome the first of a sequence of settle calls decides, if any. */
  function FirstCall(calls: seq<Outcome>): (r: Option<Outcome>)
    ensures r.None? <==> calls == []
    ensures forall o :: r == Some(o) ==> o in calls
  {
    if calls == [] then None else Some(calls[0])
  }

  class Promise {
    /** `None` while pending. */
    var state: Option<Outcome>
    /** Every call made to `resolve` or `reject`, in order. */
    var calls: seq<Outcome>

    ghost predicate Valid()
      reads this
    {
      state == FirstCall(calls)
    }

    constructor ()
      ensures Valid() && calls == []
    {
      state := None;
      calls := [];
    }

    /** `resolve()` or `reject(err)`: only the first call settles the promise. */
    method Settle(o: Outcome)
      requires Valid()
      modifies this
      ensures Valid()
      ensures calls == old(calls) + [o]
      ensures old(state).Some? ==> state == old(state)
      ensures old(state).None? ==> state == Some(o)
    {
      calls := calls + [o];
      if state.None? {
        state := Some(o);
      }
    }
  }
}
