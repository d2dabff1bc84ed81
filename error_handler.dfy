/** `ErrorHandler`: the ordered registry of error subscribers and the broadcast to them. */
module ErrorHandling {
  import opened Sequences
  import opened Callbacks
  import opened Errors

  class ErrorHandler {
    var errorCallbacks: seq<CallbackId>

    constructor()
      ensures errorCallbacks == []
    {
      errorCallbacks := [];
    }

    /** `onError(callback)`: the callback goes to the end of the registry. */
    method OnError(cb: CallbackId)
      modifies this
      ensures errorCallbacks == old(errorCallbacks) + [cb]
    {
      errorCallbacks := errorCallbacks + [cb];
    }

    /** The unsubscribe closure returned by `onError`: removes the first registration of `cb`, if any. */
    method UnsubscribeError(cb: CallbackId)
      modifies this
      ensures errorCallbacks == RemoveFirst(old(errorCallbacks), cb)
      ensures cb !in old(errorCallbacks) ==> errorCallbacks == old(errorCallbacks)
    {
      errorCallbacks := SpliceOut(errorCallbacks, cb);
    }

    /**
     * `handleError(error)`: normalise the error into one record, then hand that
     * same record to every subscriber in registration order, catching throws.
     */
    method HandleError(error: Raised, throwing: set<CallbackId>) returns (delivered: ErrorData, calls: seq<Call<ErrorData>>)
      ensures delivered == Normalize(error)
      ensures |calls| == |errorCallbacks|
      ensures forall i :: 0 <= i < |calls| ==> calls[i] == Call(errorCallbacks[i], delivered, errorCallbacks[i] in throwing)
      ensures calls == Deliveries(errorCallbacks, delivered, throwing)
    {
      delivered := Normalize(error);
      calls := Dispatch(errorCallbacks, delivered, throwing);
    }

    /** `clear()`: no subscriber is left, so later errors reach no one. */
    method Clear()
      modifies this
      ensures errorCallbacks == []
    {
      errorCallbacks := [];
    }
  }
}
