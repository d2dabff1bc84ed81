/**
 * Callback registries and their dispatch. Callbacks are opaque: a callback is
 * known by its reference (an id) and whether it throws when invoked.
 */
module Callbacks {

  /** A callback, compared by reference: registering the same function twice yields the same id twice. */
  type CallbackId = nat

  /** One invocation made by a dispatch: who was called, with what, and whether it threw. */
  datatype Call<P> = Call(callback: CallbackId, payload: P, threw: bool)

  /**
   * What a dispatch does: every registered callback, in registration order,
   * is invoked once with the same payload; a throwing callback is caught and
   * logged, and the walk goes on.
   */
  function Deliveries<P>(cbs: seq<CallbackId>, payload: P, throwing: set<CallbackId>): (calls: seq<Call<P>>)
    ensures |calls| == |cbs|
    ensures forall i :: 0 <= i < |cbs| ==> calls[i] == Call(cbs[i], payload, cbs[i] in throwing)
  {
    if cbs == [] then []
    else [Call(cbs[0], payload, cbs[0] in throwing)] + Deliveries(cbs[1..], payload, throwing)
  }

  /** The callbacks invoked, in the order they were invoked. */
  function Callees<P>(calls: seq<Call<P>>): (ids: seq<CallbackId>)
    ensures |ids| == |calls|
    ensures forall i :: 0 <= i < |calls| ==> ids[i] == calls[i].callback
  {
    if calls == [] then [] else [calls[0].callback] + Callees(calls[1..])
  }

  /**
   * The `forEach` with a `try`/`catch` around each callback. The caught error
   * goes only to the console, so a throw changes nothing but the `threw` flag.
   */
  method Dispatch<P>(cbs: seq<CallbackId>, payload: P, throwing: set<CallbackId>) returns (calls: seq<Call<P>>)
    ensures calls == Deliveries(cbs, payload, throwing)
  {
    calls := [];
    var i := 0;
    while i < |cbs|
      invariant 0 <= i <= |cbs|
      invariant calls == Deliveries(cbs[..i], payload, throwing)
    {
      var threw := cbs[i] in throwing;
      DeliveriesAppend(cbs[..i], cbs[i], payload, throwing);
      assert cbs[..i + 1] == cbs[..i] + [cbs[i]];
      calls := calls + [Call(cbs[i], payload, threw)];
      i := i + 1;
    }
    assert cbs[..i] == cbs;
  }

  /** Throwing callbacks do not stop a dispatch: the same callbacks are reached whoever throws. */
  lemma ThrowsDoNotStopDispatch<P>(cbs: seq<CallbackId>, payload: P, throwing: set<CallbackId>, others: set<CallbackId>)
    ensures Callees(Deliveries(cbs, payload, throwing)) == Callees(Deliveries(cbs, payload, others)) == cbs
  {
    var a := Callees(Deliveries(cbs, payload, throwing));
    var b := Callees(Deliveries(cbs, payload, others));
    assert forall i :: 0 <= i < |cbs| ==> a[i] == cbs[i] == b[i];
  }

  /** A dispatch over a registry grown by one registration reaches the old callbacks first, then the new one. */
  lemma {:induction false} DeliveriesAppend<P>(cbs: seq<CallbackId>, cb: CallbackId, payload: P, throwing: set<CallbackId>)
    ensures Deliveries(cbs + [cb], payload, throwing) == Deliveries(cbs, payload, throwing) + [Call(cb, payload, cb in throwing)]
  {
    var l := Deliveries(cbs + [cb], payload, throwing);
    var r := Deliveries(cbs, payload, throwing) + [Call(cb, payload, cb in throwing)];
    assert |l| == |r|;
    forall i | 0 <= i < |l| ensures l[i] == r[i] {
      if i < |cbs| {
        assert (cbs + [cb])[i] == cbs[i];
      }
    }
  }

  /** A callback is invoked as many times per dispatch as it is registered. */
  lemma {:induction false} DeliveriesCount<P>(cbs: seq<CallbackId>, cb: CallbackId, payload: P, throwing: set<CallbackId>)
    ensures multiset(Callees(Deliveries(cbs, payload, throwing)))[cb] == multiset(cbs)[cb]
  {
    if cbs != [] {
      DeliveriesCount(cbs[1..], cb, payload, throwing);
      assert cbs == [cbs[0]] + cbs[1..];
      var d := Deliveries(cbs, payload, throwing);
      assert d[1..] == Deliveries(cbs[1..], payload, throwing);
      assert Callees(d) == [cbs[0]] + Callees(d[1..]);
    }
  }
}
