/**
 * The event broadcast: registered callbacks and what delivering one raw
 * message to them amounts to. Callbacks are foreign function pointers with an
 * opaque context pointer; the model identifies each by an opaque number and
 * records a delivery instead of running it.
 */
module Events {
  import opened CStrings

  /** An opaque function pointer. */
  type EventFunction = nat
  /** An opaque context pointer handed back to the callback. */
  type Context = nat

  /** One registration: the function and the context it was registered with. */
  datatype Callback = Callback(event: EventFunction, context: Context)

  /** One call of a callback: event(eventClass, eventNumber, message, context). */
  datatype Delivery = Delivery(event: EventFunction, eventClass: int, eventNumber: int,
                               message: string, context: Context)

  /** The fixed event class and event number every delivery carries. */
  const EventClass: int := 1
  const EventNumber: int := 1

  /** The call one callback receives for a raw message (passed as a C string). */
  function Deliver(cb: Callback, message: string): Delivery
  {
    Delivery(cb.event, EventClass, EventNumber, CStr(message), cb.context)
  }

  /** The calls a broadcast of `message` makes, one per registration, in registration order. */
  function Deliveries(callbacks: seq<Callback>, message: string): seq<Delivery>
  {
    if callbacks == [] then []
    else Deliveries(callbacks[..|callbacks| - 1], message) + [Deliver(callbacks[|callbacks| - 1], message)]
  }

  /** A broadcast makes exactly one call per registration, the i-th to the i-th registration. */
  lemma {:induction false} DeliveriesAt(callbacks: seq<Callback>, message: string)
    ensures |Deliveries(callbacks, message)| == |callbacks|
    ensures forall i :: 0 <= i < |callbacks| ==>
      Deliveries(callbacks, message)[i] == Delivery(callbacks[i].event, EventClass, EventNumber, CStr(message), callbacks[i].context)
  {
    if callbacks != [] {
      var front := callbacks[..|callbacks| - 1];
      DeliveriesAt(front, message);
      assert forall i :: 0 <= i < |front| ==> front[i] == callbacks[i];
    }
  }

  /**
   * Registering one more callback adds exactly one call, at the end, and
   * leaves the earlier calls as they were.
   */
  lemma DeliveriesAppend(callbacks: seq<Callback>, cb: Callback, message: string)
    ensures Deliveries(callbacks + [cb], message) == Deliveries(callbacks, message) + [Deliver(cb, message)]
  {
    assert (callbacks + [cb])[..|callbacks|] == callbacks;
  }

  /** Broadcasting over two batches of registrations is broadcasting over each in turn. */
  lemma {:induction false} DeliveriesConcat(first: seq<Callback>, second: seq<Callback>, message: string)
    ensures Deliveries(first + second, message) == Deliveries(first, message) + Deliveries(second, message)
    decreases |second|
  {
    if second == [] {
      assert first + second == first;
    } else {
      var front := second[..|second| - 1];
      var last := second[|second| - 1];
      assert first + second == (first + front) + [last];
      DeliveriesAppend(first + front, last, message);
      DeliveriesConcat(first, front, message);
      assert second == front + [last];
      DeliveriesAppend(front, last, message);
    }
  }
}
