/**
 * Event identities. The engine's `declareEventType` is not modelled here; this
 * registry stands in for it under one assumption: every call hands out a new
 * identity, even for a label that was declared before, and the label is kept
 * only for diagnostics and for naming the transition handler.
 */
module Events {

  /** The generic `TIMEOUT` event declared once by the task layer, or an event
      declared later, identified by the order of its declaration. */
  datatype EventKey = Timeout | Named(id: nat)

  const TimeoutLabel: string := "TIMEOUT"

  /** The registry behind `declareEventType`: the labels of the declared events, in order. */
  class EventRegistry {
    var labels: seq<string>

    constructor ()
      ensures labels == []
    {
      labels := [];
    }

    /** True of every identity this registry has handed out (and of `TIMEOUT`). */
    predicate Declared(e: EventKey)
      reads this
    {
      e.Timeout? || e.id < |labels|
    }

    function Label(e: EventKey): (s: string)
      reads this
      requires Declared(e)
    {
      if e.Timeout? then TimeoutLabel else labels[e.id]
    }

    /** Declares a new event type: by the assumption above, the identity is new
        even when the label repeats. */
    method Declare(name: string) returns (e: EventKey)
      modifies this
      ensures labels == old(labels) + [name]
      ensures !old(Declared(e)) && Declared(e)
      ensures Label(e) == name
      ensures forall d :: old(Declared(d)) ==> Declared(d) && Label(d) == old(Label(d))
    {
      e := Named(|labels|);
      labels := labels + [name];
    }
  }
}
