/** C# events as the holders use them: an invocation list of handlers that
    `+=` appends to, `-=` removes the last copy from, and that an invocation
    calls in order, each handler once per entry, all with the same argument. */
module Events {
  import opened Lists

  /** Identity of a subscribed handler (a delegate). */
  type HandlerId = nat

  /** One call of one handler: who was called, with what argument. */
  datatype Delivery<P> = Delivery(handler: HandlerId, payload: P)

  /** Invoking an event whose invocation list is `handlers`. */
  function Invoke<P>(handlers: seq<HandlerId>, payload: P): (r: seq<Delivery<P>>)
    ensures |r| == |handlers|
    ensures forall i :: 0 <= i < |r| ==> r[i] == Delivery(handlers[i], payload)
  {
    if handlers == [] then [] else [Delivery(handlers[0], payload)] + Invoke(handlers[1..], payload)
  }

  /** How many times handler `h` is called by one invocation: once per copy
      of it in the invocation list. */
  lemma {:induction false} InvokeCallsEachCopyOnce<P>(handlers: seq<HandlerId>, payload: P, h: HandlerId)
    ensures multiset(Invoke(handlers, payload))[Delivery(h, payload)] == multiset(handlers)[h]
  {
    if handlers != [] {
      assert handlers == [handlers[0]] + handlers[1..];
      InvokeCallsEachCopyOnce(handlers[1..], payload, h);
    }
  }
}
