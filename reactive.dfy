/** `CC.Reactive.BindableProp<TData, TSelf>` (NekoLib/Runtime/Core/ReactiveProps/BindableProp.cs):
    the holder whose change event passes the holder itself. */
module Reactive {
  import opened Lists
  import opened Events

  /** A value whose setter broadcasts `OnValueChanged(this)` when the new
      value is not `Equals` to the stored one. */
  class BindableProp<T(==)> {
    var value: T
    /** Invocation list of `OnValueChanged`. The event is initialised to an
        empty delegate, so it is never null; that delegate has no entry here
        because calling it has no effect. */
    var handlers: seq<HandlerId>
    /** Every handler call made so far, oldest first; the argument of each
        call is the holder. */
    var delivered: seq<Delivery<BindableProp<T>>>

    /** `BindableProp(TData value)` stores the value without broadcasting. */
    constructor (v: T)
      ensures value == v && handlers == [] && delivered == []
    {
      value := v;
      handlers := [];
      delivered := [];
    }

    /** The `Value` setter. The broadcast is its last step, so every handler
        that reads the holder it is passed sees the new value. */
    method SetValue(v: T)
      modifies this`value, this`delivered
      ensures v == old(value) ==> value == old(value) && delivered == old(delivered)
      ensures v != old(value) ==> value == v && delivered == old(delivered) + Invoke(handlers, this)
    {
      if value != v {
        value := v;
        BroadcastValueChange();
      }
    }

    /** `OnValueChanged.Invoke((TSelf)this)`. */
    method BroadcastValueChange()
      modifies this`delivered
      ensures delivered == old(delivered) + Invoke(handlers, this)
    {
      delivered := delivered + Invoke(handlers, this);
    }

    /** `OnValueChanged += h` */
    method Subscribe(h: HandlerId)
      modifies this`handlers
      ensures handlers == old(handlers) + [h]
    {
      handlers := handlers + [h];
    }

    /** `OnValueChanged -= h` */
    method Unsubscribe(h: HandlerId)
      modifies this`handlers
      ensures handlers == RemoveLast(old(handlers), h)
    {
      handlers := RemoveLast(handlers, h);
    }
  }
}
