/** `CC.Stats.BindableFloat` (Runtime/BindableProp.cs): the float holder that
    the first generation of the stat graph is built from. */
module StatsBindable {
  import opened Lists
  import opened Events

  /** One float whose setter raises `OnValueChanged` with the new value, and
      only when the assigned value differs from the stored one. */
  class BindableFloat {
    var value: real
    /** Invocation list of `OnValueChanged`. The constructor installs an empty
        delegate, so the event is never null; that delegate has no entry here
        because calling it has no effect. */
    var handlers: seq<HandlerId>
    /** Every handler call made so far, oldest first. */
    var delivered: seq<Delivery<real>>

    /** `BindableFloat(value)`: the field starts at 0 and the value is then
        assigned through the setter, with nobody yet subscribed. */
    constructor (v: real)
      ensures value == v && handlers == [] && delivered == []
    {
      value := 0.0;
      handlers := [];
      delivered := [];
      new;
      SetValue(v);
    }

    /** The `Value` setter. */
    method SetValue(v: real)
      modifies this`value, this`delivered
      ensures v == old(value) ==> value == old(value) && delivered == old(delivered)
      ensures v != old(value) ==> value == v && delivered == old(delivered) + Invoke(handlers, v)
    {
      if v != value {
        value := v;
        BroadcastValueChange();
      }
    }

    /** Raises `OnValueChanged` with the stored value. */
    method BroadcastValueChange()
      modifies this`delivered
      ensures delivered == old(delivered) + Invoke(handlers, value)
    {
      delivered := delivered + Invoke(handlers, value);
    }

    /** `OnValueChanged += h` */
    method Subscribe(h: HandlerId)
      modifies this`handlers
      ensures handlers == old(handlers) + [h]
    {
      handlers := handlers + [h];
    }

    /** `OnValueChanged -= h` */
    method Unsubscribe(h: HandlerId)
      modifies this`handlers
      ensures handlers == RemoveLast(old(handlers), h)
    {
      handlers := RemoveLast(handlers, h);
    }
  }
}
