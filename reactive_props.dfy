/** `NekoLib.ReactiveProps.BindableProp<T>` (Runtime/ReactiveProps/BindableProp.cs)
    and its typed wrappers. */
module ReactiveProps {
  import opened Lists
  import opened Events

  /** A value whose setter raises `ValueChanged` when the new value is not
      `Equals` to the stored one. The event starts null and is raised with
      `?.Invoke`, so with no subscriber nothing is called. */
  class BindableProp<T(==)> {
    var value: T
    /** Invocation list of `ValueChanged`; empty means the event is null. */
    var handlers: seq<HandlerId>
    /** Every handler call made so far, oldest first. */
    var delivered: seq<Delivery<T>>

    /** `BindableProp(T value)` stores the value without raising the event. */
    constructor (v: T)
      ensures value == v && handlers == [] && delivered == []
    {
      value := v;
      handlers := [];
      delivered := [];
    }

    /** The `Value` setter. */
    method SetValue(v: T)
      modifies this`value, this`delivered
      ensures v == old(value) ==> value == old(value) && delivered == old(delivered)
      ensures v != old(value) ==> value == v && delivered == old(delivered) + Invoke(handlers, v)
    {
      if value != v {
        value := v;
        OnValueChanged();
      }
    }

    /** `ValueChanged?.Invoke(Value)`. */
    method OnValueChanged()
      modifies this`delivered
      ensures delivered == old(delivered) + Invoke(handlers, value)
    {
      if handlers != [] {
        delivered := delivered + Invoke(handlers, value);
      }
    }

    /** `ValueChanged += h` */
    method Subscribe(h: HandlerId)
      modifies this`handlers
      ensures handlers == old(handlers) + [h]
    {
      handlers := handlers + [h];
    }

    /** `ValueChanged -= h` */
    method Unsubscribe(h: HandlerId)
      modifies this`handlers
      ensures handlers == RemoveLast(old(handlers), h)
    {
      handlers := RemoveLast(handlers, h);
    }
  }

  /** `new BindableInt()` */
  method NewBindableInt() returns (p: BindableProp<int>)
    ensures fresh(p) && p.value == 0 && p.handlers == [] && p.delivered == []
  {
    p := new BindableProp(0);
  }

  /** `new BindableFloat()` (floats are modelled as reals) */
  method NewBindableFloat() returns (p: BindableProp<real>)
    ensures fresh(p) && p.value == 0.0 && p.handlers == [] && p.delivered == []
  {
    p := new BindableProp(0.0);
  }

  /** `new BindableDouble()` (doubles are modelled as reals) */
  method NewBindableDouble() returns (p: BindableProp<real>)
    ensures fresh(p) && p.value == 0.0 && p.handlers == [] && p.delivered == []
  {
    p := new BindableProp(0.0);
  }

  /** `new BindableBool()` */
  method NewBindableBool() returns (p: BindableProp<bool>)
    ensures fresh(p) && !p.value && p.handlers == [] && p.delivered == []
  {
    p := new BindableProp(false);
  }
}
