/**
 * `ReactiveProperty<T>`: a value with an equality-gated setter and two events,
 * `OnBeforeValueChanged(previous, next)` and `OnChanged(value)`. Handlers are not run:
 * each invocation of either event is appended to the log `notes`, and each event's
 * listener list holds `Listener` entries saying whose handler was registered.
 */
module ReactiveProperties {
  import opened Wrappers
  import opened Seqs

  /** A registered handler: the object whose handler it is, and which of its handlers. */
  datatype Listener = Listener(owner: object, slot: nat)

  /** One invocation of one of the property's two events. */
  datatype Note<T> = BeforeChanged(previous: T, next: T) | Changed(value: T)

  /** The setter's gate: an equal value is let through only with `changeOnSameValue`. */
  predicate Passes<T(==)>(changeOnSameValue: bool, current: T, next: T) {
    changeOnSameValue || current != next
  }

  /** What an assignment that passes the gate emits, in order. */
  function Assignment<T>(current: T, next: T): seq<Note<T>> {
    [BeforeChanged(current, next), Changed(next)]
  }

  /** The value the handler registered by `Select` assigns to the derived property, if it assigns one. */
  function Forwarded<S, U>(selector: S -> U, condition: Option<S -> bool>, v: S): Option<U> {
    if condition.None? || condition.value(v) then Some(selector(v)) else None
  }

  /**
   * The value and the invocations after each of `vs` is assigned in turn through the
   * `Value` setter, starting from `value`.
   */
  function Assigned<T(==)>(changeOnSameValue: bool, value: T, vs: seq<T>): (T, seq<Note<T>>) {
    if vs == [] then (value, [])
    else
      var (v, ns) := Assigned(changeOnSameValue, value, vs[..|vs| - 1]);
      var x := vs[|vs| - 1];
      if Passes(changeOnSameValue, v, x) then (x, ns + Assignment(v, x)) else (v, ns)
  }

  /** Whether or not the gate lets an assignment through, the property ends at the last value assigned. */
  lemma AssignedEndsAtLast<T>(changeOnSameValue: bool, value: T, vs: seq<T>)
    requires vs != []
    ensures Assigned(changeOnSameValue, value, vs).0 == vs[|vs| - 1]
  {
  }

  /** Assigning the value just assigned again emits nothing more, unless `changeOnSameValue`. */
  lemma AssignedRepeatSilent<T>(changeOnSameValue: bool, value: T, vs: seq<T>, x: T)
    ensures Assigned(changeOnSameValue, value, vs + [x, x]).1
      == Assigned(changeOnSameValue, value, vs + [x]).1 + (if changeOnSameValue then Assignment(x, x) else [])
    ensures Assigned(changeOnSameValue, value, vs + [x, x]).0 == x
  {
    assert (vs + [x, x])[..|vs| + 1] == vs + [x];
    AssignedEndsAtLast(changeOnSameValue, value, vs + [x]);
  }

  /** Without `changeOnSameValue`, assigning only the current value never invokes either event. */
  lemma {:induction false} AssignedSameSilent<T>(value: T, vs: seq<T>)
    requires forall i | 0 <= i < |vs| :: vs[i] == value
    ensures Assigned(false, value, vs) == (value, [])
  {
    if vs != [] {
      AssignedSameSilent(value, vs[..|vs| - 1]);
    }
  }

  /** With `changeOnSameValue`, every assignment invokes both events, so each value assigned is announced. */
  lemma {:induction false} AssignedAlwaysNotifies<T>(value: T, vs: seq<T>)
    ensures |Assigned(true, value, vs).1| == 2 * |vs|
    ensures forall i | 0 <= i < |vs| :: Assigned(true, value, vs).1[2 * i + 1] == Changed(vs[i])
  {
    if vs != [] {
      var init := vs[..|vs| - 1];
      AssignedAlwaysNotifies(value, init);
      var ns := Assigned(true, value, init).1;
      forall i | 0 <= i < |vs|
        ensures Assigned(true, value, vs).1[2 * i + 1] == Changed(vs[i])
      {
        if i < |init| {
          assert Assigned(true, value, vs).1[2 * i + 1] == ns[2 * i + 1];
        }
      }
    }
  }

  class ReactiveProperty<T(==)> {
    const changeOnSameValue: bool
    /** `default(T)`, which `Reset` stores; a property of the type, fixed for the object. */
    const typeDefault: T
    var value: T
    /** The listener list of `OnChanged`. */
    var onChanged: seq<Listener>
    /** The listener list of `OnBeforeValueChanged`. */
    var onBeforeValueChanged: seq<Listener>
    /** Every invocation of the two events so far. */
    ghost var notes: seq<Note<T>>

    /**
     * Both constructors: the parameterless one passes `default(T)` as `defaultValue`.
     * `typeDefault` is `default(T)` itself, whatever `defaultValue` is.
     */
    constructor (defaultValue: T, typeDefault: T, changeOnSameValue: bool)
      ensures value == defaultValue && this.changeOnSameValue == changeOnSameValue
      ensures this.typeDefault == typeDefault
      ensures onChanged == [] && onBeforeValueChanged == [] && notes == []
    {
      value := defaultValue;
      this.typeDefault := typeDefault;
      onChanged := [];
      onBeforeValueChanged := [];
      notes := [];
      this.changeOnSameValue := changeOnSameValue;
    }

    /**
     * The `Value` setter. An equal value without `changeOnSameValue` changes nothing and
     * emits nothing; otherwise the before-event sees the old and the new value, then the
     * value is committed, then the changed event sees the committed value.
     */
    method SetValue(v: T)
      modifies this
      ensures Passes(changeOnSameValue, old(value), v) ==> value == v && notes == old(notes) + Assignment(old(value), v)
      ensures !Passes(changeOnSameValue, old(value), v) ==> value == old(value) && notes == old(notes)
      ensures var (v', ns) := Assigned(changeOnSameValue, old(value), [v]); value == v' && notes == old(notes) + ns
      ensures onChanged == old(onChanged) && onBeforeValueChanged == old(onBeforeValueChanged)
    {
      assert [v][..0] == [];
      if !changeOnSameValue && value == v {
        return;
      }
      notes := notes + [BeforeChanged(value, v)];
      value := v;
      notes := notes + [Changed(value)];
    }

    /** Stores the value; neither event is invoked. */
    method SetSilently(v: T)
      modifies this
      ensures value == v && notes == old(notes)
      ensures onChanged == old(onChanged) && onBeforeValueChanged == old(onBeforeValueChanged)
    {
      value := v;
    }

    /** `OnChanged.RemoveAllListeners()` and `OnBeforeValueChanged.RemoveAllListeners()`. */
    method ClearListeners()
      modifies this
      ensures onChanged == [] && onBeforeValueChanged == []
      ensures value == old(value) && notes == old(notes)
    {
      onChanged := [];
      onBeforeValueChanged := [];
    }

    /** Silently stores `default(T)`, then drops every listener of both events. */
    method Reset()
      modifies this
      ensures value == typeDefault && onChanged == [] && onBeforeValueChanged == []
      ensures notes == old(notes)
    {
      SetSilently(typeDefault);
      ClearListeners();
    }

    /** Invokes `OnChanged` with the current value, which stays as it is. */
    method Touch()
      modifies this
      ensures value == old(value) && notes == old(notes) + [Changed(value)]
      ensures onChanged == old(onChanged) && onBeforeValueChanged == old(onBeforeValueChanged)
    {
      notes := notes + [Changed(value)];
    }

    /** `OnChanged.AddListener`: appends the handler. */
    method AddListener(l: Listener)
      modifies this
      ensures onChanged == old(onChanged) + [l]
      ensures value == old(value) && notes == old(notes) && onBeforeValueChanged == old(onBeforeValueChanged)
    {
      onChanged := onChanged + [l];
    }

    /** `OnChanged.RemoveListener`: drops every registration of the handler. */
    method RemoveListener(l: Listener)
      modifies this
      ensures onChanged == Without(old(onChanged), l)
      ensures value == old(value) && notes == old(notes) && onBeforeValueChanged == old(onBeforeValueChanged)
    {
      onChanged := Without(onChanged, l);
    }

    /**
     * A fresh property starting at `selector(value)` (and with `changeOnSameValue` false),
     * kept up to date by one handler appended to this property's `OnChanged`: that
     * handler is `Relay` on the derived property. `outDefault` is `default(U)`.
     */
    method Select<U(==)>(selector: T -> U, condition: Option<T -> bool>, outDefault: U) returns (derived: ReactiveProperty<U>)
      modifies this
      ensures fresh(derived)
      ensures derived.value == selector(value) && !derived.changeOnSameValue && derived.typeDefault == outDefault
      ensures derived.onChanged == [] && derived.onBeforeValueChanged == [] && derived.notes == []
      ensures onChanged == old(onChanged) + [Listener(derived, 0)]
      ensures value == old(value) && notes == old(notes) && onBeforeValueChanged == old(onBeforeValueChanged)
    {
      derived := new ReactiveProperty<U>(selector(value), outDefault, false);
      AddListener(Listener(derived, 0));
    }

    /** `Select` with the identity selector and `condition` as the predicate. */
    method Where(condition: T -> bool) returns (derived: ReactiveProperty<T>)
      modifies this
      ensures fresh(derived)
      ensures derived.value == value && !derived.changeOnSameValue && derived.typeDefault == typeDefault
      ensures derived.onChanged == [] && derived.onBeforeValueChanged == [] && derived.notes == []
      ensures onChanged == old(onChanged) + [Listener(derived, 0)]
      ensures value == old(value) && notes == old(notes) && onBeforeValueChanged == old(onBeforeValueChanged)
    {
      derived := Select(x => x, Some(condition), typeDefault);
    }

    /**
     * The handler `Select` registers, run on the derived property with the source's new
     * value `v`: it goes through the `Value` setter only when the predicate is absent or
     * holds, so the derived property's own gate still applies.
     */
    method Relay<S>(selector: S -> T, condition: Option<S -> bool>, v: S)
      modifies this
      ensures var f := Forwarded(selector, condition, v);
        if f.Some? && Passes(changeOnSameValue, old(value), f.value)
        then value == f.value && notes == old(notes) + Assignment(old(value), f.value)
        else value == old(value) && notes == old(notes)
      ensures onChanged == old(onChanged) && onBeforeValueChanged == old(onBeforeValueChanged)
    {
      if condition.None? || condition.value(v) {
        SetValue(selector(v));
      }
    }
  }
}
