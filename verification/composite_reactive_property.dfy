/**
 * `CompositeReactiveProperty` over two, three and four reactive properties: one handler
 * per constituent property, each re-broadcasting the full tuple with the new value at
 * its own position and the other positions read live. Nothing is cached: the only
 * state is the constituent references and the composite's own event, whose invocations
 * are logged in `broadcasts`.
 */
module CompositeProperties {
  import opened Seqs
  import opened ReactiveProperties

  /**
   * The listeners a composite owned by `owner` over `sources` registers on `q`: one for
   * every position holding `q`, with the handler of position `k` as slot `k + 1`, in order.
   */
  ghost function Registrations(owner: object, sources: seq<object>, q: object): seq<Listener>
  {
    if sources == [] then []
    else
      var n := |sources| - 1;
      Registrations(owner, sources[..n], q) + (if sources[n] == q then [Listener(owner, n + 1)] else [])
  }

  /** The listener for position `k` (counting from 1) if the source there is `q`. */
  ghost function At(owner: object, x: object, k: nat, q: object): seq<Listener> {
    if x == q then [Listener(owner, k)] else []
  }

  /** `Registrations` written out for two sources. */
  lemma Registrations2(owner: object, a: object, b: object, q: object)
    ensures Registrations(owner, [a, b], q) == At(owner, a, 1, q) + At(owner, b, 2, q)
  {
    assert [a, b][..1] == [a] && [a][..0] == [];
    assert Registrations(owner, [a], q) == At(owner, a, 1, q);
  }

  /** `Registrations` written out for three sources. */
  lemma Registrations3(owner: object, a: object, b: object, c: object, q: object)
    ensures Registrations(owner, [a, b, c], q) == At(owner, a, 1, q) + At(owner, b, 2, q) + At(owner, c, 3, q)
  {
    assert [a, b, c][..2] == [a, b];
    Registrations2(owner, a, b, q);
  }

  /** `Registrations` written out for four sources. */
  lemma Registrations4(owner: object, a: object, b: object, c: object, d: object, q: object)
    ensures Registrations(owner, [a, b, c, d], q)
      == At(owner, a, 1, q) + At(owner, b, 2, q) + At(owner, c, 3, q) + At(owner, d, 4, q)
  {
    assert [a, b, c, d][..3] == [a, b, c];
    Registrations3(owner, a, b, c, q);
  }

  /** Over distinct sources, each source receives exactly one listener: the handler of its own position. */
  lemma {:induction false} RegistrationsOfDistinct(owner: object, sources: seq<object>, k: nat)
    requires Distinct(sources) && k < |sources|
    ensures Registrations(owner, sources, sources[k]) == [Listener(owner, k + 1)]
  {
    var n := |sources| - 1;
    var prefix := sources[..n];
    if k == n {
      assert sources[k] !in prefix by {
        forall j | 0 <= j < |prefix|
          ensures prefix[j] != sources[k]
        {
          assert prefix[j] == sources[j];
        }
      }
      RegistrationsOfAbsent(owner, prefix, sources[k]);
    } else {
      assert Distinct(prefix) by {
        forall i, j | 0 <= i < j < |prefix|
          ensures prefix[i] != prefix[j]
        {
          assert prefix[i] == sources[i] && prefix[j] == sources[j];
        }
      }
      assert prefix[k] == sources[k];
      RegistrationsOfDistinct(owner, prefix, k);
    }
  }

  /** An object at no position receives no listener. */
  lemma {:induction false} RegistrationsOfAbsent(owner: object, sources: seq<object>, q: object)
    requires q !in sources
    ensures Registrations(owner, sources, q) == []
  {
    if sources != [] {
      var n := |sources| - 1;
      assert sources[n] in sources;
      assert forall x :: x in sources[..n] ==> x in sources;
      RegistrationsOfAbsent(owner, sources[..n], q);
    }
  }

  class CompositeReactiveProperty2<T1(==), T2(==)> {
    const prop1: ReactiveProperty<T1>
    const prop2: ReactiveProperty<T2>
    /** Every invocation of the composite's `OnChanged`. */
    ghost var broadcasts: seq<(T1, T2)>

    ghost function Sources(): seq<object> {
      [prop1 as object, prop2 as object]
    }

    /** Stores the sources and adds the handler of position k to the k-th source's `OnChanged`. */
    constructor (p1: ReactiveProperty<T1>, p2: ReactiveProperty<T2>)
      modifies p1, p2
      ensures prop1 == p1 && prop2 == p2 && broadcasts == []
      ensures p1.onChanged == old(p1.onChanged) + Registrations(this, Sources(), p1)
      ensures p2.onChanged == old(p2.onChanged) + Registrations(this, Sources(), p2)
      ensures p1.value == old(p1.value) && p2.value == old(p2.value)
      ensures p1.onBeforeValueChanged == old(p1.onBeforeValueChanged) && p1.notes == old(p1.notes)
      ensures p2.onBeforeValueChanged == old(p2.onBeforeValueChanged) && p2.notes == old(p2.notes)
    {
      prop1 := p1;
      prop2 := p2;
      broadcasts := [];
      new;
      p1.AddListener(Listener(this, 1));
      p2.AddListener(Listener(this, 2));
      Registrations2(this, p1, p2, p1);
      Registrations2(this, p1, p2, p2);
    }

    /** The handler on `prop1`: the new value first, `prop2` as it is now. */
    method HandleProp1Changed(newVal: T1)
      modifies this
      ensures broadcasts == old(broadcasts) + [(newVal, prop2.value)]
    {
      broadcasts := broadcasts + [(newVal, prop2.value)];
    }

    /** The handler on `prop2`: `prop1` as it is now, the new value second. */
    method HandleProp2Changed(newVal: T2)
      modifies this
      ensures broadcasts == old(broadcasts) + [(prop1.value, newVal)]
    {
      broadcasts := broadcasts + [(prop1.value, newVal)];
    }
  }

  class CompositeReactiveProperty3<T1(==), T2(==), T3(==)> {
    const prop1: ReactiveProperty<T1>
    const prop2: ReactiveProperty<T2>
    const prop3: ReactiveProperty<T3>
    /** Every invocation of the composite's `OnChanged`. */
    ghost var broadcasts: seq<(T1, T2, T3)>

    ghost function Sources(): seq<object> {
      [prop1 as object, prop2 as object, prop3 as object]
    }

    /** Stores the sources and adds the handler of position k to the k-th source's `OnChanged`. */
    constructor (p1: ReactiveProperty<T1>, p2: ReactiveProperty<T2>, p3: ReactiveProperty<T3>)
      modifies p1, p2, p3
      ensures prop1 == p1 && prop2 == p2 && prop3 == p3 && broadcasts == []
      ensures p1.onChanged == old(p1.onChanged) + Registrations(this, Sources(), p1)
      ensures p2.onChanged == old(p2.onChanged) + Registrations(this, Sources(), p2)
      ensures p3.onChanged == old(p3.onChanged) + Registrations(this, Sources(), p3)
      ensures p1.value == old(p1.value) && p2.value == old(p2.value) && p3.value == old(p3.value)
      ensures p1.onBeforeValueChanged == old(p1.onBeforeValueChanged) && p1.notes == old(p1.notes)
      ensures p2.onBeforeValueChanged == old(p2.onBeforeValueChanged) && p2.notes == old(p2.notes)
      ensures p3.onBeforeValueChanged == old(p3.onBeforeValueChanged) && p3.notes == old(p3.notes)
    {
      prop1 := p1;
      prop2 := p2;
      prop3 := p3;
      broadcasts := [];
      new;
      p1.AddListener(Listener(this, 1));
      p2.AddListener(Listener(this, 2));
      p3.AddListener(Listener(this, 3));
      AppendAfter3(old(p1.onChanged), At(this, p1, 1, p1), At(this, p2, 2, p1), At(this, p3, 3, p1));
      AppendAfter3(old(p2.onChanged), At(this, p1, 1, p2), At(this, p2, 2, p2), At(this, p3, 3, p2));
      AppendAfter3(old(p3.onChanged), At(this, p1, 1, p3), At(this, p2, 2, p3), At(this, p3, 3, p3));
      Registrations3(this, p1, p2, p3, p1);
      Registrations3(this, p1, p2, p3, p2);
      Registrations3(this, p1, p2, p3, p3);
    }

    /** The handler on `prop1`: the new value at position 1, the others read now. */
    method HandleProp1Changed(newVal: T1)
      modifies this
      ensures broadcasts == old(broadcasts) + [(newVal, prop2.value, prop3.value)]
    {
      broadcasts := broadcasts + [(newVal, prop2.value, prop3.value)];
    }

    /** The handler on `prop2`: the new value at position 2, the others read now. */
    method HandleProp2Changed(newVal: T2)
      modifies this
      ensures broadcasts == old(broadcasts) + [(prop1.value, newVal, prop3.value)]
    {
      broadcasts := broadcasts + [(prop1.value, newVal, prop3.value)];
    }

    /** The handler on `prop3`: the new value at position 3, the others read now. */
    method HandleProp3Changed(newVal: T3)
      modifies this
      ensures broadcasts == old(broadcasts) + [(prop1.value, prop2.value, newVal)]
    {
      broadcasts := broadcasts + [(prop1.value, prop2.value, newVal)];
    }
  }

  class CompositeReactiveProperty4<T1(==), T2(==), T3(==), T4(==)> {
    const prop1: ReactiveProperty<T1>
    const prop2: ReactiveProperty<T2>
    const prop3: ReactiveProperty<T3>
    const prop4: ReactiveProperty<T4>
    /** Every invocation of the composite's `OnChanged`. */
    ghost var broadcasts: seq<(T1, T2, T3, T4)>

    ghost function Sources(): seq<object> {
      [prop1 as object, prop2 as object, prop3 as object, prop4 as object]
    }

    /** Stores the sources and adds the handler of position k to the k-th source's `OnChanged`. */
    constructor (p1: ReactiveProperty<T1>, p2: ReactiveProperty<T2>, p3: ReactiveProperty<T3>, p4: ReactiveProperty<T4>)
      modifies p1, p2, p3, p4
      ensures prop1 == p1 && prop2 == p2 && prop3 == p3 && prop4 == p4 && broadcasts == []
      ensures p1.onChanged == old(p1.onChanged) + Registrations(this, Sources(), p1)
      ensures p2.onChanged == old(p2.onChanged) + Registrations(this, Sources(), p2)
      ensures p3.onChanged == old(p3.onChanged) + Registrations(this, Sources(), p3)
      ensures p4.onChanged == old(p4.onChanged) + Registrations(this, Sources(), p4)
      ensures p1.value == old(p1.value) && p2.value == old(p2.value)
      ensures p3.value == old(p3.value) && p4.value == old(p4.value)
      ensures p1.onBeforeValueChanged == old(p1.onBeforeValueChanged) && p1.notes == old(p1.notes)
      ensures p2.onBeforeValueChanged == old(p2.onBeforeValueChanged) && p2.notes == old(p2.notes)
      ensures p3.onBeforeValueChanged == old(p3.onBeforeValueChanged) && p3.notes == old(p3.notes)
      ensures p4.onBeforeValueChanged == old(p4.onBeforeValueChanged) && p4.notes == old(p4.notes)
    {
      prop1 := p1;
      prop2 := p2;
      prop3 := p3;
      prop4 := p4;
      broadcasts := [];
      new;
      // Any two sources may be one object, so every list is tracked after every call.
      p1.AddListener(Listener(this, 1));
      assert p2.onChanged == old(p2.onChanged) + At(this, p1, 1, p2);
      assert p3.onChanged == old(p3.onChanged) + At(this, p1, 1, p3);
      assert p4.onChanged == old(p4.onChanged) + At(this, p1, 1, p4);
      p2.AddListener(Listener(this, 2));
      assert p1.onChanged == old(p1.onChanged) + At(this, p1, 1, p1) + At(this, p2, 2, p1);
      assert p3.onChanged == old(p3.onChanged) + At(this, p1, 1, p3) + At(this, p2, 2, p3);
      assert p4.onChanged == old(p4.onChanged) + At(this, p1, 1, p4) + At(this, p2, 2, p4);
      p3.AddListener(Listener(this, 3));
      assert p1.onChanged == old(p1.onChanged) + At(this, p1, 1, p1) + At(this, p2, 2, p1) + At(this, p3, 3, p1);
      assert p2.onChanged == old(p2.onChanged) + At(this, p1, 1, p2) + At(this, p2, 2, p2) + At(this, p3, 3, p2);
      assert p4.onChanged == old(p4.onChanged) + At(this, p1, 1, p4) + At(this, p2, 2, p4) + At(this, p3, 3, p4);
      p4.AddListener(Listener(this, 4));
      AppendAfter4(old(p1.onChanged), At(this, p1, 1, p1), At(this, p2, 2, p1), At(this, p3, 3, p1), At(this, p4, 4, p1));
      AppendAfter4(old(p2.onChanged), At(this, p1, 1, p2), At(this, p2, 2, p2), At(this, p3, 3, p2), At(this, p4, 4, p2));
      AppendAfter4(old(p3.onChanged), At(this, p1, 1, p3), At(this, p2, 2, p3), At(this, p3, 3, p3), At(this, p4, 4, p3));
      AppendAfter4(old(p4.onChanged), At(this, p1, 1, p4), At(this, p2, 2, p4), At(this, p3, 3, p4), At(this, p4, 4, p4));
      assert Sources() == [p1 as object, p2 as object, p3 as object, p4 as object];
      Registrations4(this, p1, p2, p3, p4, p1);
      Registrations4(this, p1, p2, p3, p4, p2);
      Registrations4(this, p1, p2, p3, p4, p3);
      Registrations4(this, p1, p2, p3, p4, p4);
    }

    /** The handler on `prop1`: the new value at position 1, the others read now. */
    method HandleProp1Changed(newVal: T1)
      modifies this
      ensures broadcasts == old(broadcasts) + [(newVal, prop2.value, prop3.value, prop4.value)]
    {
      broadcasts := broadcasts + [(newVal, prop2.value, prop3.value, prop4.value)];
    }

    /** The handler on `prop2`: the new value at position 2, the others read now. */
    method HandleProp2Changed(newVal: T2)
      modifies this
      ensures broadcasts == old(broadcasts) + [(prop1.value, newVal, prop3.value, prop4.value)]
    {
      broadcasts := broadcasts + [(prop1.value, newVal, prop3.value, prop4.value)];
    }

    /** The handler on `prop3`: the new value at position 3, the others read now. */
    method HandleProp3Changed(newVal: T3)
      modifies this
      ensures broadcasts == old(broadcasts) + [(prop1.value, prop2.value, newVal, prop4.value)]
    {
      broadcasts := broadcasts + [(prop1.value, prop2.value, newVal, prop4.value)];
    }

    /** The handler on `prop4`: the new value at position 4, the others read now. */
    method HandleProp4Changed(newVal: T4)
      modifies this
      ensures broadcasts == old(broadcasts) + [(prop1.value, prop2.value, prop3.value, newVal)]
    {
      broadcasts := broadcasts + [(prop1.value, prop2.value, prop3.value, newVal)];
    }
  }

  /** `CompositeReactivePropertyFactory.Create` with two sources. */
  method Create2<T1(==), T2(==)>(p1: ReactiveProperty<T1>, p2: ReactiveProperty<T2>)
    returns (c: CompositeReactiveProperty2<T1, T2>)
    modifies p1, p2
    ensures fresh(c) && c.prop1 == p1 && c.prop2 == p2 && c.broadcasts == []
    ensures p1.onChanged == old(p1.onChanged) + Registrations(c, c.Sources(), p1)
    ensures p2.onChanged == old(p2.onChanged) + Registrations(c, c.Sources(), p2)
    ensures p1.value == old(p1.value) && p1.onBeforeValueChanged == old(p1.onBeforeValueChanged) && p1.notes == old(p1.notes)
    ensures p2.value == old(p2.value) && p2.onBeforeValueChanged == old(p2.onBeforeValueChanged) && p2.notes == old(p2.notes)
  {
    c := new CompositeReactiveProperty2(p1, p2);
  }

  /** `CompositeReactivePropertyFactory.Create` with three sources. */
  method Create3<T1(==), T2(==), T3(==)>(p1: ReactiveProperty<T1>, p2: ReactiveProperty<T2>, p3: ReactiveProperty<T3>)
    returns (c: CompositeReactiveProperty3<T1, T2, T3>)
    modifies p1, p2, p3
    ensures fresh(c) && c.prop1 == p1 && c.prop2 == p2 && c.prop3 == p3 && c.broadcasts == []
    ensures p1.onChanged == old(p1.onChanged) + Registrations(c, c.Sources(), p1)
    ensures p2.onChanged == old(p2.onChanged) + Registrations(c, c.Sources(), p2)
    ensures p3.onChanged == old(p3.onChanged) + Registrations(c, c.Sources(), p3)
    ensures p1.value == old(p1.value) && p1.onBeforeValueChanged == old(p1.onBeforeValueChanged) && p1.notes == old(p1.notes)
    ensures p2.value == old(p2.value) && p2.onBeforeValueChanged == old(p2.onBeforeValueChanged) && p2.notes == old(p2.notes)
    ensures p3.value == old(p3.value) && p3.onBeforeValueChanged == old(p3.onBeforeValueChanged) && p3.notes == old(p3.notes)
  {
    c := new CompositeReactiveProperty3(p1, p2, p3);
  }

  /** `CompositeReactivePropertyFactory.Create` with four sources. */
  method Create4<T1(==), T2(==), T3(==), T4(==)>(
    p1: ReactiveProperty<T1>, p2: ReactiveProperty<T2>, p3: ReactiveProperty<T3>, p4: ReactiveProperty<T4>)
    returns (c: CompositeReactiveProperty4<T1, T2, T3, T4>)
    modifies p1, p2, p3, p4
    ensures fresh(c) && c.prop1 == p1 && c.prop2 == p2 && c.prop3 == p3 && c.prop4 == p4 && c.broadcasts == []
    ensures p1.onChanged == old(p1.onChanged) + Registrations(c, c.Sources(), p1)
    ensures p2.onChanged == old(p2.onChanged) + Registrations(c, c.Sources(), p2)
    ensures p3.onChanged == old(p3.onChanged) + Registrations(c, c.Sources(), p3)
    ensures p4.onChanged == old(p4.onChanged) + Registrations(c, c.Sources(), p4)
    ensures p1.value == old(p1.value) && p1.onBeforeValueChanged == old(p1.onBeforeValueChanged) && p1.notes == old(p1.notes)
    ensures p2.value == old(p2.value) && p2.onBeforeValueChanged == old(p2.onBeforeValueChanged) && p2.notes == old(p2.notes)
    ensures p3.value == old(p3.value) && p3.onBeforeValueChanged == old(p3.onBeforeValueChanged) && p3.notes == old(p3.notes)
    ensures p4.value == old(p4.value) && p4.onBeforeValueChanged == old(p4.onBeforeValueChanged) && p4.notes == old(p4.notes)
  {
    c := new CompositeReactiveProperty4(p1, p2, p3, p4);
  }
}
