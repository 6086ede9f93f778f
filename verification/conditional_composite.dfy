/**
 * `ConditionalCompositeReactiveProperty`: a boolean aggregate over registered reactive
 * properties. Each record keeps a source, a predicate and the last value seen from the
 * source; the result is the predicate over the last values, combined by ANY or ALL, or
 * `emptyValue` when nothing is registered. Structural changes always invoke
 * `OnResultChanged`; a change of a source invokes it only when the result changes.
 *
 * The C# records hold `object` values; here all sources of one aggregate share one
 * element type `V`, and a value is an `Option<V>` whose `None` is `null`.
 */
module ConditionalComposites {
  import opened Wrappers
  import opened Seqs
  import opened ReactiveProperties

  datatype CombinationMode = Any | All

  /** `PropertyData`: the source, its predicate, and `LastValue`. */
  datatype Record<!V(==)> = Record(source: ReactiveProperty<Option<V>>, test: Option<V> -> bool, lastValue: Option<V>)

  /** The record's predicate on its last value. */
  predicate Holds<V(==)>(r: Record<V>) {
    r.test(r.lastValue)
  }

  /** `Enumerable.Any` over the records. */
  function AnyHolds<V(==)>(rs: seq<Record<V>>): (b: bool)
    ensures b <==> exists i :: 0 <= i < |rs| && Holds(rs[i])
  {
    if rs == [] then false
    else
      assert forall i :: 1 <= i < |rs| ==> rs[i] == rs[1..][i - 1];
      Holds(rs[0]) || AnyHolds(rs[1..])
  }

  /** `Enumerable.All` over the records. */
  function AllHolds<V(==)>(rs: seq<Record<V>>): (b: bool)
    ensures b <==> forall i :: 0 <= i < |rs| ==> Holds(rs[i])
  {
    if rs == [] then true
    else
      assert forall i :: 1 <= i < |rs| ==> rs[i] == rs[1..][i - 1];
      Holds(rs[0]) && AllHolds(rs[1..])
  }

  /** The result `UpdateResult` computes for these records. */
  function Combined<V(==)>(mode: CombinationMode, rs: seq<Record<V>>, emptyValue: bool): bool {
    if rs == [] then emptyValue
    else match mode
      case Any => AnyHolds(rs)
      case All => AllHolds(rs)
  }

  /** Over a non-empty list, ALL implies ANY. */
  lemma AllImpliesAny<V>(rs: seq<Record<V>>, emptyValue: bool)
    requires rs != []
    ensures Combined(All, rs, emptyValue) ==> Combined(Any, rs, emptyValue)
  {
    if Combined(All, rs, emptyValue) {
      assert Holds(rs[0]);
    }
  }

  /** The sources, in registration order. */
  function SourcesOf<V(==)>(rs: seq<Record<V>>): seq<ReactiveProperty<Option<V>>> {
    seq(|rs|, i requires 0 <= i < |rs| => rs[i].source)
  }

  class ConditionalCompositeReactiveProperty<V(==)> {
    var records: seq<Record<V>>
    var mode: CombinationMode
    var cachedValue: bool
    const emptyValue: bool
    /** Every invocation of `OnResultChanged`. */
    ghost var notes: seq<bool>

    /**
     * No source is registered twice, and once a record exists the cached value is the
     * combination of the records.
     */
    ghost predicate Valid()
      reads this
    {
      && Distinct(SourcesOf(records))
      && (records != [] ==> cachedValue == Combined(mode, records, emptyValue))
    }

    /** The listener every record registers on its source. */
    function Handler(): Listener {
      Listener(this, 0)
    }

    /** Nothing registered, mode ANY, and a cached value of `false` whatever `emptyValue` is. */
    constructor (emptyValue: bool)
      ensures Valid() && this.emptyValue == emptyValue
      ensures records == [] && mode == Any && !cachedValue && notes == []
    {
      this.emptyValue := emptyValue;
      records := [];
      mode := Any;
      cachedValue := false;
      notes := [];
    }

    /** The `Value` getter. */
    function Value(): (b: bool)
      reads this
      requires Valid()
      ensures records != [] ==> b == Combined(mode, records, emptyValue)
    {
      cachedValue
    }

    /**
     * Recomputes the cached value. A trigger with a non-null value coming from a
     * registered source first overwrites that record's last value; a null value is not
     * stored. The event is invoked when forced, or when the result differs from the
     * previous cached value.
     */
    method UpdateResult(triggeredBy: ReactiveProperty?<Option<V>>, newValue: Option<V>, forceNotify: bool)
      requires Distinct(SourcesOf(records))
      modifies this
      ensures Valid() && mode == old(mode)
      ensures var k := IndexOf(SourcesOf(old(records)), triggeredBy);
        if triggeredBy != null && newValue.Some? && k < |old(records)|
        then records == old(records)[k := old(records)[k].(lastValue := newValue)]
        else records == old(records)
      ensures cachedValue == Combined(mode, records, emptyValue)
      ensures notes == old(notes) + (if forceNotify || cachedValue != old(cachedValue) then [cachedValue] else [])
    {
      var previousResult := cachedValue;
      if triggeredBy != null && newValue.Some? {
        var k := IndexOf(SourcesOf(records), triggeredBy);
        if k < |records| {
          records := records[k := records[k].(lastValue := newValue)];
          assert SourcesOf(records) == SourcesOf(old(records));
        }
      }
      if |records| > 0 {
        cachedValue := match mode
          case Any => AnyHolds(records)
          case All => AllHolds(records);
      } else {
        cachedValue := emptyValue;
      }
      if forceNotify || cachedValue != previousResult {
        notes := notes + [cachedValue];
      }
    }

    /**
     * A null or already registered source (compared by reference) changes nothing.
     * Otherwise the source's current value becomes the record's last value, the handler
     * is added to the source's `OnChanged`, the record is appended, and the result is
     * recomputed and always announced.
     */
    method Add(property: ReactiveProperty?<Option<V>>, test: Option<V> -> bool)
      requires Valid()
      modifies this, property
      ensures Valid() && mode == old(mode)
      ensures property == null ==> unchanged(this)
      ensures property != null && property in old(SourcesOf(records)) ==> unchanged(this, property)
      ensures property != null && property !in old(SourcesOf(records)) ==>
        && records == old(records) + [Record(property, test, old(property.value))]
        && property.onChanged == old(property.onChanged) + [Handler()]
        && property.value == old(property.value)
        && property.notes == old(property.notes)
        && property.onBeforeValueChanged == old(property.onBeforeValueChanged)
        && cachedValue == Combined(mode, records, emptyValue)
        && notes == old(notes) + [cachedValue]
    {
      if property == null || property in SourcesOf(records) {
        return;
      }
      var data := Record(property, test, property.value);
      property.AddListener(Handler());
      DistinctSnoc(SourcesOf(records), property);
      records := records + [data];
      assert SourcesOf(records) == SourcesOf(old(records)) + [property];
      UpdateResult(null, None, true);
    }

    /**
     * Removes the handler from the source, drops the source's record, then recomputes and
     * always announces the result. The C# code dereferences a null record when the source
     * is not registered, hence the precondition.
     */
    method Remove(property: ReactiveProperty<Option<V>>)
      requires Valid() && property in SourcesOf(records)
      modifies this, property
      ensures Valid() && mode == old(mode)
      ensures records == RemoveAt(old(records), IndexOf(old(SourcesOf(records)), property))
      ensures property.onChanged == Without(old(property.onChanged), Handler())
      ensures property.value == old(property.value) && property.notes == old(property.notes)
      ensures property.onBeforeValueChanged == old(property.onBeforeValueChanged)
      ensures cachedValue == Combined(mode, records, emptyValue)
      ensures notes == old(notes) + [cachedValue]
    {
      var k := IndexOf(SourcesOf(records), property);
      property.RemoveListener(Handler());
      RemoveAtSources(records, k);
      records := RemoveAt(records, k);
      UpdateResult(null, None, true);
    }

    /** Removes the handler from every registered source, drops all records, then announces `emptyValue`. */
    method ClearAll()
      requires Valid()
      modifies this, set s | s in SourcesOf(records)
      ensures Valid() && records == [] && mode == old(mode)
      ensures forall s | s in old(SourcesOf(records)) :: s.onChanged == Without(old(s.onChanged), Handler())
      ensures forall s | s in old(SourcesOf(records)) :: s.value == old(s.value)
      ensures forall s | s in old(SourcesOf(records)) ::
        s.notes == old(s.notes) && s.onBeforeValueChanged == old(s.onBeforeValueChanged)
      ensures cachedValue == emptyValue && notes == old(notes) + [emptyValue]
    {
      RemoveFromAll(SourcesOf(records), Handler());
      records := [];
      UpdateResult(null, None, true);
    }

    /** The `Mode` setter: the same mode changes nothing; a new one is stored and the result recomputed and announced. */
    method SetMode(m: CombinationMode)
      requires Valid()
      modifies this
      ensures Valid() && mode == m && records == old(records)
      ensures m == old(mode) ==> cachedValue == old(cachedValue) && notes == old(notes)
      ensures m != old(mode) ==> cachedValue == Combined(m, records, emptyValue) && notes == old(notes) + [cachedValue]
    {
      if mode == m {
        return;
      }
      mode := m;
      UpdateResult(null, None, true);
    }
  }

  /** The `foreach` of `ClearAll`: each record's unsubscribe action, in order. */
  method RemoveFromAll<V(==)>(sources: seq<ReactiveProperty<Option<V>>>, h: Listener)
    requires Distinct(sources)
    modifies set s | s in sources
    ensures forall j | 0 <= j < |sources| :: sources[j].onChanged == Without(old(sources[j].onChanged), h)
    ensures forall j | 0 <= j < |sources| :: sources[j].value == old(sources[j].value)
    ensures forall j | 0 <= j < |sources| ::
      sources[j].notes == old(sources[j].notes) && sources[j].onBeforeValueChanged == old(sources[j].onBeforeValueChanged)
  {
    var i := 0;
    while i < |sources|
      invariant i <= |sources|
      invariant forall j | 0 <= j < i :: sources[j].onChanged == Without(old(sources[j].onChanged), h)
      invariant forall j | i <= j < |sources| :: sources[j].onChanged == old(sources[j].onChanged)
      invariant forall j | 0 <= j < |sources| :: sources[j].value == old(sources[j].value)
      invariant forall j | 0 <= j < |sources| ::
        sources[j].notes == old(sources[j].notes) && sources[j].onBeforeValueChanged == old(sources[j].onBeforeValueChanged)
    {
      sources[i].RemoveListener(h);
      i := i + 1;
    }
  }

  /** Dropping a record drops its source, so the sources stay distinct. */
  lemma RemoveAtSources<V>(rs: seq<Record<V>>, k: nat)
    requires k < |rs| && Distinct(SourcesOf(rs))
    ensures Distinct(SourcesOf(RemoveAt(rs, k)))
  {
    assert SourcesOf(RemoveAt(rs, k)) == RemoveAt(SourcesOf(rs), k);
    DistinctRemoveAt(SourcesOf(rs), k);
  }
}
