/**
 * `EventsSubscriber`: the ordered list of subscription handles one owner has made.
 * Handles of both kinds sit in one list (`IEventSubscriber` in the source), so a list
 * entry is a `Handle` that says which kind of handle it is.
 */
module Registries {
  import opened Listeners
  import opened Seqs
  import ES = EventSubscribers
  import SS = SignalSubscribers

  /** An `IEventSubscriber`: an event handle or a signal handle. */
  datatype Handle = EventHandle(e: ES.EventSubscriber) | SignalHandle(s: SS.SignalSubscriber)

  /** The event handles among `hs`. */
  function EventsOf(hs: seq<Handle>): set<ES.EventSubscriber> {
    set h | h in hs && h.EventHandle? :: h.e
  }

  /** The signal handles among `hs`. */
  function SignalsOf(hs: seq<Handle>): set<SS.SignalSubscriber> {
    set h | h in hs && h.SignalHandle? :: h.s
  }

  ghost predicate HandleBound(h: Handle)
    reads EventsOf([h]), SignalsOf([h])
  {
    match h
    case EventHandle(e) => e.Bound()
    case SignalHandle(s) => s.Bound()
  }

  function RegistrationOf(h: Handle): Binding
    reads EventsOf([h]), SignalsOf([h])
    requires HandleBound(h)
  {
    match h
    case EventHandle(e) => e.Registration()
    case SignalHandle(s) => s.Registration()
  }

  ghost predicate AllBound(hs: seq<Handle>)
    reads EventsOf(hs), SignalsOf(hs)
  {
    forall h :: h in hs ==> HandleBound(h)
  }

  /** The handle holds no reference to an event or a handler: what its `OnDespawned` leaves. */
  ghost predicate HandleReleased(h: Handle)
    reads EventsOf([h]), SignalsOf([h])
  {
    match h
    case EventHandle(e) => e.Released()
    case SignalHandle(s) => s.Released()
  }

  ghost predicate AllReleased(hs: seq<Handle>)
    reads EventsOf(hs), SignalsOf(hs)
  {
    forall h :: h in hs ==> HandleReleased(h)
  }

  /** The registrations a list of bound handles stands for, in list order. */
  function Registrations(hs: seq<Handle>): (bs: seq<Binding>)
    reads EventsOf(hs), SignalsOf(hs)
    requires AllBound(hs)
    ensures |bs| == |hs|
    ensures forall k :: 0 <= k < |hs| ==> bs[k] == RegistrationOf(hs[k])
  {
    if hs == [] then []
    else
      assert EventsOf(hs[..|hs| - 1]) <= EventsOf(hs) && SignalsOf(hs[..|hs| - 1]) <= SignalsOf(hs);
      Registrations(hs[..|hs| - 1]) + [RegistrationOf(hs[|hs| - 1])]
  }

  /** The event-handle free lists after each event handle of `hs` is pushed, in order. */
  function ReturnEvents(free: map<ES.Arity, seq<ES.EventSubscriber>>, hs: seq<Handle>): map<ES.Arity, seq<ES.EventSubscriber>>
  {
    if hs == [] then free
    else
      var rest := ReturnEvents(free, hs[..|hs| - 1]);
      match hs[|hs| - 1]
      case EventHandle(e) => ES.Pushed(rest, e)
      case SignalHandle(_) => rest
  }

  /** The signal-handle free lists after each signal handle of `hs` is pushed, in order. */
  function ReturnSignals(free: map<TypeTag, seq<SS.SignalSubscriber>>, hs: seq<Handle>): map<TypeTag, seq<SS.SignalSubscriber>>
  {
    if hs == [] then free
    else
      var rest := ReturnSignals(free, hs[..|hs| - 1]);
      match hs[|hs| - 1]
      case SignalHandle(s) => SS.Pushed(rest, s)
      case EventHandle(_) => rest
  }

  /** The handle objects of a concatenation are those of its parts. */
  lemma OfConcat(a: seq<Handle>, b: seq<Handle>)
    ensures EventsOf(a + b) == EventsOf(a) + EventsOf(b)
    ensures SignalsOf(a + b) == SignalsOf(a) + SignalsOf(b)
  {
    assert forall h :: h in a + b <==> h in a || h in b;
  }

  /** A handle that is not listed in `hs` shares no object with `hs`. */
  lemma NotListedDisjoint(h: Handle, hs: seq<Handle>)
    requires h !in hs
    ensures EventsOf([h]) !! EventsOf(hs) && SignalsOf([h]) !! SignalsOf(hs)
  {
    forall e | e in EventsOf(hs)
      ensures e !in EventsOf([h])
    {
      assert EventHandle(e) in hs;
    }
    forall s | s in SignalsOf(hs)
      ensures s !in SignalsOf([h])
    {
      assert SignalHandle(s) in hs;
    }
  }

  /** Handles that are busy in well-formed pools are bound. */
  lemma BusyAreBound(hs: seq<Handle>, eventPool: ES.EventSubscriberPool, signalPool: SS.SignalSubscriberPool)
    requires eventPool.Valid() && signalPool.Valid()
    requires EventsOf(hs) <= eventPool.busy && SignalsOf(hs) <= signalPool.busy
    ensures AllBound(hs)
  {
    forall h | h in hs
      ensures HandleBound(h)
    {
      match h {
        case EventHandle(e) => assert e in EventsOf(hs);
        case SignalHandle(s) => assert s in SignalsOf(hs);
      }
    }
  }

  /** Returning one more handle extends the folds by one step. */
  lemma ReturnSnoc(eventFree: map<ES.Arity, seq<ES.EventSubscriber>>, signalFree: map<TypeTag, seq<SS.SignalSubscriber>>, hs: seq<Handle>, h: Handle)
    ensures ReturnEvents(eventFree, hs + [h]) == ReturnEvents(ReturnEvents(eventFree, hs), [h])
    ensures ReturnSignals(signalFree, hs + [h]) == ReturnSignals(ReturnSignals(signalFree, hs), [h])
  {
    assert (hs + [h])[..|hs|] == hs;
    assert [h][..0] == [];
  }

  /** The objects of one listed handle are among the objects of the list. */
  lemma OfElement(hs: seq<Handle>, k: int)
    requires 0 <= k < |hs|
    ensures EventsOf([hs[k]]) <= EventsOf(hs) && SignalsOf([hs[k]]) <= SignalsOf(hs)
  {
    assert hs[k] in hs;
  }

  /** `IEventSubscriber.OnDespawned`, dispatched on the kind of handle. */
  method DespawnHandle(h: Handle, eventPool: ES.EventSubscriberPool, signalPool: SS.SignalSubscriberPool,
                       ghost released: seq<Handle>)
    requires AllReleased(released)
    modifies EventsOf([h]), SignalsOf([h]), eventPool, signalPool
    ensures HandleReleased(h) && AllReleased(released)
    ensures eventPool.free == ReturnEvents(old(eventPool.free), [h])
    ensures signalPool.free == ReturnSignals(old(signalPool.free), [h])
    ensures eventPool.busy == old(eventPool.busy) - EventsOf([h])
    ensures signalPool.busy == old(signalPool.busy) - SignalsOf([h])
    ensures old(eventPool.Valid() && signalPool.Valid() && EventsOf([h]) <= eventPool.busy && SignalsOf([h]) <= signalPool.busy)
      ==> eventPool.Valid() && signalPool.Valid()
  {
    assert [h][..0] == [];
    match h {
      case EventHandle(e) =>
        assert EventsOf([h]) == {e} && SignalsOf([h]) == {};
        e.OnDespawned(eventPool);
      case SignalHandle(s) =>
        assert EventsOf([h]) == {} && SignalsOf([h]) == {s};
        s.OnDespawned(signalPool);
    }
  }

  /** One step of `OnDespawned`'s loop: returning `hs[i]` extends the folds over `hs[..i]` by one handle. */
  method DespawnNext(hs: seq<Handle>, i: nat, eventPool: ES.EventSubscriberPool, signalPool: SS.SignalSubscriberPool,
                     ghost eventFree: map<ES.Arity, seq<ES.EventSubscriber>>, ghost signalFree: map<TypeTag, seq<SS.SignalSubscriber>>,
                     ghost eventBusy: set<ES.EventSubscriber>, ghost signalBusy: set<SS.SignalSubscriber>)
    requires i < |hs|
    requires eventPool.free == ReturnEvents(eventFree, hs[..i]) && signalPool.free == ReturnSignals(signalFree, hs[..i])
    requires eventPool.busy == eventBusy - EventsOf(hs[..i]) && signalPool.busy == signalBusy - SignalsOf(hs[..i])
    requires forall k | 0 <= k < i :: HandleReleased(hs[k])
    modifies EventsOf([hs[i]]), SignalsOf([hs[i]]), eventPool, signalPool
    ensures forall k | 0 <= k <= i :: HandleReleased(hs[k])
    ensures eventPool.free == ReturnEvents(eventFree, hs[..i + 1]) && signalPool.free == ReturnSignals(signalFree, hs[..i + 1])
    ensures eventPool.busy == eventBusy - EventsOf(hs[..i + 1]) && signalPool.busy == signalBusy - SignalsOf(hs[..i + 1])
    ensures old(eventPool.Valid() && signalPool.Valid() && EventsOf([hs[i]]) <= eventPool.busy && SignalsOf([hs[i]]) <= signalPool.busy)
      ==> eventPool.Valid() && signalPool.Valid()
  {
    var h := hs[i];
    assert hs[..i + 1] == hs[..i] + [h];
    ReturnSnoc(eventFree, signalFree, hs[..i], h);
    OfConcat(hs[..i], [h]);
    ReleasedPrefix(hs, i);
    DespawnHandle(h, eventPool, signalPool, hs[..i]);
    ReleasedPrefix(hs, i);
  }

  /** The released handles among the first `i` are exactly a released prefix. */
  lemma ReleasedPrefix(hs: seq<Handle>, i: nat)
    requires i <= |hs|
    ensures AllReleased(hs[..i]) <==> forall k | 0 <= k < i :: HandleReleased(hs[k])
  {
    assert forall k | 0 <= k < i :: hs[k] in hs[..i];
  }

  class EventsSubscriber {
    var eventSubscribers: seq<Handle>

    constructor ()
      ensures eventSubscribers == []
    {
      eventSubscribers := [];
    }

    /** The three `Subscribe` overloads: spawn one event handle and append it. */
    method Subscribe(table: ListenerTable, pool: ES.EventSubscriberPool, arity: ES.Arity, unityEvent: SourceId, handler: HandlerId)
      returns (ghost added: ES.EventSubscriber)
      requires pool.Valid()
      modifies this, table, pool, ES.TopOf(pool.free, arity)
      ensures pool.Valid()
      ensures eventSubscribers == old(eventSubscribers) + [EventHandle(added)]
      ensures added.arity == arity && added.Bound() && added.Registration() == Binding(Event(unityEvent), handler)
      ensures added !in old(pool.busy) && pool.busy == old(pool.busy) + {added}
      ensures var stack := old(ES.FreeOf(pool.free, arity));
        if |stack| > 0 then added == stack[|stack| - 1] && pool.free == old(pool.free)[arity := stack[..|stack| - 1]]
        else fresh(added) && pool.free == old(pool.free)
      ensures table.listeners == Attach(old(table.listeners), Binding(Event(unityEvent), handler))
    {
      var subscriber := pool.Spawn(table, arity, unityEvent, handler);
      eventSubscribers := eventSubscribers + [EventHandle(subscriber)];
      added := subscriber;
    }

    /** `SubscribeSignal<T>`: spawn one signal handle and append it. */
    method SubscribeSignal(table: ListenerTable, pool: SS.SignalSubscriberPool, signalType: TypeTag, handler: HandlerId)
      returns (ghost added: SS.SignalSubscriber)
      requires pool.Valid()
      modifies this, table, pool, SS.TopOf(pool.free, signalType)
      ensures pool.Valid()
      ensures eventSubscribers == old(eventSubscribers) + [SignalHandle(added)]
      ensures added.signalType == signalType && added.Bound() && added.Registration() == Binding(Signal(signalType), handler)
      ensures added !in old(pool.busy) && pool.busy == old(pool.busy) + {added}
      ensures var stack := old(SS.FreeOf(pool.free, signalType));
        if |stack| > 0 then added == stack[|stack| - 1] && pool.free == old(pool.free)[signalType := stack[..|stack| - 1]]
        else fresh(added) && pool.free == old(pool.free)
      ensures table.listeners == Attach(old(table.listeners), Binding(Signal(signalType), handler))
    {
      var subscriber := pool.Spawn(table, signalType, handler);
      eventSubscribers := eventSubscribers + [SignalHandle(subscriber)];
      added := subscriber;
    }

    /** Detaches every handle, in list order; the list itself stays as it is. */
    method Unsubscribe(table: ListenerTable)
      requires AllBound(eventSubscribers)
      modifies table
      ensures table.listeners == DetachAll(old(table.listeners), old(Registrations(eventSubscribers)))
    {
      ghost var regs := Registrations(eventSubscribers);
      ghost var m0 := table.listeners;
      var i := 0;
      while i < |eventSubscribers|
        invariant 0 <= i <= |eventSubscribers|
        invariant table.listeners == DetachAll(m0, regs[..i])
        decreases |eventSubscribers| - i
      {
        var h := eventSubscribers[i];
        assert h in eventSubscribers;
        ghost var before := table.listeners;
        match h {
          case EventHandle(e) =>
            assert old(e.Bound()) && regs[i] == old(e.Registration());
            e.Unsubscribe(table);
          case SignalHandle(s) =>
            assert old(s.Bound()) && regs[i] == old(s.Registration());
            s.Unsubscribe(table);
        }
        assert table.listeners == Detach(before, regs[i]);
        DetachAllPrefix(m0, regs, i);
        i := i + 1;
      }
      assert regs[..i] == regs;
    }

    /**
     * Returns every handle to its pool, in list order, then empties the list. Handles that
     * are listed once and busy leave the pools well formed.
     */
    method OnDespawned(eventPool: ES.EventSubscriberPool, signalPool: SS.SignalSubscriberPool)
      modifies this, eventPool, signalPool, EventsOf(eventSubscribers), SignalsOf(eventSubscribers)
      ensures eventSubscribers == []
      ensures AllReleased(old(eventSubscribers))
      ensures eventPool.free == ReturnEvents(old(eventPool.free), old(eventSubscribers))
      ensures signalPool.free == ReturnSignals(old(signalPool.free), old(eventSubscribers))
      ensures eventPool.busy == old(eventPool.busy) - EventsOf(old(eventSubscribers))
      ensures signalPool.busy == old(signalPool.busy) - SignalsOf(old(eventSubscribers))
      ensures old(eventPool.Valid() && signalPool.Valid() && Distinct(eventSubscribers)
                  && EventsOf(eventSubscribers) <= eventPool.busy && SignalsOf(eventSubscribers) <= signalPool.busy)
        ==> eventPool.Valid() && signalPool.Valid()
    {
      var hs := eventSubscribers;
      ghost var ok := eventPool.Valid() && signalPool.Valid() && Distinct(hs) && EventsOf(hs) <= eventPool.busy && SignalsOf(hs) <= signalPool.busy;
      var i := 0;
      while i < |hs|
        invariant 0 <= i <= |hs|
        invariant eventPool.free == ReturnEvents(old(eventPool.free), hs[..i])
        invariant signalPool.free == ReturnSignals(old(signalPool.free), hs[..i])
        invariant eventPool.busy == old(eventPool.busy) - EventsOf(hs[..i])
        invariant signalPool.busy == old(signalPool.busy) - SignalsOf(hs[..i])
        invariant ok ==> eventPool.Valid() && signalPool.Valid()
        invariant forall k | 0 <= k < i :: HandleReleased(hs[k])
      {
        var h := hs[i];
        OfElement(hs, i);
        if ok {
          assert h !in hs[..i] by {
            forall j | 0 <= j < i
              ensures hs[j] != h
            {
            }
          }
          NotListedDisjoint(h, hs[..i]);
        }
        DespawnNext(hs, i, eventPool, signalPool, old(eventPool.free), old(signalPool.free), old(eventPool.busy), old(signalPool.busy));
        i := i + 1;
      }
      assert hs[..i] == hs;
      eventSubscribers := [];
      forall h | h in hs
        ensures HandleReleased(h)
      {
        var k :| 0 <= k < |hs| && hs[k] == h;
      }
    }

    /** The registry pool's spawn hook does nothing. */
    method OnSpawned()
      ensures eventSubscribers == old(eventSubscribers)
    {
    }
  }
}
