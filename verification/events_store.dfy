/**
 * `EventsStore`: the dictionary from owner to registry, with a pool of idle registries.
 * Owners are identified by number; the static handle pools and the listener lists of all
 * events and of the signal hub are shared objects the store is given.
 */
module Store {
  import opened Listeners
  import opened Seqs
  import opened Registries
  import ES = EventSubscribers
  import SS = SignalSubscribers

  /** An owner (`object subscriber` in the source), by identity. */
  type Owner = nat

  /**
   * One registry per owner and never one registry for two owners; idle registries are
   * listed once, empty and not mapped.
   */
  ghost predicate RegistriesOk(subscribers: map<Owner, EventsSubscriber>, pool: seq<EventsSubscriber>)
    reads set r | r in pool
  {
    && (forall o, p :: o in subscribers && p in subscribers && o != p ==> subscribers[o] != subscribers[p])
    && Distinct(pool)
    && (forall o :: o in subscribers ==> subscribers[o] !in pool)
    && (forall r :: r in pool ==> r.eventSubscribers == [])
  }

  /** Unmapping an owner whose registry is empty and pushing that registry keeps the invariant. */
  lemma PushKeepsRegistries(subscribers: map<Owner, EventsSubscriber>, pool: seq<EventsSubscriber>, owner: Owner)
    requires RegistriesOk(subscribers, pool) && owner in subscribers
    requires subscribers[owner].eventSubscribers == []
    ensures RegistriesOk(subscribers - {owner}, pool + [subscribers[owner]])
  {
    var value := subscribers[owner];
    DistinctSnoc(pool, value);
    forall o | o in subscribers - {owner}
      ensures (subscribers - {owner})[o] !in pool + [value]
    {
      assert subscribers[o] != value;
    }
  }

  class EventsStore {
    var subscribers: map<Owner, EventsSubscriber>
    var subscribersPool: seq<EventsSubscriber>
    const table: ListenerTable
    const eventPool: ES.EventSubscriberPool
    const signalPool: SS.SignalSubscriberPool

    ghost predicate Valid()
      reads this, set r | r in subscribersPool
    {
      RegistriesOk(subscribers, subscribersPool)
    }

    /** The handles the owner's registry holds, in subscription order; none without a registry. */
    function HandlesOf(owner: Owner): seq<Handle>
      reads this, subscribers.Values
    {
      if owner in subscribers then subscribers[owner].eventSubscribers else []
    }

    /** The owner's registry, if it has one. */
    function RegistryOf(owner: Owner): set<EventsSubscriber>
      reads this
    {
      if owner in subscribers then {subscribers[owner]} else {}
    }

    constructor (table: ListenerTable, eventPool: ES.EventSubscriberPool, signalPool: SS.SignalSubscriberPool)
      ensures Valid()
      ensures subscribers == map[] && subscribersPool == []
      ensures this.table == table && this.eventPool == eventPool && this.signalPool == signalPool
    {
      subscribers := map[];
      subscribersPool := [];
      this.table := table;
      this.eventPool := eventPool;
      this.signalPool := signalPool;
    }

    /** `subscribersPool.Spawn()`: pops an idle registry, or allocates one; its spawn hook does nothing. */
    method SpawnRegistry() returns (value: EventsSubscriber)
      requires Valid()
      modifies this
      ensures Valid() && subscribers == old(subscribers)
      ensures value !in subscribers.Values && value.eventSubscribers == []
      ensures if |old(subscribersPool)| > 0 then value == old(subscribersPool[|subscribersPool| - 1]) && subscribersPool == old(subscribersPool[..|subscribersPool| - 1])
              else fresh(value) && subscribersPool == old(subscribersPool)
    {
      if |subscribersPool| > 0 {
        value := subscribersPool[|subscribersPool| - 1];
        assert value in subscribersPool;
        subscribersPool := subscribersPool[..|subscribersPool| - 1];
        assert Distinct(subscribersPool);
      } else {
        value := new EventsSubscriber();
      }
      value.OnSpawned();
    }

    /**
     * The owner's registry: the existing one, or a spawned (empty) one that is mapped to
     * the owner. Either way the owner ends up with exactly one registry.
     */
    method GetSubscriber(owner: Owner) returns (value: EventsSubscriber)
      requires Valid()
      modifies this
      ensures Valid()
      ensures subscribers == old(subscribers)[owner := value]
      ensures HandlesOf(owner) == old(HandlesOf(owner))
      ensures forall o :: o != owner ==> HandlesOf(o) == old(HandlesOf(o))
      ensures owner in old(subscribers) ==> value == old(subscribers[owner]) && subscribersPool == old(subscribersPool)
      ensures owner !in old(subscribers) ==>
        if |old(subscribersPool)| > 0 then value == old(subscribersPool[|subscribersPool| - 1]) && subscribersPool == old(subscribersPool[..|subscribersPool| - 1])
        else fresh(value) && subscribersPool == old(subscribersPool)
    {
      if owner in subscribers {
        value := subscribers[owner];
        assert subscribers == subscribers[owner := value];
        return;
      }
      value := SpawnRegistry();
      subscribers := subscribers[owner := value];
    }

    /** `SubscribeEvent` (all three arities): one event handle more for this owner, and none for any other. */
    method SubscribeEvent(owner: Owner, arity: ES.Arity, unityEvent: SourceId, handler: HandlerId)
      returns (ghost added: ES.EventSubscriber)
      requires Valid() && eventPool.Valid()
      modifies this, table, eventPool, subscribers.Values, (set r | r in subscribersPool), ES.TopOf(eventPool.free, arity)
      ensures Valid() && eventPool.Valid()
      ensures subscribers.Keys == old(subscribers).Keys + {owner}
      ensures forall o :: o in old(subscribers) ==> subscribers[o] == old(subscribers[o])
      ensures HandlesOf(owner) == old(HandlesOf(owner)) + [EventHandle(added)]
      ensures forall o :: o != owner ==> HandlesOf(o) == old(HandlesOf(o))
      ensures added.arity == arity && added.Bound() && added.Registration() == Binding(Event(unityEvent), handler)
      ensures added !in old(eventPool.busy) && eventPool.busy == old(eventPool.busy) + {added}
      ensures var stack := old(ES.FreeOf(eventPool.free, arity));
        if |stack| > 0 then added == stack[|stack| - 1] && eventPool.free == old(eventPool.free)[arity := stack[..|stack| - 1]]
        else fresh(added) && eventPool.free == old(eventPool.free)
      ensures owner in old(subscribers) ==> subscribersPool == old(subscribersPool)
      ensures owner !in old(subscribers) ==>
        if |old(subscribersPool)| > 0 then subscribers[owner] == old(subscribersPool[|subscribersPool| - 1]) && subscribersPool == old(subscribersPool[..|subscribersPool| - 1])
        else fresh(subscribers[owner]) && subscribersPool == old(subscribersPool)
      ensures table.listeners == Attach(old(table.listeners), Binding(Event(unityEvent), handler))
    {
      var value := GetSubscriber(owner);
      added := SubscribeEventOwned(owner, arity, unityEvent, handler);
    }

    /** The second half of `SubscribeEvent`: the registry of a mapped owner spawns and appends the handle. */
    method SubscribeEventOwned(owner: Owner, arity: ES.Arity, unityEvent: SourceId, handler: HandlerId)
      returns (ghost added: ES.EventSubscriber)
      requires Valid() && eventPool.Valid() && owner in subscribers
      modifies table, eventPool, subscribers[owner], ES.TopOf(eventPool.free, arity)
      ensures Valid() && eventPool.Valid()
      ensures subscribers == old(subscribers) && subscribersPool == old(subscribersPool)
      ensures HandlesOf(owner) == old(HandlesOf(owner)) + [EventHandle(added)]
      ensures forall o :: o != owner ==> HandlesOf(o) == old(HandlesOf(o))
      ensures added.arity == arity && added.Bound() && added.Registration() == Binding(Event(unityEvent), handler)
      ensures added !in old(eventPool.busy) && eventPool.busy == old(eventPool.busy) + {added}
      ensures var stack := old(ES.FreeOf(eventPool.free, arity));
        if |stack| > 0 then added == stack[|stack| - 1] && eventPool.free == old(eventPool.free)[arity := stack[..|stack| - 1]]
        else fresh(added) && eventPool.free == old(eventPool.free)
      ensures table.listeners == Attach(old(table.listeners), Binding(Event(unityEvent), handler))
    {
      var value := subscribers[owner];
      added := value.Subscribe(table, eventPool, arity, unityEvent, handler);
    }

    /** `SubscribeSignal`: one signal handle more for this owner, and none for any other. */
    method SubscribeSignal(owner: Owner, signalType: TypeTag, handler: HandlerId)
      returns (ghost added: SS.SignalSubscriber)
      requires Valid() && signalPool.Valid()
      modifies this, table, signalPool, subscribers.Values, (set r | r in subscribersPool), SS.TopOf(signalPool.free, signalType)
      ensures Valid() && signalPool.Valid()
      ensures subscribers.Keys == old(subscribers).Keys + {owner}
      ensures forall o :: o in old(subscribers) ==> subscribers[o] == old(subscribers[o])
      ensures HandlesOf(owner) == old(HandlesOf(owner)) + [SignalHandle(added)]
      ensures forall o :: o != owner ==> HandlesOf(o) == old(HandlesOf(o))
      ensures added.signalType == signalType && added.Bound() && added.Registration() == Binding(Signal(signalType), handler)
      ensures added !in old(signalPool.busy) && signalPool.busy == old(signalPool.busy) + {added}
      ensures var stack := old(SS.FreeOf(signalPool.free, signalType));
        if |stack| > 0 then added == stack[|stack| - 1] && signalPool.free == old(signalPool.free)[signalType := stack[..|stack| - 1]]
        else fresh(added) && signalPool.free == old(signalPool.free)
      ensures owner in old(subscribers) ==> subscribersPool == old(subscribersPool)
      ensures owner !in old(subscribers) ==>
        if |old(subscribersPool)| > 0 then subscribers[owner] == old(subscribersPool[|subscribersPool| - 1]) && subscribersPool == old(subscribersPool[..|subscribersPool| - 1])
        else fresh(subscribers[owner]) && subscribersPool == old(subscribersPool)
      ensures table.listeners == Attach(old(table.listeners), Binding(Signal(signalType), handler))
    {
      var value := GetSubscriber(owner);
      added := SubscribeSignalOwned(owner, signalType, handler);
    }

    /** The second half of `SubscribeSignal`: the registry of a mapped owner spawns and appends the handle. */
    method SubscribeSignalOwned(owner: Owner, signalType: TypeTag, handler: HandlerId)
      returns (ghost added: SS.SignalSubscriber)
      requires Valid() && signalPool.Valid() && owner in subscribers
      modifies table, signalPool, subscribers[owner], SS.TopOf(signalPool.free, signalType)
      ensures Valid() && signalPool.Valid()
      ensures subscribers == old(subscribers) && subscribersPool == old(subscribersPool)
      ensures HandlesOf(owner) == old(HandlesOf(owner)) + [SignalHandle(added)]
      ensures forall o :: o != owner ==> HandlesOf(o) == old(HandlesOf(o))
      ensures added.signalType == signalType && added.Bound() && added.Registration() == Binding(Signal(signalType), handler)
      ensures added !in old(signalPool.busy) && signalPool.busy == old(signalPool.busy) + {added}
      ensures var stack := old(SS.FreeOf(signalPool.free, signalType));
        if |stack| > 0 then added == stack[|stack| - 1] && signalPool.free == old(signalPool.free)[signalType := stack[..|stack| - 1]]
        else fresh(added) && signalPool.free == old(signalPool.free)
      ensures table.listeners == Attach(old(table.listeners), Binding(Signal(signalType), handler))
    {
      var value := subscribers[owner];
      added := value.SubscribeSignal(table, signalPool, signalType, handler);
    }

    /**
     * Detaches every handle of the owner, despawns its registry (which empties it and
     * returns its handles to their pools) and forgets the owner; an unknown owner is
     * ignored, so a second `Unsubscribe` of the same owner changes nothing.
     */
    method Unsubscribe(owner: Owner)
      requires Valid()
      requires AllBound(HandlesOf(owner))
      modifies this, table, eventPool, signalPool, RegistryOf(owner), EventsOf(HandlesOf(owner)), SignalsOf(HandlesOf(owner))
      ensures Valid()
      ensures subscribers == old(subscribers) - {owner}
      ensures owner !in old(subscribers) ==> subscribersPool == old(subscribersPool) && unchanged(table, eventPool, signalPool)
      ensures owner in old(subscribers) ==>
        && table.listeners == DetachAll(old(table.listeners), old(Registrations(HandlesOf(owner))))
        && subscribersPool == old(subscribersPool) + [old(subscribers[owner])]
        && old(subscribers[owner]).eventSubscribers == []
        && eventPool.free == ReturnEvents(old(eventPool.free), old(HandlesOf(owner)))
        && signalPool.free == ReturnSignals(old(signalPool.free), old(HandlesOf(owner)))
        && eventPool.busy == old(eventPool.busy) - EventsOf(old(HandlesOf(owner)))
        && signalPool.busy == old(signalPool.busy) - SignalsOf(old(HandlesOf(owner)))
        && AllReleased(old(HandlesOf(owner)))
    {
      if owner !in subscribers {
        assert subscribers == subscribers - {owner};
        return;
      }
      var value := subscribers[owner];
      value.Unsubscribe(table);
      Release(owner);
    }

    /**
     * The last two steps of `Unsubscribe`: `subscribersPool.Despawn` runs the registry's
     * despawn hook and pushes it on the idle registries, then the owner is unmapped.
     */
    method Release(owner: Owner)
      requires Valid() && owner in subscribers
      modifies this, eventPool, signalPool, subscribers[owner], EventsOf(HandlesOf(owner)), SignalsOf(HandlesOf(owner))
      ensures Valid()
      ensures subscribers == old(subscribers) - {owner}
      ensures subscribersPool == old(subscribersPool) + [old(subscribers[owner])]
      ensures old(subscribers[owner]).eventSubscribers == []
      ensures eventPool.free == ReturnEvents(old(eventPool.free), old(HandlesOf(owner)))
      ensures signalPool.free == ReturnSignals(old(signalPool.free), old(HandlesOf(owner)))
      ensures eventPool.busy == old(eventPool.busy) - EventsOf(old(HandlesOf(owner)))
      ensures signalPool.busy == old(signalPool.busy) - SignalsOf(old(HandlesOf(owner)))
      ensures AllReleased(old(HandlesOf(owner)))
    {
      var value := subscribers[owner];
      ghost var hs := value.eventSubscribers;
      value.OnDespawned(eventPool, signalPool);
      assert AllReleased(hs);
      PushKeepsRegistries(subscribers, subscribersPool, owner);
      subscribersPool := subscribersPool + [value];
      subscribers := subscribers - {owner};
    }
  }
}
