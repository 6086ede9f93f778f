/**
 * `EventSubscriber`, `EventSubscriber<T>` and `EventSubscriber<T1, T2>`: a pooled handle
 * that binds one handler to one `UnityEvent`. The three classes have the same code, so
 * they are one class here whose `arity` says which closed generic type a handle belongs
 * to; each closed generic type has its own static free list, which is the map entry for
 * its arity in `EventSubscriberPool`.
 */
module EventSubscribers {
  import opened Wrappers
  import opened Listeners
  import opened Seqs

  /** The closed generic type of a handle: no, one or two event arguments. */
  datatype Arity = Zero | One(t: TypeTag) | Two(t1: TypeTag, t2: TypeTag)

  class EventSubscriber {
    const arity: Arity
    var unityEvent: Option<SourceId>
    var handler: Option<HandlerId>

    /** The pool's allocation of a new handle: nothing is referenced yet. */
    constructor (arity: Arity)
      ensures this.arity == arity && Released()
    {
      this.arity := arity;
      unityEvent := None;
      handler := None;
    }

    /** Attached to an event with a handler (between `OnSpawned` and `OnDespawned`). */
    ghost predicate Bound()
      reads this
    {
      unityEvent.Some? && handler.Some?
    }

    /** Holding no reference to an event or a handler (after `OnDespawned`). */
    ghost predicate Released()
      reads this
    {
      unityEvent.None? && handler.None?
    }

    /** The registration a bound handle stands for. */
    function Registration(): Binding
      reads this
      requires Bound()
    {
      Binding(Event(unityEvent.value), handler.value)
    }

    /** Stores the handler and the event, then adds exactly that handler to the event. */
    method OnSpawned(table: ListenerTable, eventArg: SourceId, action: HandlerId)
      modifies this, table
      ensures Bound() && Registration() == Binding(Event(eventArg), action)
      ensures table.listeners == Attach(old(table.listeners), Registration())
    {
      handler := Some(action);
      unityEvent := Some(eventArg);
      table.AddListener(Binding(Event(eventArg), action));
    }

    /**
     * Removes the stored handler from the stored event. After `OnDespawned` the event
     * reference is null and the call would throw, hence the precondition.
     */
    method Unsubscribe(table: ListenerTable)
      requires Bound()
      modifies table
      ensures table.listeners == Detach(old(table.listeners), Registration())
    {
      table.RemoveListener(Binding(Event(unityEvent.value), handler.value));
    }

    /**
     * Clears both references and returns the handle to its free list. The event keeps
     * the listener: `Unsubscribe` has to come first.
     */
    method OnDespawned(pool: EventSubscriberPool)
      modifies this, pool
      ensures Released()
      ensures pool.free == Pushed(old(pool.free), this) && pool.busy == old(pool.busy) - {this}
      ensures old(pool.Valid()) && this in old(pool.busy) ==> pool.Valid()
    {
      if pool.Valid() && this in pool.busy {
        PushedValid(pool.free, this);
      }
      unityEvent := None;
      handler := None;
      pool.Despawn(this);
    }
  }

  /** The free list of one closed generic type. */
  function FreeOf(free: map<Arity, seq<EventSubscriber>>, a: Arity): seq<EventSubscriber> {
    if a in free then free[a] else []
  }

  /**
   * The handle on top of that type's stack, if any: the only idle handle `Spawn` may
   * touch, so every other idle handle keeps its (released) fields.
   */
  function TopOf(free: map<Arity, seq<EventSubscriber>>, a: Arity): set<EventSubscriber> {
    var stack := FreeOf(free, a);
    if |stack| > 0 then {stack[|stack| - 1]} else {}
  }

  /** A handle pushed on the free list of its own type. */
  function Pushed(free: map<Arity, seq<EventSubscriber>>, item: EventSubscriber): (r: map<Arity, seq<EventSubscriber>>)
    ensures FreeOf(r, item.arity) == FreeOf(free, item.arity) + [item]
    ensures forall a :: a != item.arity ==> FreeOf(r, a) == FreeOf(free, a)
  {
    free[item.arity := FreeOf(free, item.arity) + [item]]
  }

  /**
   * Every stack holds handles of its own type only, each at most once: the static
   * typing of the generic pools, and the absence of double despawns.
   */
  ghost predicate FreeValid(free: map<Arity, seq<EventSubscriber>>) {
    && (forall a, e :: a in free && e in free[a] ==> e.arity == a)
    && (forall a :: a in free ==> Distinct(free[a]))
  }

  /** Pushing a handle that is not idle keeps the stacks well formed. */
  lemma PushedValid(free: map<Arity, seq<EventSubscriber>>, item: EventSubscriber)
    requires FreeValid(free) && item !in FreeOf(free, item.arity)
    ensures FreeValid(Pushed(free, item))
  {
    DistinctSnoc(FreeOf(free, item.arity), item);
  }

  /** The static `Pool` fields of the three classes: one stack of idle handles per closed type. */
  class EventSubscriberPool {
    var free: map<Arity, seq<EventSubscriber>>
    /** The handles spawned from the pool and not despawned since. */
    ghost var busy: set<EventSubscriber>

    constructor ()
      ensures free == map[] && busy == {}
    {
      free := map[];
      busy := {};
    }

    /** The handle sits on the stack of its own type. */
    predicate Idle(e: EventSubscriber)
      reads this
    {
      e in FreeOf(free, e.arity)
    }

    /** The stacks are well formed, and every busy handle is bound and not on a stack. */
    ghost predicate Valid()
      reads this, busy
    {
      && FreeValid(free)
      && forall e :: e in busy ==> e.Bound() && !Idle(e)
    }

    /** Pops an idle handle of that type, or allocates one, then binds it through `OnSpawned`. */
    method Spawn(table: ListenerTable, arity: Arity, eventArg: SourceId, action: HandlerId) returns (item: EventSubscriber)
      requires Valid()
      modifies this, table, TopOf(free, arity)
      ensures forall e | e in old(FreeOf(free, arity)) && e != item :: e.unityEvent == old(e.unityEvent) && e.handler == old(e.handler)
      ensures Valid() && busy == old(busy) + {item} && item !in old(busy)
      ensures item.arity == arity && item.Bound() && item.Registration() == Binding(Event(eventArg), action)
      ensures table.listeners == Attach(old(table.listeners), item.Registration())
      ensures var stack := old(FreeOf(free, arity));
        if |stack| > 0 then item == stack[|stack| - 1] && free == old(free)[arity := stack[..|stack| - 1]]
        else fresh(item) && free == old(free)
    {
      var stack := FreeOf(free, arity);
      if |stack| > 0 {
        item := stack[|stack| - 1];
        var rest := stack[..|stack| - 1];
        assert item !in rest by {
          forall j | 0 <= j < |rest|
            ensures rest[j] != item
          {
            assert rest[j] == stack[j];
          }
        }
        assert item in free[arity] && item !in busy;
        free := free[arity := rest];
      } else {
        item := new EventSubscriber(arity);
      }
      item.OnSpawned(table, eventArg, action);
      busy := busy + {item};
    }

    /** Pushes the handle on the stack of its type; there is no check that it was busy. */
    method Despawn(item: EventSubscriber)
      modifies this
      ensures free == Pushed(old(free), item) && busy == old(busy) - {item}
    {
      free := Pushed(free, item);
      busy := busy - {item};
    }
  }
}
