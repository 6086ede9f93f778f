/**
 * `SignalSubscriber<T>`: a pooled handle that registers one handler with the signal hub
 * for signals of type `T`. Each `T` has its own static free list, the map entry for its
 * type in `SignalSubscriberPool`.
 */
module SignalSubscribers {
  import opened Wrappers
  import opened Listeners
  import opened Seqs

  class SignalSubscriber {
    const signalType: TypeTag
    var handler: Option<HandlerId>

    /** The pool's allocation of a new handle. */
    constructor (signalType: TypeTag)
      ensures this.signalType == signalType && Released()
    {
      this.signalType := signalType;
      handler := None;
    }

    ghost predicate Bound()
      reads this
    {
      handler.Some?
    }

    ghost predicate Released()
      reads this
    {
      handler.None?
    }

    function Registration(): Binding
      reads this
      requires Bound()
    {
      Binding(Signal(signalType), handler.value)
    }

    /** Stores the handler and adds it to the hub. */
    method OnSpawned(table: ListenerTable, action: HandlerId)
      modifies this, table
      ensures Bound() && Registration() == Binding(Signal(signalType), action)
      ensures table.listeners == Attach(old(table.listeners), Registration())
    {
      handler := Some(action);
      table.AddListener(Binding(Signal(signalType), action));
    }

    /** Removes exactly the stored handler from the hub. */
    method Unsubscribe(table: ListenerTable)
      requires Bound()
      modifies table
      ensures table.listeners == Detach(old(table.listeners), Registration())
    {
      table.RemoveListener(Binding(Signal(signalType), handler.value));
    }

    /** Clears the handler and returns the handle to its free list; the hub is not touched. */
    method OnDespawned(pool: SignalSubscriberPool)
      modifies this, pool
      ensures Released()
      ensures pool.free == Pushed(old(pool.free), this) && pool.busy == old(pool.busy) - {this}
      ensures old(pool.Valid()) && this in old(pool.busy) ==> pool.Valid()
    {
      if pool.Valid() && this in pool.busy {
        PushedValid(pool.free, this);
      }
      handler := None;
      pool.Despawn(this);
    }
  }

  function FreeOf(free: map<TypeTag, seq<SignalSubscriber>>, t: TypeTag): seq<SignalSubscriber> {
    if t in free then free[t] else []
  }

  /**
   * The handle on top of that type's stack, if any: the only idle handle `Spawn` may
   * touch, so every other idle handle keeps its (released) fields.
   */
  function TopOf(free: map<TypeTag, seq<SignalSubscriber>>, t: TypeTag): set<SignalSubscriber> {
    var stack := FreeOf(free, t);
    if |stack| > 0 then {stack[|stack| - 1]} else {}
  }

  function Pushed(free: map<TypeTag, seq<SignalSubscriber>>, item: SignalSubscriber): (r: map<TypeTag, seq<SignalSubscriber>>)
    ensures FreeOf(r, item.signalType) == FreeOf(free, item.signalType) + [item]
    ensures forall t :: t != item.signalType ==> FreeOf(r, t) == FreeOf(free, t)
  {
    free[item.signalType := FreeOf(free, item.signalType) + [item]]
  }

  /**
   * Every stack holds handles of its own type only, each at most once: the static
   * typing of the generic pools, and the absence of double despawns.
   */
  ghost predicate FreeValid(free: map<TypeTag, seq<SignalSubscriber>>) {
    && (forall t, s :: t in free && s in free[t] ==> s.signalType == t)
    && (forall t :: t in free ==> Distinct(free[t]))
  }

  /** Pushing a handle that is not idle keeps the stacks well formed. */
  lemma PushedValid(free: map<TypeTag, seq<SignalSubscriber>>, item: SignalSubscriber)
    requires FreeValid(free) && item !in FreeOf(free, item.signalType)
    ensures FreeValid(Pushed(free, item))
  {
    DistinctSnoc(FreeOf(free, item.signalType), item);
  }

  /** The static `Pool` fields of `SignalSubscriber<T>`, one stack per `T`. */
  class SignalSubscriberPool {
    var free: map<TypeTag, seq<SignalSubscriber>>
    /** The handles spawned from the pool and not despawned since. */
    ghost var busy: set<SignalSubscriber>

    constructor ()
      ensures free == map[] && busy == {}
    {
      free := map[];
      busy := {};
    }

    /** The handle sits on the stack of its own signal type. */
    predicate Idle(s: SignalSubscriber)
      reads this
    {
      s in FreeOf(free, s.signalType)
    }

    /** The stacks are well formed, and every busy handle is bound and not on a stack. */
    ghost predicate Valid()
      reads this, busy
    {
      && FreeValid(free)
      && forall s :: s in busy ==> s.Bound() && !Idle(s)
    }

    /** Pops an idle handle for that signal type, or allocates one, then binds it through `OnSpawned`. */
    method Spawn(table: ListenerTable, signalType: TypeTag, action: HandlerId) returns (item: SignalSubscriber)
      requires Valid()
      modifies this, table, TopOf(free, signalType)
      ensures forall e | e in old(FreeOf(free, signalType)) && e != item :: e.handler == old(e.handler)
      ensures Valid() && busy == old(busy) + {item} && item !in old(busy)
      ensures item.signalType == signalType && item.Bound() && item.Registration() == Binding(Signal(signalType), action)
      ensures table.listeners == Attach(old(table.listeners), item.Registration())
      ensures var stack := old(FreeOf(free, signalType));
        if |stack| > 0 then item == stack[|stack| - 1] && free == old(free)[signalType := stack[..|stack| - 1]]
        else fresh(item) && free == old(free)
    {
      var stack := FreeOf(free, signalType);
      if |stack| > 0 {
        item := stack[|stack| - 1];
        var rest := stack[..|stack| - 1];
        assert item !in rest by {
          forall j | 0 <= j < |rest|
            ensures rest[j] != item
          {
            assert rest[j] == stack[j];
          }
        }
        assert item in free[signalType] && item !in busy;
        free := free[signalType := rest];
      } else {
        item := new SignalSubscriber(signalType);
      }
      item.OnSpawned(table, action);
      busy := busy + {item};
    }

    /** Pushes the handle on the stack of its type; there is no check that it was busy. */
    method Despawn(item: SignalSubscriber)
      modifies this
      ensures free == Pushed(old(free), item) && busy == old(busy) - {item}
    {
      free := Pushed(free, item);
      busy := busy - {item};
    }
  }
}
