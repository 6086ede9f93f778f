/**
 * `WidgetFactory`: builds widgets and keeps one LIFO stack of despawned poolable widgets
 * per runtime type. A widget is a `WidgetRef`: its identity, its runtime type and
 * whether that type is poolable. The dependency-injection container's instantiation is
 * a counter handing out new identities; the widgets' `OnSpawned`/`OnDespawned` hooks
 * are logged in `hooks`.
 */
module WidgetFactories {
  import opened Seqs

  /** A runtime type, as a tag. */
  type TypeTag = nat

  /** A widget object: identity, runtime type, and whether it implements `IPoolableWidget`. */
  datatype WidgetRef = WidgetRef(id: nat, widgetType: TypeTag, poolable: bool)

  /** A hook the factory calls on a widget. */
  datatype Hook = OnSpawned(widget: WidgetRef) | OnDespawned(widget: WidgetRef)

  /** The stack for a type; a type without an entry has an empty one. */
  function StackOf(pools: map<TypeTag, seq<WidgetRef>>, t: TypeTag): seq<WidgetRef> {
    if t in pools then pools[t] else []
  }

  /** `GetPool(t)`: the entry for `t` exists afterwards, and no other entry changes. */
  function WithPool(pools: map<TypeTag, seq<WidgetRef>>, t: TypeTag): (r: map<TypeTag, seq<WidgetRef>>)
    ensures t in r && r[t] == StackOf(pools, t)
    ensures r.Keys == pools.Keys + {t}
    ensures forall u | u in pools :: r[u] == pools[u]
  {
    if t in pools then pools else pools[t := []]
  }

  /** The stacks after `Despawn(w)`: `w` pushed on the stack of its runtime type. */
  function Despawned(pools: map<TypeTag, seq<WidgetRef>>, w: WidgetRef): map<TypeTag, seq<WidgetRef>> {
    pools[w.widgetType := StackOf(pools, w.widgetType) + [w]]
  }

  /** The stacks after spawning a `t` when that stack is non-empty: its top popped. */
  function Popped(pools: map<TypeTag, seq<WidgetRef>>, t: TypeTag): map<TypeTag, seq<WidgetRef>>
    requires |StackOf(pools, t)| > 0
  {
    var s := StackOf(pools, t);
    pools[t := s[..|s| - 1]]
  }

  /** Every stack holds poolable widgets of its own type only: the static typing of `Spawn<T>` and `Despawn`. */
  ghost predicate Typed(pools: map<TypeTag, seq<WidgetRef>>) {
    forall t, w | t in pools && w in pools[t] :: w.widgetType == t && w.poolable
  }

  /** Spawning the type just despawned returns that widget and leaves the stacks as before (with the entry present). */
  lemma SpawnAfterDespawn(pools: map<TypeTag, seq<WidgetRef>>, w: WidgetRef)
    ensures var s := StackOf(Despawned(pools, w), w.widgetType);
      |s| > 0 && s[|s| - 1] == w
    ensures Popped(Despawned(pools, w), w.widgetType) == WithPool(pools, w.widgetType)
  {
    var s := StackOf(pools, w.widgetType);
    assert (s + [w])[..|s|] == s;
  }

  /** Nothing stops a double despawn: the widget is then on its stack twice more than before. */
  lemma {:induction false} DespawnTwice(pools: map<TypeTag, seq<WidgetRef>>, w: WidgetRef)
    ensures Count(StackOf(Despawned(Despawned(pools, w), w), w.widgetType), w)
      == Count(StackOf(pools, w.widgetType), w) + 2
  {
    var s := StackOf(pools, w.widgetType);
    assert StackOf(Despawned(Despawned(pools, w), w), w.widgetType) == s + [w] + [w];
    CountAppend(s + [w], [w], w);
    CountAppend(s, [w], w);
  }

  /** Despawning keeps every stack typed. */
  lemma DespawnedTyped(pools: map<TypeTag, seq<WidgetRef>>, w: WidgetRef)
    requires Typed(pools) && w.poolable
    ensures Typed(Despawned(pools, w))
  {
  }

  /** The factory's stacks after the poolable widgets among `ws` are despawned in order. */
  function DespawnedAll(pools: map<TypeTag, seq<WidgetRef>>, ws: seq<WidgetRef>): map<TypeTag, seq<WidgetRef>> {
    if ws == [] then pools
    else
      var p := DespawnedAll(pools, ws[..|ws| - 1]);
      var w := ws[|ws| - 1];
      if w.poolable then Despawned(p, w) else p
  }

  /** The factory's hook calls for the same despawns. */
  function DespawnHooks(ws: seq<WidgetRef>): seq<Hook> {
    if ws == [] then []
    else
      var w := ws[|ws| - 1];
      DespawnHooks(ws[..|ws| - 1]) + (if w.poolable then [OnDespawned(w)] else [])
  }

  /** Each poolable widget of `ws` ends up on the stack of its runtime type. */
  lemma {:induction false} DespawnedAllPushes(pools: map<TypeTag, seq<WidgetRef>>, ws: seq<WidgetRef>, w: WidgetRef)
    requires w in ws && w.poolable
    ensures w in StackOf(DespawnedAll(pools, ws), w.widgetType)
  {
    var init := ws[..|ws| - 1];
    var last := ws[|ws| - 1];
    assert ws == init + [last];
    if w == last {
    } else {
      DespawnedAllPushes(pools, init, w);
      var p := DespawnedAll(pools, init);
      if last.poolable && last.widgetType == w.widgetType {
        assert StackOf(Despawned(p, last), w.widgetType) == StackOf(p, w.widgetType) + [last];
      }
    }
  }

  /** Despawning a list of widgets keeps every stack typed. */
  lemma {:induction false} DespawnedAllTyped(pools: map<TypeTag, seq<WidgetRef>>, ws: seq<WidgetRef>)
    requires Typed(pools)
    ensures Typed(DespawnedAll(pools, ws))
  {
    if ws != [] {
      DespawnedAllTyped(pools, ws[..|ws| - 1]);
      if ws[|ws| - 1].poolable {
        DespawnedTyped(DespawnedAll(pools, ws[..|ws| - 1]), ws[|ws| - 1]);
      }
    }
  }

  class WidgetFactory {
    var pools: map<TypeTag, seq<WidgetRef>>
    /** Identities handed out so far by the container. */
    var instantiated: nat
    /** Every `OnSpawned`/`OnDespawned` call, in order. */
    ghost var hooks: seq<Hook>

    ghost predicate Valid()
      reads this
    {
      Typed(pools)
    }

    constructor ()
      ensures Valid() && pools == map[] && instantiated == 0 && hooks == []
    {
      pools := map[];
      instantiated := 0;
      hooks := [];
    }

    /** `Create<T>`: a new widget from the container; no stack is touched. */
    method Create(t: TypeTag, poolable: bool) returns (w: WidgetRef)
      modifies this
      ensures w == WidgetRef(old(instantiated), t, poolable)
      ensures instantiated == old(instantiated) + 1
      ensures pools == old(pools) && hooks == old(hooks)
    {
      w := WidgetRef(instantiated, t, poolable);
      instantiated := instantiated + 1;
    }

    /** `GetPool(t)`: creates the stack for `t` on first use. */
    method GetPool(t: TypeTag) returns (stack: seq<WidgetRef>)
      modifies this
      ensures pools == WithPool(old(pools), t) && stack == StackOf(old(pools), t)
      ensures instantiated == old(instantiated) && hooks == old(hooks)
    {
      if t in pools {
        return pools[t];
      }
      stack := [];
      pools := pools[t := stack];
    }

    /**
     * `Spawn<T>` for a poolable type `t`: pops the stack of `t` if it is non-empty,
     * otherwise creates a widget; either way `OnSpawned` is called exactly once.
     */
    method Spawn(t: TypeTag) returns (w: WidgetRef)
      requires Valid()
      modifies this
      ensures Valid() && hooks == old(hooks) + [OnSpawned(w)] && w.widgetType == t && w.poolable
      ensures var s := StackOf(old(pools), t);
        if |s| > 0
        then w == s[|s| - 1] && pools == Popped(old(pools), t) && instantiated == old(instantiated)
        else w == WidgetRef(old(instantiated), t, true) && pools == WithPool(old(pools), t) && instantiated == old(instantiated) + 1
    {
      var stack := GetPool(t);
      if |stack| > 0 {
        w := stack[|stack| - 1];
        assert w in pools[t];
        pools := pools[t := stack[..|stack| - 1]];
      } else {
        w := Create(t, true);
      }
      hooks := hooks + [OnSpawned(w)];
    }

    /** `Despawn`: `OnDespawned`, then a push on the stack of the widget's runtime type; a widget already there is pushed again. */
    method Despawn(w: WidgetRef)
      requires Valid() && w.poolable
      modifies this
      ensures Valid() && pools == Despawned(old(pools), w)
      ensures hooks == old(hooks) + [OnDespawned(w)] && instantiated == old(instantiated)
    {
      var stack := GetPool(w.widgetType);
      hooks := hooks + [OnDespawned(w)];
      pools := pools[w.widgetType := stack + [w]];
    }
  }
}
