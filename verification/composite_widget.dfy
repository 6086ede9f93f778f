/**
 * `CompositeWidget`: a widget that owns an ordered list of child widgets, created or
 * spawned through the widget factory. Dafny has no class inheritance, so a composite
 * holds its `WidgetBase` part in `base` and logs its own steps in `base.trace`. Each
 * child is a `WidgetRef`; its `SetProps`, `Activate` and `Deactivate` calls are trace
 * entries.
 */
module CompositeWidgets {
  import opened Wrappers
  import opened Seqs
  import opened WidgetFactories
  import opened WidgetBases

  /** `Activate` on each child, in list order. */
  function ChildActivations<D>(ws: seq<WidgetRef>): seq<Step<D>> {
    if ws == [] then [] else ChildActivations(ws[..|ws| - 1]) + [ChildActivated(ws[|ws| - 1])]
  }

  /** Activating a list of children activates each of them once, in list order, and nothing else. */
  lemma {:induction false} ChildActivationsCover<D>(ws: seq<WidgetRef>)
    ensures |ChildActivations<D>(ws)| == |ws|
    ensures forall i | 0 <= i < |ws| :: ChildActivations<D>(ws)[i] == ChildActivated(ws[i])
    ensures forall w :: ChildActivated(w) in ChildActivations<D>(ws) <==> w in ws
  {
    if ws != [] {
      ChildActivationsCover<D>(ws[..|ws| - 1]);
    }
  }

  /** `DeactivateChildWidget(w)`: the hook, the child's `Deactivate`, and a despawn when it is poolable. */
  function ChildDeactivation<D>(w: WidgetRef): seq<Step<D>> {
    [BeforeChildDeactivated(w), ChildDeactivated(w)] + (if w.poolable then [ChildDespawned(w)] else [])
  }

  /** `DeactivateChildWidget` on each child, in list order. */
  function ChildDeactivations<D>(ws: seq<WidgetRef>): seq<Step<D>> {
    if ws == [] then [] else ChildDeactivations(ws[..|ws| - 1]) + ChildDeactivation(ws[|ws| - 1])
  }

  /**
   * Deactivating a list of children deactivates each of them, and despawns exactly the
   * poolable ones.
   */
  lemma {:induction false} ChildDeactivationsCover<D>(ws: seq<WidgetRef>, w: WidgetRef)
    ensures (ChildDeactivated(w) in ChildDeactivations<D>(ws)) <==> w in ws
    ensures (BeforeChildDeactivated(w) in ChildDeactivations<D>(ws)) <==> w in ws
    ensures (ChildDespawned(w) in ChildDeactivations<D>(ws)) <==> w in ws && w.poolable
  {
    if ws != [] {
      var init := ws[..|ws| - 1];
      ChildDeactivationsCover<D>(init, w);
      assert ws == init + [ws[|ws| - 1]];
    }
  }

  class CompositeWidget<D> {
    const base: WidgetBase<D>
    const factory: WidgetFactory
    /** The children, in creation order (`LinkedList<IWidget>`). */
    var widgets: seq<WidgetRef>

    constructor (data: D, factory: WidgetFactory)
      ensures fresh(base) && this.factory == factory && widgets == []
      ensures base.Fields() == (None, data, None, false, false) && base.trace == []
    {
      base := new WidgetBase(data);
      this.factory := factory;
      widgets := [];
    }

    /**
     * `CreateWidget<T>`: a new widget from the factory, given `widgetProps` or else this
     * widget's own props, appended to the children.
     */
    method CreateWidget(t: TypeTag, poolable: bool, widgetProps: Option<PropsId>) returns (w: WidgetRef)
      modifies this, base, factory
      ensures w == WidgetRef(old(factory.instantiated), t, poolable)
      ensures factory.instantiated == old(factory.instantiated) + 1
      ensures factory.pools == old(factory.pools) && factory.hooks == old(factory.hooks)
      ensures widgets == old(widgets) + [w]
      ensures base.trace == old(base.trace) + [ChildPropsSet(w, if widgetProps.Some? then widgetProps else base.props)]
      ensures base.Fields() == old(base.Fields())
    {
      w := factory.Create(t, poolable);
      base.trace := base.trace + [ChildPropsSet(w, if widgetProps.Some? then widgetProps else base.props)];
      widgets := widgets + [w];
    }

    /** `SpawnWidget<T>`: as `CreateWidget`, but the widget comes from the factory's pool. */
    method SpawnWidget(t: TypeTag, widgetProps: Option<PropsId>) returns (w: WidgetRef)
      requires factory.Valid()
      modifies this, base, factory
      ensures factory.Valid() && factory.hooks == old(factory.hooks) + [OnSpawned(w)] && w.widgetType == t
      ensures var s := StackOf(old(factory.pools), t);
        if |s| > 0 then
          (w == s[|s| - 1] && factory.pools == Popped(old(factory.pools), t)
           && factory.instantiated == old(factory.instantiated))
        else
          (w == WidgetRef(old(factory.instantiated), t, true) && factory.pools == WithPool(old(factory.pools), t)
           && factory.instantiated == old(factory.instantiated) + 1)
      ensures widgets == old(widgets) + [w]
      ensures base.trace == old(base.trace) + [ChildPropsSet(w, if widgetProps.Some? then widgetProps else base.props)]
      ensures base.Fields() == old(base.Fields())
    {
      w := factory.Spawn(t);
      base.trace := base.trace + [ChildPropsSet(w, if widgetProps.Some? then widgetProps else base.props)];
      widgets := widgets + [w];
    }

    /**
     * The `CreateWidgets` hook, then every child's `Activate` (whatever its lifecycle
     * mode), then the widget's own activation.
     */
    method Activate()
      modifies base
      ensures base.trace == old(base.trace) + [WidgetsCreated] + ChildActivations(widgets)
        + ActivateSteps(base.view, base.data)
      ensures base.isActivated == (base.view.Some? || old(base.isActivated))
      ensures base.view == old(base.view) && base.data == old(base.data) && base.props == old(base.props)
      ensures base.isManualLifecycleMode == old(base.isManualLifecycleMode)
    {
      base.trace := base.trace + [WidgetsCreated];
      ghost var start := base.trace;
      var i := 0;
      while i < |widgets|
        invariant 0 <= i <= |widgets|
        invariant base.trace == start + ChildActivations(widgets[..i])
        invariant base.Fields() == old(base.Fields())
      {
        assert widgets[..i + 1][..i] == widgets[..i];
        base.trace := base.trace + [ChildActivated(widgets[i])];
        i := i + 1;
      }
      assert widgets[..i] == widgets;
      base.Activate();
    }

    /** `DeactivateChildWidget`: the hook, the child's `Deactivate`, and a despawn when it is poolable. */
    method DeactivateChild(w: WidgetRef)
      requires factory.Valid()
      modifies base, factory
      ensures base.trace == old(base.trace) + ChildDeactivation(w) && base.Fields() == old(base.Fields())
      ensures factory.Valid() && factory.instantiated == old(factory.instantiated)
      ensures factory.pools == if w.poolable then Despawned(old(factory.pools), w) else old(factory.pools)
      ensures factory.hooks == old(factory.hooks) + if w.poolable then [OnDespawned(w)] else []
    {
      base.trace := base.trace + [BeforeChildDeactivated(w), ChildDeactivated(w)];
      if w.poolable {
        factory.Despawn(w);
        base.trace := base.trace + [ChildDespawned(w)];
      }
    }

    /**
     * The widget's own deactivation, then `DeactivateChildWidget` on every child in
     * order, then the list is cleared and the `OnDeactivated` hook runs.
     */
    method Deactivate()
      requires factory.Valid()
      modifies this, base, factory
      ensures widgets == []
      ensures base.trace == old(base.trace) + DeactivateSteps(base.view) + ChildDeactivations(old(widgets)) + [Deactivated]
      ensures base.isActivated == (if base.view.None? then old(base.isActivated) else false)
      ensures base.view == old(base.view) && base.data == old(base.data) && base.props == old(base.props)
      ensures base.isManualLifecycleMode == old(base.isManualLifecycleMode)
      ensures factory.Valid() && factory.instantiated == old(factory.instantiated)
      ensures factory.pools == DespawnedAll(old(factory.pools), old(widgets))
      ensures factory.hooks == old(factory.hooks) + DespawnHooks(old(widgets))
    {
      base.Deactivate();
      ghost var start := base.trace;
      ghost var fields := base.Fields();
      var i := 0;
      while i < |widgets|
        invariant 0 <= i <= |widgets| && widgets == old(widgets)
        invariant base.trace == start + ChildDeactivations(widgets[..i]) && base.Fields() == fields
        invariant factory.Valid() && factory.instantiated == old(factory.instantiated)
        invariant factory.pools == DespawnedAll(old(factory.pools), widgets[..i])
        invariant factory.hooks == old(factory.hooks) + DespawnHooks(widgets[..i])
      {
        assert widgets[..i + 1][..i] == widgets[..i];
        DeactivateChild(widgets[i]);
        i := i + 1;
      }
      assert widgets[..i] == widgets;
      widgets := [];
      base.trace := base.trace + [Deactivated];
    }

    /** Removes the first occurrence of `w` and deactivates it; a widget that is not a child is ignored. */
    method RemoveChildControl(w: WidgetRef)
      requires factory.Valid()
      modifies this, base, factory
      ensures factory.Valid() && base.Fields() == old(base.Fields())
      ensures if w in old(widgets) then
          (widgets == RemoveFirst(old(widgets), w)
           && base.trace == old(base.trace) + ChildDeactivation(w)
           && factory.pools == (if w.poolable then Despawned(old(factory.pools), w) else old(factory.pools))
           && factory.hooks == old(factory.hooks) + (if w.poolable then [OnDespawned(w)] else []))
        else
          (widgets == old(widgets) && base.trace == old(base.trace)
           && factory.pools == old(factory.pools) && factory.hooks == old(factory.hooks))
      ensures factory.instantiated == old(factory.instantiated)
    {
      if w in widgets {
        widgets := RemoveFirst(widgets, w);
        DeactivateChild(w);
      }
    }

    /** `Bind`, dispatching to this class's `Activate`. */
    method Bind(view: Option<ViewId>, data: D, activate: bool)
      modifies base
      ensures base.view == view && base.data == data && base.props == old(base.props)
      ensures base.isManualLifecycleMode == old(base.isManualLifecycleMode)
      ensures if activate && !base.isManualLifecycleMode
        then base.trace == old(base.trace) + [WidgetsCreated] + ChildActivations(widgets) + ActivateSteps(view, data)
          && base.isActivated == (view.Some? || old(base.isActivated))
        else base.trace == old(base.trace) && base.isActivated == old(base.isActivated)
    {
      base.Bind(view, data, false);
      if activate && !base.isManualLifecycleMode {
        Activate();
      }
    }

    /**
     * `Rebind`, dispatching to this class's `Deactivate` and `Activate`: every child is
     * deactivated and dropped before the new activation. The new activation activates no
     * child only because the `CreateWidgets` hook adds none in this model; an override
     * that creates children would have them activated.
     */
    method Rebind(model: D)
      requires factory.Valid()
      modifies this, base, factory
      ensures widgets == [] && base.data == model && base.view == old(base.view) && base.props == old(base.props)
      ensures base.trace == old(base.trace) + DeactivateSteps(base.view) + ChildDeactivations(old(widgets))
        + [Deactivated, WidgetsCreated] + ActivateSteps(base.view, model)
      ensures base.isActivated == (if base.view.None? then old(base.isActivated) else true)
      ensures base.isManualLifecycleMode == old(base.isManualLifecycleMode)
      ensures factory.Valid() && factory.pools == DespawnedAll(old(factory.pools), old(widgets))
      ensures factory.hooks == old(factory.hooks) + DespawnHooks(old(widgets))
      ensures factory.instantiated == old(factory.instantiated)
    {
      base.Bind(base.view, model, false);
      Deactivate();
      Activate();
      assert ChildActivations<D>([]) == [];
    }
  }
}
