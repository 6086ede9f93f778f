/**
 * `WidgetBase`: a widget's view, data, props and lifecycle flags. The calls it makes on
 * its view and on the events store, and the virtual hooks it runs, are logged in
 * `trace`; hooks have no other effect here. `CompositeWidget` logs its own steps in the
 * same trace, so the step type covers both.
 */
module WidgetBases {
  import opened Wrappers
  import opened WidgetFactories

  /** Identity of a view object. */
  type ViewId = nat
  /** Identity of an `IWidgetProps` object. */
  type PropsId = nat

  /** One call made by a widget, in the order it happens. */
  datatype Step<D> =
    | ViewActivated(view: ViewId, data: D)      // View.Activate(Data)
    | EventsSubscribed                          // the SubscribeEvents hook
    | EventsUnsubscribed                        // eventsStore.Unsubscribe(this)
    | ViewDeactivated(view: ViewId)             // View.Deactivate()
    | WidgetsCreated                            // the CreateWidgets hook of a composite
    | ChildPropsSet(child: WidgetRef, props: Option<PropsId>)
    | ChildActivated(child: WidgetRef)
    | BeforeChildDeactivated(child: WidgetRef)  // the OnBeforeChildWidgetDeactivated hook
    | ChildDeactivated(child: WidgetRef)
    | ChildDespawned(child: WidgetRef)          // widgetFactory.Despawn(child)
    | Deactivated                               // the OnDeactivated hook of a composite

  /** What `Activate` does: nothing without a view; else the view, then the subscriptions. */
  function ActivateSteps<D>(view: Option<ViewId>, data: D): seq<Step<D>> {
    if view.None? then [] else [ViewActivated(view.value, data), EventsSubscribed]
  }

  /** What `Deactivate` does: always unsubscribe; then, with a view, deactivate it. */
  function DeactivateSteps<D>(view: Option<ViewId>): seq<Step<D>> {
    [EventsUnsubscribed] + (if view.None? then [] else [ViewDeactivated(view.value)])
  }

  /** `Rebind` releases the old subscriptions before making new ones, and calls each hook at most once. */
  lemma RebindOrder<D>(view: Option<ViewId>, data: D)
    ensures var s := DeactivateSteps(view) + ActivateSteps(view, data);
      && s[0] == EventsUnsubscribed
      && (forall i | 0 < i < |s| :: s[i] != EventsUnsubscribed)
      && (view.Some? <==> EventsSubscribed in s)
      && (view.Some? ==> s[|s| - 1] == EventsSubscribed)
  {
  }

  class WidgetBase<D> {
    var view: Option<ViewId>
    var data: D
    var props: Option<PropsId>
    var isActivated: bool
    var isManualLifecycleMode: bool
    /** Every call made and hook run, in order. */
    ghost var trace: seq<Step<D>>

    /** Every field except the trace. */
    ghost function Fields(): (Option<ViewId>, D, Option<PropsId>, bool, bool)
      reads this
    {
      (view, data, props, isActivated, isManualLifecycleMode)
    }

    /** `data` is `default(TData)`. */
    constructor (data: D)
      ensures view == None && this.data == data && props == None
      ensures !isActivated && !isManualLifecycleMode && trace == []
    {
      view := None;
      this.data := data;
      props := None;
      isActivated := false;
      isManualLifecycleMode := false;
      trace := [];
    }

    /** Stores the view and the data, then activates when asked to and not in manual lifecycle mode. */
    method Bind(view: Option<ViewId>, data: D, activate: bool)
      modifies this
      ensures this.view == view && this.data == data
      ensures props == old(props) && isManualLifecycleMode == old(isManualLifecycleMode)
      ensures if activate && !isManualLifecycleMode && view.Some?
        then isActivated && trace == old(trace) + ActivateSteps(view, data)
        else isActivated == old(isActivated) && trace == old(trace)
    {
      this.view := view;
      this.data := data;
      if activate && !isManualLifecycleMode {
        Activate();
      }
    }

    /** Without a view nothing happens; otherwise the view is activated with the data, events are subscribed, and the flag is set. */
    method Activate()
      modifies this
      ensures view.None? ==> unchanged(this)
      ensures view.Some? ==> isActivated && trace == old(trace) + ActivateSteps(view, data)
      ensures view == old(view) && data == old(data) && props == old(props)
      ensures isManualLifecycleMode == old(isManualLifecycleMode)
    {
      if view.None? {
        return;
      }
      trace := trace + [ViewActivated(view.value, data)];
      trace := trace + [EventsSubscribed];
      isActivated := true;
    }

    /**
     * Always unsubscribes first. Without a view it stops there, so `isActivated` keeps
     * its value; otherwise the view is deactivated and the flag cleared.
     */
    method Deactivate()
      modifies this
      ensures trace == old(trace) + DeactivateSteps(view)
      ensures isActivated == (if view.None? then old(isActivated) else false)
      ensures view == old(view) && data == old(data) && props == old(props)
      ensures isManualLifecycleMode == old(isManualLifecycleMode)
    {
      trace := trace + [EventsUnsubscribed];
      if view.None? {
        return;
      }
      trace := trace + [ViewDeactivated(view.value)];
      isActivated := false;
    }

    method SetLifecycleMode(manual: bool)
      modifies this
      ensures isManualLifecycleMode == manual
      ensures view == old(view) && data == old(data) && props == old(props)
      ensures isActivated == old(isActivated) && trace == old(trace)
    {
      isManualLifecycleMode := manual;
    }

    method SetProps(widgetProps: Option<PropsId>)
      modifies this
      ensures props == widgetProps
      ensures view == old(view) && data == old(data) && isManualLifecycleMode == old(isManualLifecycleMode)
      ensures isActivated == old(isActivated) && trace == old(trace)
    {
      props := widgetProps;
    }

    /** Replaces the data, then deactivates and activates again. */
    method Rebind(model: D)
      modifies this
      ensures data == model && view == old(view) && props == old(props)
      ensures trace == old(trace) + DeactivateSteps(view) + ActivateSteps(view, model)
      ensures isActivated == (if view.None? then old(isActivated) else true)
      ensures isManualLifecycleMode == old(isManualLifecycleMode)
    {
      data := model;
      Deactivate();
      Activate();
    }

    /** Forgets the view; the flag and the subscriptions stay as they are. */
    method DetachView()
      modifies this
      ensures view == None
      ensures data == old(data) && props == old(props) && isManualLifecycleMode == old(isManualLifecycleMode)
      ensures isActivated == old(isActivated) && trace == old(trace)
    {
      view := None;
    }

    /** The view when there is one and `alive` (its `IsAlive()`) holds, else `null`. */
    function GetView(alive: bool): (v: Option<ViewId>)
      reads this
      ensures v.Some? <==> view.Some? && alive
      ensures v.Some? ==> v == view
    {
      if view.Some? && alive then view else None
    }
  }
}
