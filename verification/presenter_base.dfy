/**
 * `PresenterBase`: the lifecycle of a screen presenter. Its state machine decides which
 * of the model's, the view's, the widgets' and its own hooks run on `Activate`,
 * `Deactivate` and `Hide`. The model, the view and the child widgets are reached through
 * interfaces, so each call on them is a step in `trace`; widgets come from a real
 * `WidgetFactory`. The children that are in manual lifecycle mode when a call is made form the set `manual`.
 */
module Presenters {
  import opened Wrappers
  import opened Seqs
  import opened WidgetFactories
  import opened WidgetBases
  import opened Models

  datatype PresenterState = NotInitialized | Inactive | Active | Hidden

  /** One call the presenter makes or hook it runs. */
  datatype PresenterStep =
    | ModelActivate(params: Option<ParamsId>)
    | OnCustomizeModel
    | CreateWidgets
    | SubscribeEvents
    | OnActivate
    | OnBindWidgets
    | WidgetActivate(widget: WidgetRef)
    | OnWidgetsActivated
    | ModelOnShow
    | OnShow
    | ViewShow(view: Option<ViewId>)   // `View.Show()`; on `None`, a null view, it throws
    | ModelDeactivate
    | OnDeactivate
    | UnsubscribeEvents
    | OnBeforeChildWidgetDeactivated(widget: WidgetRef)
    | WidgetDeactivate(widget: WidgetRef)
    | WidgetDespawn(widget: WidgetRef)
    | ViewHide(view: Option<ViewId>)   // `View.Hide()`; on `None`, a null view, it throws
    | OnHide
    | WidgetSetLifecycleMode(widget: WidgetRef, manual: bool)
    | WidgetSetProps(widget: WidgetRef, props: Option<PropsId>)

  /** `Activate` on each widget of `ws` that is not in manual lifecycle mode, in order. */
  function Activations(ws: seq<WidgetRef>, manual: set<WidgetRef>): seq<PresenterStep> {
    if ws == [] then []
    else
      var w := ws[|ws| - 1];
      Activations(ws[..|ws| - 1], manual) + (if w in manual then [] else [WidgetActivate(w)])
  }

  /** Exactly the widgets of `ws` not in manual mode are activated, and nothing else happens. */
  lemma {:induction false} ActivationsExactly(ws: seq<WidgetRef>, manual: set<WidgetRef>, w: WidgetRef)
    ensures WidgetActivate(w) in Activations(ws, manual) <==> w in ws && w !in manual
    ensures forall s | s in Activations(ws, manual) :: s.WidgetActivate?
  {
    if ws != [] {
      var init := ws[..|ws| - 1];
      ActivationsExactly(init, manual, w);
      assert ws == init + [ws[|ws| - 1]];
    }
  }

  /** `DeactivateWidget`'s first half: the hook, then `Deactivate` unless the widget is in manual mode. */
  function OwnedDeactivation(w: WidgetRef, manual: set<WidgetRef>): seq<PresenterStep> {
    [OnBeforeChildWidgetDeactivated(w)] + (if w in manual then [] else [WidgetDeactivate(w)])
  }

  /** The first loop of `DeactivateWidgets`: the hook on every owned widget, `Deactivate` on those not in manual mode. */
  function OwnedDeactivations(ws: seq<WidgetRef>, manual: set<WidgetRef>): seq<PresenterStep> {
    if ws == [] then []
    else OwnedDeactivations(ws[..|ws| - 1], manual) + OwnedDeactivation(ws[|ws| - 1], manual)
  }

  /**
   * Every owned widget gets the hook, exactly those not in manual mode are deactivated,
   * and nothing else happens.
   */
  lemma {:induction false} OwnedDeactivationsExactly(ws: seq<WidgetRef>, manual: set<WidgetRef>, w: WidgetRef)
    ensures OnBeforeChildWidgetDeactivated(w) in OwnedDeactivations(ws, manual) <==> w in ws
    ensures WidgetDeactivate(w) in OwnedDeactivations(ws, manual) <==> w in ws && w !in manual
    ensures forall s | s in OwnedDeactivations(ws, manual) :: s.OnBeforeChildWidgetDeactivated? || s.WidgetDeactivate?
  {
    if ws != [] {
      var init := ws[..|ws| - 1];
      OwnedDeactivationsExactly(init, manual, w);
      assert ws == init + [ws[|ws| - 1]];
    }
  }

  /** The second loop of `DeactivateWidgets`: every pooled widget despawned, in order. */
  function Despawns(ws: seq<WidgetRef>): seq<PresenterStep> {
    if ws == [] then [] else Despawns(ws[..|ws| - 1]) + [WidgetDespawn(ws[|ws| - 1])]
  }

  /** Every pooled widget is despawned once, in list order, and nothing else happens. */
  lemma {:induction false} DespawnsExactly(ws: seq<WidgetRef>)
    ensures |Despawns(ws)| == |ws|
    ensures forall i | 0 <= i < |ws| :: Despawns(ws)[i] == WidgetDespawn(ws[i])
    ensures forall w :: WidgetDespawn(w) in Despawns(ws) <==> w in ws
    ensures forall s | s in Despawns(ws) :: s.WidgetDespawn?
  {
    if ws != [] {
      DespawnsExactly(ws[..|ws| - 1]);
    }
  }

  /**
   * Everything `Activate` does from a given state, in order; `activations` is what
   * `ActivateWidgets` does. From `NotInitialized` and `Inactive` the model is activated
   * and customised, the widgets are created (first time only), events are subscribed
   * and the widgets activated; from `Hidden` the model and the presenter are shown; in
   * every state the view is shown, last.
   */
  function ActivateTrace(state: PresenterState, params: Option<ParamsId>, activations: seq<PresenterStep>, view: Option<ViewId>)
    : seq<PresenterStep>
  {
    match state
    case NotInitialized =>
      [ModelActivate(params), OnCustomizeModel, CreateWidgets, SubscribeEvents, OnActivate, OnBindWidgets]
      + activations + [OnWidgetsActivated, ViewShow(view)]
    case Inactive =>
      [ModelActivate(params), OnCustomizeModel, SubscribeEvents, OnActivate, OnBindWidgets]
      + activations + [OnWidgetsActivated, ViewShow(view)]
    case Active => [ViewShow(view)]
    case Hidden => [ModelOnShow, OnShow, ViewShow(view)]
  }

  /** What `DeactivateWidgets` does: the owned widgets' deactivations, then the pooled widgets' despawns. */
  function WidgetDeactivations(ws: seq<WidgetRef>, pooled: seq<WidgetRef>, manual: set<WidgetRef>): seq<PresenterStep> {
    OwnedDeactivations(ws, manual) + Despawns(pooled)
  }

  /** Everything `Deactivate` does from `Active` or `Hidden`, in order. */
  function DeactivateTrace(ws: seq<WidgetRef>, pooled: seq<WidgetRef>, manual: set<WidgetRef>, view: Option<ViewId>)
    : seq<PresenterStep>
  {
    [ModelDeactivate, OnDeactivate, UnsubscribeEvents] + WidgetDeactivations(ws, pooled, manual) + [ViewHide(view)]
  }

  /**
   * The lifecycle bookkeeping of a trace: `CreateWidgets` has run once unless the
   * presenter was never activated, and exactly one subscription is open while the
   * presenter is `Active` or `Hidden`, none otherwise.
   */
  ghost predicate Balanced(t: seq<PresenterStep>, state: PresenterState) {
    && multiset(t)[CreateWidgets] == (if state == NotInitialized then 0 else 1)
    && multiset(t)[SubscribeEvents] == multiset(t)[UnsubscribeEvents] + (if state == Active || state == Hidden then 1 else 0)
  }

  /** Steps that neither create widgets nor touch the subscriptions. */
  ghost predicate Neutral(steps: seq<PresenterStep>) {
    CreateWidgets !in steps && SubscribeEvents !in steps && UnsubscribeEvents !in steps
  }

  /** Neutral steps keep the bookkeeping, whatever the state. */
  lemma NeutralBalanced(t: seq<PresenterStep>, state: PresenterState, steps: seq<PresenterStep>)
    requires Balanced(t, state) && Neutral(steps)
    ensures Balanced(t + steps, state)
  {
    Concat(t, steps, CreateWidgets);
    Concat(t, steps, SubscribeEvents);
    Concat(t, steps, UnsubscribeEvents);
  }

  /**
   * `Activate` runs `CreateWidgets` only on the first activation, subscribes only when
   * coming from `NotInitialized` or `Inactive`, and never unsubscribes: from any
   * balanced state it leads to a balanced `Active` state.
   */
  lemma ActivateBalanced(t: seq<PresenterStep>, state: PresenterState, params: Option<ParamsId>,
                         activations: seq<PresenterStep>, view: Option<ViewId>)
    requires Balanced(t, state)
    requires forall x | x in activations :: x.WidgetActivate?
    ensures Balanced(t + ActivateTrace(state, params, activations, view), Active)
  {
    var tail: seq<PresenterStep> := [OnWidgetsActivated, ViewShow(view)];
    match state {
      case NotInitialized =>
        var head := [ModelActivate(params), OnCustomizeModel, CreateWidgets, SubscribeEvents, OnActivate, OnBindWidgets];
        FirstActivationCounts(head, activations, tail, params, view);
        ActivateStep(t, head + activations + tail, state);
      case Inactive =>
        var head := [ModelActivate(params), OnCustomizeModel, SubscribeEvents, OnActivate, OnBindWidgets];
        LaterActivationCounts(head, activations, tail, params, view);
        ActivateStep(t, head + activations + tail, state);
      case Active =>
        ActivateStep(t, [ViewShow(view)], state);
      case Hidden =>
        ActivateStep(t, [ModelOnShow, OnShow, ViewShow(view)], state);
    }
  }

  lemma ActivateStep(t: seq<PresenterStep>, s: seq<PresenterStep>, state: PresenterState)
    requires Balanced(t, state)
    requires multiset(s)[CreateWidgets] == (if state == NotInitialized then 1 else 0)
    requires multiset(s)[SubscribeEvents] == (if state == NotInitialized || state == Inactive then 1 else 0)
    requires multiset(s)[UnsubscribeEvents] == 0
    ensures Balanced(t + s, Active)
  {
    Concat(t, s, CreateWidgets);
    Concat(t, s, SubscribeEvents);
    Concat(t, s, UnsubscribeEvents);
  }

  lemma FirstActivationCounts(head: seq<PresenterStep>, activations: seq<PresenterStep>, tail: seq<PresenterStep>,
                              params: Option<ParamsId>, view: Option<ViewId>)
    requires head == [ModelActivate(params), OnCustomizeModel, CreateWidgets, SubscribeEvents, OnActivate, OnBindWidgets]
    requires tail == [OnWidgetsActivated, ViewShow(view)]
    requires forall x | x in activations :: x.WidgetActivate?
    ensures multiset(head + activations + tail)[CreateWidgets] == 1
    ensures multiset(head + activations + tail)[SubscribeEvents] == 1
    ensures multiset(head + activations + tail)[UnsubscribeEvents] == 0
  {
    Around(head, activations, tail, CreateWidgets);
    Around(head, activations, tail, SubscribeEvents);
    Around(head, activations, tail, UnsubscribeEvents);
  }

  lemma LaterActivationCounts(head: seq<PresenterStep>, activations: seq<PresenterStep>, tail: seq<PresenterStep>,
                              params: Option<ParamsId>, view: Option<ViewId>)
    requires head == [ModelActivate(params), OnCustomizeModel, SubscribeEvents, OnActivate, OnBindWidgets]
    requires tail == [OnWidgetsActivated, ViewShow(view)]
    requires forall x | x in activations :: x.WidgetActivate?
    ensures multiset(head + activations + tail)[CreateWidgets] == 0
    ensures multiset(head + activations + tail)[SubscribeEvents] == 1
    ensures multiset(head + activations + tail)[UnsubscribeEvents] == 0
  {
    Around(head, activations, tail, CreateWidgets);
    Around(head, activations, tail, SubscribeEvents);
    Around(head, activations, tail, UnsubscribeEvents);
  }

  /**
   * `Deactivate` from `Active` or `Hidden` unsubscribes exactly once and neither
   * subscribes nor creates widgets: it leads to a balanced `Inactive` state.
   */
  lemma DeactivateBalanced(t: seq<PresenterStep>, state: PresenterState, ws: seq<WidgetRef>, pooled: seq<WidgetRef>,
                           manual: set<WidgetRef>, view: Option<ViewId>)
    requires Balanced(t, state) && (state == Active || state == Hidden)
    ensures Balanced(t + DeactivateTrace(ws, pooled, manual, view), Inactive)
  {
    var middle := WidgetDeactivations(ws, pooled, manual);
    DeactivationsShape(ws, pooled, manual);
    var head: seq<PresenterStep> := [ModelDeactivate, OnDeactivate, UnsubscribeEvents];
    var tail := [ViewHide(view)];
    var s := DeactivateTrace(ws, pooled, manual, view);
    DeactivateCounts(head, middle, tail, view);
    DeactivateStep(t, s, state);
  }

  lemma DeactivateStep(t: seq<PresenterStep>, s: seq<PresenterStep>, state: PresenterState)
    requires Balanced(t, state) && (state == Active || state == Hidden)
    requires multiset(s)[CreateWidgets] == 0 && multiset(s)[SubscribeEvents] == 0
    requires multiset(s)[UnsubscribeEvents] == 1
    ensures Balanced(t + s, Inactive)
  {
    Concat(t, s, CreateWidgets);
    Concat(t, s, SubscribeEvents);
    Concat(t, s, UnsubscribeEvents);
  }

  lemma DeactivationsShape(ws: seq<WidgetRef>, pooled: seq<WidgetRef>, manual: set<WidgetRef>)
    ensures forall x | x in WidgetDeactivations(ws, pooled, manual) ::
      x.OnBeforeChildWidgetDeactivated? || x.WidgetDeactivate? || x.WidgetDespawn?
  {
    OwnedDeactivationsExactly(ws, manual, WidgetRef(0, 0, false));
    DespawnsExactly(pooled);
  }

  lemma DeactivateCounts(head: seq<PresenterStep>, middle: seq<PresenterStep>, tail: seq<PresenterStep>, view: Option<ViewId>)
    requires head == [ModelDeactivate, OnDeactivate, UnsubscribeEvents] && tail == [ViewHide(view)]
    requires forall x | x in middle :: x.OnBeforeChildWidgetDeactivated? || x.WidgetDeactivate? || x.WidgetDespawn?
    ensures multiset(head + middle + tail)[UnsubscribeEvents] == 1
    ensures multiset(head + middle + tail)[SubscribeEvents] == 0
    ensures multiset(head + middle + tail)[CreateWidgets] == 0
  {
    Around(head, middle, tail, UnsubscribeEvents);
    Around(head, middle, tail, SubscribeEvents);
    Around(head, middle, tail, CreateWidgets);
  }

  /** `Hide` from `Active` keeps one subscription open. */
  lemma HideBalanced(t: seq<PresenterStep>)
    requires Balanced(t, Active)
    ensures Balanced(t + [OnHide], Hidden)
  {
    NeutralBalanced(t, Active, [OnHide]);
  }

  /** A call on the presenter, with what its steps depend on. */
  datatype PresenterCall =
    | ActivateCall(params: Option<ParamsId>, owned: seq<WidgetRef>, pooled: seq<WidgetRef>, manual: set<WidgetRef>, view: Option<ViewId>)
    | DeactivateCall(owned: seq<WidgetRef>, pooled: seq<WidgetRef>, manual: set<WidgetRef>, view: Option<ViewId>)
    | HideCall
    | CreateWidgetCall(widget: WidgetRef, manualWidget: bool, props: Option<PropsId>)
    | SpawnWidgetCall(widget: WidgetRef, props: Option<PropsId>)
    | DeactivateWidgetCall(widget: WidgetRef, manual: set<WidgetRef>)
    | RemoveWidgetCall(widget: WidgetRef, manual: set<WidgetRef>, listed: bool)
    | AddViewCall(added: ViewId)
    | AddOpenParamsCall(params: Option<ParamsId>)

  /** The state a call leaves and the steps it makes, as the methods of `PresenterBase` state them. */
  function After(state: PresenterState, call: PresenterCall): (PresenterState, seq<PresenterStep>) {
    match call
    case ActivateCall(params, owned, pooled, manual, view) =>
      (Active, ActivateTrace(state, params, Activations(owned, manual) + Activations(pooled, manual), view))
    case DeactivateCall(owned, pooled, manual, view) =>
      if state == Active || state == Hidden then (Inactive, DeactivateTrace(owned, pooled, manual, view)) else (state, [])
    case HideCall =>
      if state == Active then (Hidden, [OnHide]) else (state, [])
    case CreateWidgetCall(w, manualWidget, props) =>
      (state, [WidgetSetLifecycleMode(w, manualWidget), WidgetSetProps(w, props)])
    case SpawnWidgetCall(w, props) =>
      (state, [WidgetSetProps(w, props)])
    case DeactivateWidgetCall(w, manual) =>
      (state, OwnedDeactivation(w, manual) + (if w.poolable then [WidgetDespawn(w)] else []))
    case RemoveWidgetCall(w, manual, listed) =>
      if listed then (state, OwnedDeactivation(w, manual) + (if w.poolable then [WidgetDespawn(w)] else [])) else (state, [])
    case AddViewCall(_) => (state, [])
    case AddOpenParamsCall(_) => (state, [])
  }

  /** The state and the trace of a new presenter after a sequence of calls. */
  function Run(calls: seq<PresenterCall>): (PresenterState, seq<PresenterStep>) {
    if calls == [] then (NotInitialized, [])
    else
      var (state, t) := Run(calls[..|calls| - 1]);
      var (next, steps) := After(state, calls[|calls| - 1]);
      (next, t + steps)
  }

  /** Every call keeps the bookkeeping of the trace. */
  lemma CallBalanced(t: seq<PresenterStep>, state: PresenterState, call: PresenterCall)
    requires Balanced(t, state)
    ensures Balanced(t + After(state, call).1, After(state, call).0)
  {
    match call {
      case ActivateCall(_, _, _, _, _) => ActivateCallBalanced(t, state, call);
      case DeactivateCall(_, _, _, _) => DeactivateCallBalanced(t, state, call);
      case HideCall => HideCallBalanced(t, state);
      case CreateWidgetCall(w, manualWidget, props) => CreateWidgetCallBalanced(t, state, w, manualWidget, props);
      case SpawnWidgetCall(w, props) => SpawnWidgetCallBalanced(t, state, w, props);
      case DeactivateWidgetCall(w, manual) => DeactivateWidgetCallBalanced(t, state, w, manual);
      case RemoveWidgetCall(w, manual, listed) => RemoveWidgetCallBalanced(t, state, w, manual, listed);
      case AddViewCall(_) => SetupCallBalanced(t, state, call);
      case AddOpenParamsCall(_) => SetupCallBalanced(t, state, call);
    }
  }

  /** `RemoveWidget` and `DespawnWidget` act as `DeactivateWidget` on a listed widget and do nothing otherwise. */
  lemma RemoveWidgetCallBalanced(t: seq<PresenterStep>, state: PresenterState, w: WidgetRef, manual: set<WidgetRef>, listed: bool)
    requires Balanced(t, state)
    ensures var call := RemoveWidgetCall(w, manual, listed); Balanced(t + After(state, call).1, After(state, call).0)
  {
    if listed {
      DeactivateWidgetCallBalanced(t, state, w, manual);
    } else {
      assert t + [] == t;
    }
  }

  /** `AddView` and `AddOpenParams` leave the state and the trace as they are. */
  lemma SetupCallBalanced(t: seq<PresenterStep>, state: PresenterState, call: PresenterCall)
    requires Balanced(t, state) && (call.AddViewCall? || call.AddOpenParamsCall?)
    ensures Balanced(t + After(state, call).1, After(state, call).0)
  {
    assert t + [] == t;
  }

  /** `Hide` leaves a balanced `Hidden` trace from `Active`, and does nothing otherwise. */
  lemma HideCallBalanced(t: seq<PresenterStep>, state: PresenterState)
    requires Balanced(t, state)
    ensures Balanced(t + After(state, HideCall).1, After(state, HideCall).0)
  {
    if state == Active {
      HideBalanced(t);
    } else {
      assert t + [] == t;
    }
  }

  /** `CreateWidget` keeps the state and the bookkeeping. */
  lemma CreateWidgetCallBalanced(t: seq<PresenterStep>, state: PresenterState, w: WidgetRef, manualWidget: bool, props: Option<PropsId>)
    requires Balanced(t, state)
    ensures var call := CreateWidgetCall(w, manualWidget, props); Balanced(t + After(state, call).1, After(state, call).0)
  {
    NeutralBalanced(t, state, [WidgetSetLifecycleMode(w, manualWidget), WidgetSetProps(w, props)]);
  }

  /** `SpawnWidget` keeps the state and the bookkeeping. */
  lemma SpawnWidgetCallBalanced(t: seq<PresenterStep>, state: PresenterState, w: WidgetRef, props: Option<PropsId>)
    requires Balanced(t, state)
    ensures var call := SpawnWidgetCall(w, props); Balanced(t + After(state, call).1, After(state, call).0)
  {
    NeutralBalanced(t, state, [WidgetSetProps(w, props)]);
  }

  /** `DeactivateWidget` keeps the state and the bookkeeping. */
  lemma DeactivateWidgetCallBalanced(t: seq<PresenterStep>, state: PresenterState, w: WidgetRef, manual: set<WidgetRef>)
    requires Balanced(t, state)
    ensures var call := DeactivateWidgetCall(w, manual); Balanced(t + After(state, call).1, After(state, call).0)
  {
    var owned, despawn := OwnedDeactivation(w, manual), if w.poolable then [WidgetDespawn(w)] else [];
    assert Neutral(owned) && Neutral(despawn);
    NeutralBalanced(t, state, owned + despawn);
  }

  /** `Activate`, whatever the state, leaves a balanced `Active` trace. */
  lemma ActivateCallBalanced(t: seq<PresenterStep>, state: PresenterState, call: PresenterCall)
    requires Balanced(t, state) && call.ActivateCall?
    ensures Balanced(t + After(state, call).1, After(state, call).0)
  {
    var acts := Activations(call.owned, call.manual) + Activations(call.pooled, call.manual);
    ActivationsExactly(call.owned, call.manual, WidgetRef(0, 0, false));
    ActivationsExactly(call.pooled, call.manual, WidgetRef(0, 0, false));
    ActivateBalanced(t, state, call.params, acts, call.view);
    assert After(state, call) == (Active, ActivateTrace(state, call.params, acts, call.view));
  }

  /** `Deactivate` leaves a balanced `Inactive` trace from `Active` or `Hidden`, and does nothing otherwise. */
  lemma DeactivateCallBalanced(t: seq<PresenterStep>, state: PresenterState, call: PresenterCall)
    requires Balanced(t, state) && call.DeactivateCall?
    ensures Balanced(t + After(state, call).1, After(state, call).0)
  {
    if state == Active || state == Hidden {
      DeactivateBalanced(t, state, call.owned, call.pooled, call.manual, call.view);
      assert After(state, call) == (Inactive, DeactivateTrace(call.owned, call.pooled, call.manual, call.view));
    } else {
      assert t + [] == t;
    }
  }

  /**
   * Whatever the calls, the trace stays balanced: widgets are created once, on the
   * first activation, and events are subscribed exactly while the presenter is
   * `Active` or `Hidden`.
   */
  lemma {:induction false} RunBalanced(calls: seq<PresenterCall>)
    ensures Balanced(Run(calls).1, Run(calls).0)
  {
    if calls != [] {
      var init := calls[..|calls| - 1];
      RunBalanced(init);
      CallBalanced(Run(init).1, Run(init).0, calls[|calls| - 1]);
    }
  }

  /** The assembly of `Activate`'s steps on its first run. */
  lemma FirstActivationAssembly(t: seq<PresenterStep>, params: Option<ParamsId>, acts: seq<PresenterStep>, view: Option<ViewId>)
    ensures t + [ModelActivate(params), OnCustomizeModel] + [CreateWidgets]
        + ([SubscribeEvents, OnActivate, OnBindWidgets] + acts + [OnWidgetsActivated]) + [ViewShow(view)]
      == t + ActivateTrace(NotInitialized, params, acts, view)
  {
  }

  /** The assembly of `Activate`'s steps from `Inactive`. */
  lemma LaterActivationAssembly(t: seq<PresenterStep>, params: Option<ParamsId>, acts: seq<PresenterStep>, view: Option<ViewId>)
    ensures t + [ModelActivate(params), OnCustomizeModel]
        + ([SubscribeEvents, OnActivate, OnBindWidgets] + acts + [OnWidgetsActivated]) + [ViewShow(view)]
      == t + ActivateTrace(Inactive, params, acts, view)
  {
  }

  /** Occurrences of `x` in a concatenation. */
  lemma Concat<T>(a: seq<T>, b: seq<T>, x: T)
    ensures multiset(a + b)[x] == multiset(a)[x] + multiset(b)[x]
  {
  }

  /** Occurrences of `x` around a stretch that has none. */
  lemma Around<T>(head: seq<T>, middle: seq<T>, tail: seq<T>, x: T)
    requires forall y | y in middle :: y != x
    ensures multiset(head + middle + tail)[x] == multiset(head)[x] + multiset(tail)[x]
  {
    assert multiset(head + middle + tail) == multiset(head) + multiset(middle) + multiset(tail);
    assert x !in middle;
  }

  class PresenterBase {
    const factory: WidgetFactory
    var state: PresenterState
    var view: Option<ViewId>
    var openParams: Option<ParamsId>
    /** Widgets made with `CreateWidget`, in order. */
    var widgets: seq<WidgetRef>
    /** Widgets made with `SpawnWidget`, in order. */
    var pooledWidgets: seq<WidgetRef>
    /** Every call made and hook run, in order. */
    ghost var trace: seq<PresenterStep>

    /** What `ActivateWidgets` does: the owned widgets first, then the pooled ones. */
    function WidgetActivations(manual: set<WidgetRef>): seq<PresenterStep>
      reads this
    {
      Activations(widgets, manual) + Activations(pooledWidgets, manual)
    }

    /** The state and the trace are those `call` leaves from state `s0` and trace `t0`. */
    ghost predicate Made(s0: PresenterState, t0: seq<PresenterStep>, call: PresenterCall)
      reads this
    {
      state == After(s0, call).0 && trace == t0 + After(s0, call).1
    }

    /** Every field except the trace. */
    ghost function Fields(): (PresenterState, Option<ViewId>, Option<ParamsId>, seq<WidgetRef>, seq<WidgetRef>)
      reads this
    {
      (state, view, openParams, widgets, pooledWidgets)
    }

    /** The factory is well formed and the pooled widgets are poolable. */
    ghost predicate Valid()
      reads this, factory
    {
      && factory.Valid()
      && (forall w | w in pooledWidgets :: w.poolable)
    }

    constructor (factory: WidgetFactory)
      requires factory.Valid()
      ensures Valid() && this.factory == factory && state == NotInitialized
      ensures view == None && openParams == None && widgets == [] && pooledWidgets == [] && trace == []
    {
      this.factory := factory;
      state := NotInitialized;
      view := None;
      openParams := None;
      widgets := [];
      pooledWidgets := [];
      trace := [];
    }

    /** `AddView`; the cast to `TView` is not modelled. */
    method AddView(v: ViewId)
      modifies this
      ensures view == Some(v)
      ensures state == old(state) && openParams == old(openParams) && trace == old(trace)
      ensures widgets == old(widgets) && pooledWidgets == old(pooledWidgets)
      ensures Made(old(state), old(trace), AddViewCall(v))
    {
      view := Some(v);
    }

    method AddOpenParams(params: Option<ParamsId>)
      modifies this
      ensures openParams == params
      ensures state == old(state) && view == old(view) && trace == old(trace)
      ensures widgets == old(widgets) && pooledWidgets == old(pooledWidgets)
      ensures Made(old(state), old(trace), AddOpenParamsCall(params))
    {
      openParams := params;
    }

    /**
     * Brings the presenter to `Active` from any state. `View.Show()` is reached in every
     * state, last: without a view it is a call on `null`, which throws only after every
     * other step and the change of state, as `ViewShow(None)` records.
     */
    method Activate(manual: set<WidgetRef>)
      requires Valid()
      modifies this
      ensures view == old(view) && openParams == old(openParams)
      ensures widgets == old(widgets) && pooledWidgets == old(pooledWidgets)
      ensures state == Active
      ensures trace == old(trace) + ActivateTrace(old(state), openParams, WidgetActivations(manual), view)
      ensures Made(old(state), old(trace), ActivateCall(openParams, widgets, pooledWidgets, manual, view))
      ensures Valid()
    {
      ghost var s0 := state;
      ghost var t0 := trace;
      if state == NotInitialized || state == Inactive {
        trace := trace + [ModelActivate(openParams), OnCustomizeModel];
      }
      if state == NotInitialized {
        trace := trace + [CreateWidgets];
        state := Inactive;
      }
      ghost var t1 := trace;
      if state == Inactive {
        trace := trace + [SubscribeEvents, OnActivate, OnBindWidgets];
        ActivateWidgets(manual);
        trace := trace + [OnWidgetsActivated];
        AppendAfter3(t1, [SubscribeEvents, OnActivate, OnBindWidgets], WidgetActivations(manual), [OnWidgetsActivated]);
      }
      if state == Hidden {
        trace := trace + [ModelOnShow, OnShow];
      }
      state := Active;
      trace := trace + [ViewShow(view)];
      if s0 == NotInitialized {
        FirstActivationAssembly(t0, openParams, WidgetActivations(manual), view);
      } else if s0 == Inactive {
        LaterActivationAssembly(t0, openParams, WidgetActivations(manual), view);
      }
    }

    /** `Activate` on every widget not in manual lifecycle mode, owned ones first, then pooled ones. */
    method ActivateWidgets(manual: set<WidgetRef>)
      modifies this
      ensures trace == old(trace) + WidgetActivations(manual)
      ensures Fields() == old(Fields())
    {
      var i := 0;
      while i < |widgets|
        invariant 0 <= i <= |widgets| && Fields() == old(Fields())
        invariant trace == old(trace) + Activations(widgets[..i], manual)
      {
        assert widgets[..i + 1][..i] == widgets[..i];
        if widgets[i] !in manual {
          trace := trace + [WidgetActivate(widgets[i])];
        }
        i := i + 1;
      }
      assert widgets[..i] == widgets;
      ghost var mid := trace;
      var j := 0;
      while j < |pooledWidgets|
        invariant 0 <= j <= |pooledWidgets| && Fields() == old(Fields())
        invariant trace == mid + Activations(pooledWidgets[..j], manual)
      {
        assert pooledWidgets[..j + 1][..j] == pooledWidgets[..j];
        if pooledWidgets[j] !in manual {
          trace := trace + [WidgetActivate(pooledWidgets[j])];
        }
        j := j + 1;
      }
      assert pooledWidgets[..j] == pooledWidgets;
    }

    /**
     * From `Active` or `Hidden`: deactivates the model, unsubscribes, deactivates the
     * widgets, goes `Inactive` and hides the view, last: without a view that call throws
     * after everything else, as `ViewHide(None)` records. From the other states it does
     * nothing.
     */
    method Deactivate(manual: set<WidgetRef>)
      requires Valid()
      modifies this, factory
      ensures view == old(view) && openParams == old(openParams)
      ensures factory.instantiated == old(factory.instantiated)
      ensures if old(state) == NotInitialized || old(state) == Inactive then
          (unchanged(this) && unchanged(factory))
        else
          (state == Inactive && pooledWidgets == [] && widgets == old(widgets)
           && trace == old(trace) + DeactivateTrace(widgets, old(pooledWidgets), manual, view)
           && factory.pools == DespawnedAll(old(factory.pools), old(pooledWidgets))
           && factory.hooks == old(factory.hooks) + DespawnHooks(old(pooledWidgets)))
      ensures old(state) == Active || old(state) == Hidden ==>
        Made(old(state), old(trace), DeactivateCall(widgets, old(pooledWidgets), manual, view))
      ensures Valid()
    {
      if state == NotInitialized || state == Inactive {
        return;
      }
      ghost var s0 := state;
      ghost var t0 := trace;
      ghost var pooled := pooledWidgets;
      var head := [ModelDeactivate, OnDeactivate, UnsubscribeEvents];
      trace := trace + head;
      DeactivateWidgets(manual);
      state := Inactive;
      trace := trace + [ViewHide(view)];
      AppendAfter3(t0, head, WidgetDeactivations(widgets, pooled, manual), [ViewHide(view)]);
    }

    /**
     * The hook and `Deactivate` on the owned widgets; then every pooled widget is
     * despawned (without being deactivated) and dropped from the list.
     */
    method DeactivateWidgets(manual: set<WidgetRef>)
      requires factory.Valid() && forall w | w in pooledWidgets :: w.poolable
      modifies this, factory
      ensures trace == old(trace) + WidgetDeactivations(widgets, old(pooledWidgets), manual)
      ensures pooledWidgets == [] && (state, view, openParams, widgets) == old((state, view, openParams, widgets))
      ensures factory.Valid() && factory.instantiated == old(factory.instantiated)
      ensures factory.pools == DespawnedAll(old(factory.pools), old(pooledWidgets))
      ensures factory.hooks == old(factory.hooks) + DespawnHooks(old(pooledWidgets))
    {
      DeactivateOwnedWidgets(manual);
      ghost var mid := trace;
      var collected := DespawnPooledWidgets();
      assert trace == old(trace) + WidgetDeactivations(widgets, old(pooledWidgets), manual) by {
        assert mid == old(trace) + OwnedDeactivations(widgets, manual);
        assert trace == mid + Despawns(old(pooledWidgets));
      }
      if collected == [] {
        return;
      }
      DropPooledWidgets(collected);
    }

    /** The first loop of `DeactivateWidgets`. */
    method DeactivateOwnedWidgets(manual: set<WidgetRef>)
      modifies this
      ensures trace == old(trace) + OwnedDeactivations(widgets, manual)
      ensures Fields() == old(Fields())
    {
      var i := 0;
      while i < |widgets|
        invariant 0 <= i <= |widgets| && Fields() == old(Fields())
        invariant trace == old(trace) + OwnedDeactivations(widgets[..i], manual)
      {
        assert widgets[..i + 1][..i] == widgets[..i];
        trace := trace + OwnedDeactivation(widgets[i], manual);
        i := i + 1;
      }
      assert widgets[..i] == widgets;
    }

    /** The second loop of `DeactivateWidgets`: despawns every pooled widget and collects them, in order. */
    method DespawnPooledWidgets() returns (collected: seq<WidgetRef>)
      requires factory.Valid() && forall w | w in pooledWidgets :: w.poolable
      modifies this, factory
      ensures collected == pooledWidgets && Fields() == old(Fields())
      ensures trace == old(trace) + Despawns(pooledWidgets)
      ensures factory.Valid() && factory.instantiated == old(factory.instantiated)
      ensures factory.pools == DespawnedAll(old(factory.pools), pooledWidgets)
      ensures factory.hooks == old(factory.hooks) + DespawnHooks(pooledWidgets)
    {
      var ws := pooledWidgets;
      collected := [];
      var j := 0;
      while j < |ws|
        invariant 0 <= j <= |ws| && Fields() == old(Fields()) && collected == ws[..j]
        invariant trace == old(trace) + Despawns(ws[..j])
        invariant factory.Valid() && factory.instantiated == old(factory.instantiated)
        invariant factory.pools == DespawnedAll(old(factory.pools), ws[..j])
        invariant factory.hooks == old(factory.hooks) + DespawnHooks(ws[..j])
      {
        var w := ws[j];
        assert ws[..j + 1][..j] == ws[..j] && w.poolable;
        ghost var hooks := factory.hooks;
        factory.Despawn(w);
        assert DespawnHooks(ws[..j + 1]) == DespawnHooks(ws[..j]) + [OnDespawned(w)];
        assert factory.hooks == old(factory.hooks) + DespawnHooks(ws[..j + 1]) by {
          assert factory.hooks == hooks + [OnDespawned(w)];
        }
        trace := trace + [WidgetDespawn(w)];
        collected := collected + [w];
        j := j + 1;
      }
      assert ws[..j] == ws;
    }

    /** The last loop of `DeactivateWidgets`: removes the first occurrence of each collected widget. */
    method DropPooledWidgets(collected: seq<WidgetRef>)
      requires collected == pooledWidgets
      modifies this
      ensures pooledWidgets == [] && trace == old(trace)
      ensures (state, view, openParams, widgets) == old((state, view, openParams, widgets))
    {
      var k := 0;
      while k < |collected|
        invariant 0 <= k <= |collected| && pooledWidgets == collected[k..] && trace == old(trace)
        invariant (state, view, openParams, widgets) == old((state, view, openParams, widgets))
      {
        RemoveFirstOfHead(pooledWidgets);
        pooledWidgets := RemoveFirst(pooledWidgets, collected[k]);
        k := k + 1;
      }
    }

    /** From `Active` only: the `OnHide` hook, then `Hidden`. The view is not told. */
    method Hide()
      requires Valid()
      modifies this
      ensures view == old(view) && openParams == old(openParams)
      ensures widgets == old(widgets) && pooledWidgets == old(pooledWidgets)
      ensures if old(state) == Active then state == Hidden && trace == old(trace) + [OnHide] else unchanged(this)
      ensures Made(old(state), old(trace), HideCall)
      ensures Valid()
    {
      if state != Active {
        return;
      }
      trace := trace + [OnHide];
      state := Hidden;
    }

    /**
     * `CreateWidget<T>`: a new widget from the factory, put in the given lifecycle mode,
     * given exactly `widgetProps`, and appended to the owned widgets.
     */
    method CreateWidget(t: TypeTag, poolable: bool, widgetProps: Option<PropsId>, manualWidget: bool)
      returns (w: WidgetRef)
      requires Valid()
      modifies this, factory
      ensures w == WidgetRef(old(factory.instantiated), t, poolable)
      ensures factory.instantiated == old(factory.instantiated) + 1
      ensures factory.pools == old(factory.pools) && factory.hooks == old(factory.hooks)
      ensures widgets == old(widgets) + [w] && pooledWidgets == old(pooledWidgets)
      ensures trace == old(trace) + [WidgetSetLifecycleMode(w, manualWidget), WidgetSetProps(w, widgetProps)]
      ensures Made(old(state), old(trace), CreateWidgetCall(w, manualWidget, widgetProps))
      ensures state == old(state) && view == old(view) && openParams == old(openParams)
      ensures Valid()
    {
      w := factory.Create(t, poolable);
      trace := trace + [WidgetSetLifecycleMode(w, manualWidget), WidgetSetProps(w, widgetProps)];
      widgets := widgets + [w];
    }

    /**
     * `SpawnWidget<T>`: a widget from the factory's pool (its lifecycle mode is left as
     * it is), given exactly `widgetProps`, and appended to the pooled widgets.
     */
    method SpawnWidget(t: TypeTag, widgetProps: Option<PropsId>) returns (w: WidgetRef)
      requires Valid()
      modifies this, factory
      ensures w.widgetType == t && w.poolable
      ensures factory.hooks == old(factory.hooks) + [OnSpawned(w)]
      ensures var s := StackOf(old(factory.pools), t);
        if |s| > 0 then
          (w == s[|s| - 1] && factory.pools == Popped(old(factory.pools), t)
           && factory.instantiated == old(factory.instantiated))
        else
          (w == WidgetRef(old(factory.instantiated), t, true) && factory.pools == WithPool(old(factory.pools), t)
           && factory.instantiated == old(factory.instantiated) + 1)
      ensures pooledWidgets == old(pooledWidgets) + [w] && widgets == old(widgets)
      ensures trace == old(trace) + [WidgetSetProps(w, widgetProps)]
      ensures Made(old(state), old(trace), SpawnWidgetCall(w, widgetProps))
      ensures state == old(state) && view == old(view) && openParams == old(openParams)
      ensures Valid()
    {
      w := factory.Spawn(t);
      trace := trace + [WidgetSetProps(w, widgetProps)];
      pooledWidgets := pooledWidgets + [w];
    }

    /** The hook, `Deactivate` unless in manual mode, and a despawn when the widget is poolable. */
    method DeactivateWidget(w: WidgetRef, manual: set<WidgetRef>)
      requires factory.Valid()
      modifies this, factory
      ensures trace == old(trace) + OwnedDeactivation(w, manual) + (if w.poolable then [WidgetDespawn(w)] else [])
      ensures Made(old(state), old(trace), DeactivateWidgetCall(w, manual))
      ensures factory.Valid() && factory.instantiated == old(factory.instantiated)
      ensures factory.pools == if w.poolable then Despawned(old(factory.pools), w) else old(factory.pools)
      ensures factory.hooks == old(factory.hooks) + if w.poolable then [OnDespawned(w)] else []
      ensures Fields() == old(Fields())
    {
      trace := trace + OwnedDeactivation(w, manual);
      if !w.poolable {
        return;
      }
      factory.Despawn(w);
      trace := trace + [WidgetDespawn(w)];
    }

    /** Removes the first occurrence of `w` from the owned widgets and deactivates it; otherwise nothing happens. */
    method RemoveWidget(w: WidgetRef, manual: set<WidgetRef>)
      requires Valid()
      modifies this, factory
      ensures pooledWidgets == old(pooledWidgets)
      ensures state == old(state) && view == old(view) && openParams == old(openParams)
      ensures if w in old(widgets) then
          (widgets == RemoveFirst(old(widgets), w)
           && trace == old(trace) + OwnedDeactivation(w, manual) + (if w.poolable then [WidgetDespawn(w)] else [])
           && factory.pools == (if w.poolable then Despawned(old(factory.pools), w) else old(factory.pools))
           && factory.hooks == old(factory.hooks) + (if w.poolable then [OnDespawned(w)] else []))
        else
          (widgets == old(widgets) && trace == old(trace)
           && factory.pools == old(factory.pools) && factory.hooks == old(factory.hooks))
      ensures factory.instantiated == old(factory.instantiated)
      ensures Made(old(state), old(trace), RemoveWidgetCall(w, manual, w in old(widgets)))
      ensures Valid()
    {
      if w in widgets {
        widgets := RemoveFirst(widgets, w);
        DeactivateWidget(w, manual);
      }
    }

    /** Removes the first occurrence of `w` from the pooled widgets, deactivates it and despawns it; otherwise nothing happens. */
    method DespawnWidget(w: WidgetRef, manual: set<WidgetRef>)
      requires Valid()
      modifies this, factory
      ensures widgets == old(widgets)
      ensures state == old(state) && view == old(view) && openParams == old(openParams)
      ensures if w in old(pooledWidgets) then
          (pooledWidgets == RemoveFirst(old(pooledWidgets), w)
           && trace == old(trace) + OwnedDeactivation(w, manual) + [WidgetDespawn(w)]
           && factory.pools == Despawned(old(factory.pools), w)
           && factory.hooks == old(factory.hooks) + [OnDespawned(w)])
        else
          (pooledWidgets == old(pooledWidgets) && trace == old(trace)
           && factory.pools == old(factory.pools) && factory.hooks == old(factory.hooks))
      ensures factory.instantiated == old(factory.instantiated)
      ensures Made(old(state), old(trace), RemoveWidgetCall(w, manual, w in old(pooledWidgets)))
      ensures Valid()
    {
      if w in pooledWidgets {
        var rest := RemoveFirst(pooledWidgets, w);
        assert forall x | x in rest :: x in pooledWidgets by {
          forall x | x in rest
            ensures x in pooledWidgets
          {
            assert multiset(rest)[x] > 0;
          }
        }
        pooledWidgets := rest;
        DeactivateWidget(w, manual);
      }
    }
  }
}
