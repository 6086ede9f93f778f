# MVPFramework core, modelled in Dafny

This project models the runtime core of MVPFramework, a Model-View-Presenter framework
for Unity. The core has three parts.

- **Subscription engine** (`Events/`). `EventSubscriber` (zero, one or two event
  arguments) and `SignalSubscriber<T>` are pooled handles. Each binds one handler to one
  `UnityEvent` or to the global signal hub. `EventsSubscriber` is an owner's ordered list of
  such handles. `EventsStore` maps each owner to its registry, and the registries are
  pooled too. The listener lists of every event and of the hub live in one
  `ListenerTable` (`Listeners` module): a map from endpoint to the sequence of registered
  handlers. Each static pool is an object holding one free list per closed generic type,
  plus a ghost set of the handles handed out.
- **Reactive values** (`Model/`). `ReactiveProperty<T>`, the 2/3/4-ary
  `CompositeReactiveProperty`, the ANY/ALL `ConditionalCompositeReactiveProperty`,
  `ReactiveList<T>` and `ModelBase`. Handlers are not executed. Each event invocation is
  appended to a ghost log (`notes`, `broadcasts`), and each registration is a `Listener`
  value in the event's listener sequence. So "fires iff" and "fires in this order"
  become equalities over sequences.
- **Lifecycle state machines** (`Widgets/`, `Presenter/`). `WidgetFactory` keeps one LIFO
  stack per widget type. `WidgetBase` and `CompositeWidget` follow the widget lifecycle.
  `PresenterBase` is the four-state presenter (`NotInitialized`, `Inactive`, `Active`,
  `Hidden`). Hooks and collaborator calls (`Model.Activate`, `View.Show`,
  `CreateWidgets`, a child's `Activate`, ...) are appended to a trace. Widgets are
  `WidgetRef` values: an identity, a runtime type tag, and whether the widget implements
  `IPoolableWidget`.

The presenter's main property is stated over whole call sequences. `Run` folds the
state machine (`After`) over any sequence of presenter calls. `RunBalanced` proves that
the trace then stays balanced:

- `CreateWidgets` has run exactly once if the presenter was ever activated, and never
  otherwise;
- exactly one `SubscribeEvents` is open while the presenter is `Active` or `Hidden`,
  and none otherwise.

These methods of `PresenterBase` are tied to `After` through `Made`: `Activate`, `Deactivate`, `Hide`, `AddView`, `AddOpenParams`, `CreateWidget`, `SpawnWidget`, `DeactivateWidget`, `RemoveWidget` and `DespawnWidget`. The private helpers that `Activate` and `Deactivate` use (`ActivateWidgets`, `DeactivateWidgets`, `DeactivateOwnedWidgets`, `DespawnPooledWidgets`, `DropPooledWidgets`) state instead the steps they append to the trace.

One Dafny module per source file: `EventSubscribers`, `SignalSubscribers`, `Registries`,
`Store`, `ReactiveProperties`, `CompositeProperties`, `ConditionalComposites`,
`ReactiveLists`, `Models`, `WidgetFactories`, `WidgetBases`, `CompositeWidgets`,
`Presenters`. The shared helpers are in `Wrappers`, `Seqs` and `Listeners`.

## Model

| member | source | states |
|---|---|---|
| EventSubscribers.EventSubscriber.constructor | Runtime/MVPFramework/Events/EventSubscriber.cs:8 | A handle the pool allocates has its arity and references neither an event nor a handler. |
| EventSubscribers.EventSubscriber.OnSpawned | Runtime/MVPFramework/Events/EventSubscriber.cs:13-18 | The handle is bound to exactly (event, handler). That one handler is appended to that event's listeners, and every other endpoint is unchanged. |
| EventSubscribers.EventSubscriber.Unsubscribe | Runtime/MVPFramework/Events/EventSubscriber.cs:20-23 | Only a bound handle may unsubscribe. The stored handler is removed from the stored event only; other handlers and other endpoints keep their listeners. |
| EventSubscribers.EventSubscriber.OnDespawned | Runtime/MVPFramework/Events/EventSubscriber.cs:25-30 | Both references are cleared and the handle is pushed on its own arity's free list. Pool well-formedness is kept when the handle was busy. No listener list is touched, since the table is not in the frame. |
| EventSubscribers.Pushed | Runtime/MVPFramework/Events/EventSubscriber.cs:62 | A despawn grows the free list of the handle's own arity by that handle and leaves the other arities' lists alone: each arity has its own static pool. |
| EventSubscribers.PushedValid | Runtime/MVPFramework/Events/EventSubscriber.cs:35 | Pushing a handle that is not idle keeps every free list typed and free of repeats. |
| EventSubscribers.EventSubscriberPool.Spawn | Runtime/MVPFramework/Events/EventSubscriber.cs:13-18 | The pool pops the top idle handle of that arity, or allocates a fresh one, and rebinds it through `OnSpawned`. The handle is new to the busy set and the pool stays well formed. The popped handle is the only idle handle touched: every other idle handle keeps its event and handler. |
| EventSubscribers.EventSubscriberPool.Despawn | Runtime/MVPFramework/Events/EventSubscriber.cs:29 | The handle is pushed on its arity's stack and leaves the busy set. |
| SignalSubscribers.SignalSubscriber.constructor | Runtime/MVPFramework/Events/SignalSubscriber.cs:9 | A new handle has its signal type and no handler. |
| SignalSubscribers.SignalSubscriber.OnSpawned | Runtime/MVPFramework/Events/SignalSubscriber.cs:13-17 | The handle is bound to the handler, and exactly that handler is added to the hub's list for its signal type. |
| SignalSubscribers.SignalSubscriber.Unsubscribe | Runtime/MVPFramework/Events/SignalSubscriber.cs:19-22 | Exactly the stored handler is removed from the hub's list for that type; everything else is unchanged. |
| SignalSubscribers.SignalSubscriber.OnDespawned | Runtime/MVPFramework/Events/SignalSubscriber.cs:24-28 | The handler is cleared and the handle is pushed on its type's free list. The hub is not touched. |
| SignalSubscribers.Pushed | Runtime/MVPFramework/Events/SignalSubscriber.cs:9 | Each signal type has its own free list: a push grows that type's list only. |
| SignalSubscribers.PushedValid | Runtime/MVPFramework/Events/SignalSubscriber.cs:9 | Pushing a handle that is not idle keeps the free lists typed and free of repeats. |
| SignalSubscribers.SignalSubscriberPool.Spawn | Runtime/MVPFramework/Events/SignalSubscriber.cs:13-17 | The pool pops or allocates a handle of that type and rebinds it through `OnSpawned`. The handle is new to the busy set. The popped handle is the only idle handle touched: every other idle handle keeps its handler. |
| SignalSubscribers.SignalSubscriberPool.Despawn | Runtime/MVPFramework/Events/SignalSubscriber.cs:27 | The handle is pushed on its type's stack and leaves the busy set. |
| Listeners.Attach | Runtime/MVPFramework/Events/EventSubscriber.cs:17 | `AddListener` appends the handler to its endpoint's list and changes no other endpoint. |
| Listeners.Detach | Runtime/MVPFramework/Events/EventSubscriber.cs:22 | `RemoveListener` drops the handler from its endpoint's list, keeps the other handlers with their multiplicities, and changes no other endpoint. |
| Listeners.AttachThenDetach | Runtime/MVPFramework/Events/EventSubscriber.cs:13-23 | Unsubscribing undoes subscribing whenever the handler was not already registered on that endpoint. |
| Listeners.DetachAllClears | Runtime/MVPFramework/Events/EventsSubscriber.cs:40-51 | After a registry's handles are all unsubscribed, no event and no hub list holds any handler that registry added. |
| Listeners.DetachAllKeepsOthers | Runtime/MVPFramework/Events/EventsStore.cs:43-51 | Unsubscribing one owner keeps every registration that is not one of that owner's, with its multiplicity. |
| Listeners.DetachAllElsewhere | Runtime/MVPFramework/Events/EventsStore.cs:43-51 | Endpoints that none of the owner's handles name keep their listener lists exactly. |
| Listeners.DetachAllIdempotent | Runtime/MVPFramework/Events/EventsSubscriber.cs:40-44 | Unsubscribing the same handles a second time changes no listener list. |
| Listeners.DetachAllAbsent | Runtime/MVPFramework/Events/EventsSubscriber.cs:40-44 | Unsubscribing handles whose handlers are already gone changes nothing. |
| Listeners.DetachAllPrefix | Runtime/MVPFramework/Events/EventsSubscriber.cs:42-43 | Detaching one more handle of the list extends the in-order fold by one `RemoveListener`. |
| Registries.Registrations | Runtime/MVPFramework/Events/EventsSubscriber.cs:40-44 | The registrations of a list of bound handles, position by position. |
| Registries.BusyAreBound | Runtime/MVPFramework/Events/EventsSubscriber.cs:40-44 | Handles that well-formed pools count as busy are bound, so unsubscribing them dereferences no cleared handle. |
| Registries.DespawnHandle | Runtime/MVPFramework/Events/EventsSubscriber.cs:48-49 | The `IEventSubscriber.OnDespawned` dispatch returns an event handle to its arity's pool or a signal handle to its type's pool, leaves the handle released (no event, no handler), keeps already released handles released, and keeps the pools well formed. |
| Registries.DespawnNext | Runtime/MVPFramework/Events/EventsSubscriber.cs:48-49 | One iteration of the despawn loop extends the returned, released prefix of the list by one handle. |
| Registries.ReleasedPrefix | Runtime/MVPFramework/Events/EventsSubscriber.cs:48-49 | A prefix of the list is all released exactly when each of its positions is. |
| Registries.EventsSubscriber.constructor | Runtime/MVPFramework/Events/EventsSubscriber.cs:9-12 | A new registry holds no handles. |
| Registries.EventsSubscriber.Subscribe | Runtime/MVPFramework/Events/EventsSubscriber.cs:16-32 | Each of the three overloads appends exactly one newly spawned, bound event handle at the end of the list and registers exactly its handler on the event. Only the top idle handle of that arity may be touched. |
| Registries.EventsSubscriber.SubscribeSignal | Runtime/MVPFramework/Events/EventsSubscriber.cs:34-38 | Appends exactly one newly spawned signal handle at the end of the list and registers its handler with the hub. Only the top idle handle of that type may be touched. |
| Registries.EventsSubscriber.Unsubscribe | Runtime/MVPFramework/Events/EventsSubscriber.cs:40-44 | Detaches every handle's registration in list order and leaves the list as it is. On an empty list nothing changes. |
| Registries.EventsSubscriber.OnDespawned | Runtime/MVPFramework/Events/EventsSubscriber.cs:46-51 | Returns every handle to its pool in list order, leaves every one of them released, then empties the list. Distinct busy handles leave the pools well formed. On an empty list only the (already empty) list is touched. |
| Registries.EventsSubscriber.OnSpawned | Runtime/MVPFramework/Events/EventsSubscriber.cs:53-55 | Changes nothing. |
| Store.PushKeepsRegistries | Runtime/MVPFramework/Events/EventsStore.cs:48-50 | Unmapping an owner whose registry has been emptied and pushing that registry on the registry pool keeps at most one registry per owner, with idle registries empty and unmapped. |
| Store.EventsStore.constructor | Runtime/MVPFramework/Events/EventsStore.cs:11-14 | A new store maps no owner and has no idle registry. |
| Store.EventsStore.SpawnRegistry | Runtime/MVPFramework/Events/EventsStore.cs:57 | Pops the most recently despawned registry, or allocates one. The result is empty and belongs to no owner. |
| Store.EventsStore.GetSubscriber | Runtime/MVPFramework/Events/EventsStore.cs:53-60 | Returns the owner's existing registry, or maps a spawned empty one to the owner. Either way each owner has at most one registry, and no owner's handles change. |
| Store.EventsStore.SubscribeEvent | Runtime/MVPFramework/Events/EventsStore.cs:19-35 | The owner gets exactly one more event handle, at the end of its list, and every other owner's handles are unchanged. The handle is the top of its arity's free stack, which is popped, or a fresh one when that stack is empty. A missing mapping is created with the top idle registry (popped) or a fresh one; no existing mapping changes. No other idle handle is touched. |
| Store.EventsStore.SubscribeEventOwned | Runtime/MVPFramework/Events/EventsStore.cs:22 | For a mapped owner, the registry's `Subscribe` adds one handle for that owner only, taken from the top of its arity's free stack (popped) or fresh when the stack is empty. No other idle handle is touched. |
| Store.EventsStore.SubscribeSignal | Runtime/MVPFramework/Events/EventsStore.cs:37-41 | The owner gets exactly one more signal handle, the top of its type's free stack (popped) or a fresh one, and no other owner's handles change. A missing mapping is created with the top idle registry or a fresh one. No other idle handle is touched. |
| Store.EventsStore.SubscribeSignalOwned | Runtime/MVPFramework/Events/EventsStore.cs:40 | For a mapped owner, the registry's `SubscribeSignal` adds one handle for that owner only, taken from the top of its type's free stack (popped) or fresh. No other idle handle is touched. |
| Store.EventsStore.Unsubscribe | Runtime/MVPFramework/Events/EventsStore.cs:43-51 | An unknown owner changes nothing, so a second `Unsubscribe` is a no-op. A mapped owner's registrations are all detached and its handles returned to their pools, released. Its registry is emptied and pooled, and only that owner's mapping is removed. |
| Store.EventsStore.Release | Runtime/MVPFramework/Events/EventsStore.cs:48-50 | Despawns the owner's registry, whose hook empties it and returns its handles released, then removes the owner's mapping and nothing else. |
| ReactiveProperties.AssignedEndsAtLast | Runtime/MVPFramework/Model/ReactiveProperty.cs:54-62 | After a run of assignments through the setter, the value is the last value assigned, whether or not the gate let it through. |
| ReactiveProperties.AssignedRepeatSilent | Runtime/MVPFramework/Model/ReactiveProperty.cs:56-57 | Assigning the value just assigned again adds no event without `changeOnSameValue`, and exactly one `OnBeforeValueChanged(x, x)`/`OnChanged(x)` pair with it. |
| ReactiveProperties.AssignedSameSilent | Runtime/MVPFramework/Model/ReactiveProperty.cs:56-57 | Without `changeOnSameValue`, any number of assignments of the current value change nothing and invoke nothing. |
| ReactiveProperties.AssignedAlwaysNotifies | Runtime/MVPFramework/Model/ReactiveProperty.cs:56-61 | With `changeOnSameValue`, every assignment invokes both events, and the `OnChanged` entries announce exactly the assigned values, in order. |
| ReactiveProperties.ReactiveProperty.constructor | Runtime/MVPFramework/Model/ReactiveProperty.cs:17-27 | Starts at the given default value, with no listeners and nothing emitted. `default(T)`, which `Reset` stores, is fixed for the object, apart from that value. |
| ReactiveProperties.ReactiveProperty.SetValue | Runtime/MVPFramework/Model/ReactiveProperty.cs:54-62 | An equal value without `changeOnSameValue` leaves the value and the log unchanged. Otherwise exactly `OnBeforeValueChanged(old, new)` and then `OnChanged(new)` are emitted around the commit. One call is one step of the assignment run `Assigned`. |
| ReactiveProperties.ReactiveProperty.SetSilently | Runtime/MVPFramework/Model/ReactiveProperty.cs:65-68 | Stores the value and emits nothing. |
| ReactiveProperties.ReactiveProperty.ClearListeners | Runtime/MVPFramework/Model/ReactiveProperty.cs:81-85 | Both events end with no listeners. The value and the log are unchanged. |
| ReactiveProperties.ReactiveProperty.Reset | Runtime/MVPFramework/Model/ReactiveProperty.cs:70-74 | The value is `default(T)` (the object's `typeDefault`, not the constructor's `defaultValue`), both events have no listeners, and nothing is emitted. |
| ReactiveProperties.ReactiveProperty.Touch | Runtime/MVPFramework/Model/ReactiveProperty.cs:76-79 | Emits exactly `OnChanged(current value)` and keeps the value. |
| ReactiveProperties.ReactiveProperty.AddListener | Runtime/MVPFramework/Model/ReactiveProperty.cs:35-41 | Registers one listener at the end of `OnChanged`'s list and changes nothing else. |
| ReactiveProperties.ReactiveProperty.RemoveListener | Runtime/MVPFramework/Model/ConditionalCompositeReactiveProperty.cs:82-85 | Drops the listener from `OnChanged`'s list and changes nothing else. |
| ReactiveProperties.ReactiveProperty.Select | Runtime/MVPFramework/Model/ReactiveProperty.cs:29-44 | The derived property is new, starts at `selector(Value)`, has `default(TOut)` as its own default and has not emitted. Exactly one listener, the derived property's relay, is added to the source. |
| ReactiveProperties.ReactiveProperty.Where | Runtime/MVPFramework/Model/ReactiveProperty.cs:46-49 | The derived property starts at the source's value and shares its `default(T)`, and one relay listener is added to the source. |
| ReactiveProperties.ReactiveProperty.Relay | Runtime/MVPFramework/Model/ReactiveProperty.cs:35-41 | On a source change to `v`, the derived property goes through its setter with `selector(v)` exactly when the predicate is absent or holds. Otherwise nothing changes. |
| CompositeProperties.RegistrationsOfDistinct | Runtime/MVPFramework/Model/CompositeReactiveProperty.cs:21-22 | Over distinct sources, each source receives exactly one listener: the handler of its own position. |
| CompositeProperties.RegistrationsOfAbsent | Runtime/MVPFramework/Model/CompositeReactiveProperty.cs:88-91 | An object that is none of the sources receives no listener. |
| CompositeProperties.CompositeReactiveProperty2.constructor | Runtime/MVPFramework/Model/CompositeReactiveProperty.cs:14-23 | Stores the two sources, has no broadcast, and adds to each source exactly its position's handler. Each source's value, `OnBeforeValueChanged` listeners and log are unchanged. |
| CompositeProperties.CompositeReactiveProperty2.HandleProp1Changed | Runtime/MVPFramework/Model/CompositeReactiveProperty.cs:25-26 | A change of prop1 to `v` broadcasts `(v, prop2.Value)` read live. |
| CompositeProperties.CompositeReactiveProperty2.HandleProp2Changed | Runtime/MVPFramework/Model/CompositeReactiveProperty.cs:28-29 | A change of prop2 to `w` broadcasts `(prop1.Value, w)`. |
| CompositeProperties.CompositeReactiveProperty3.constructor | Runtime/MVPFramework/Model/CompositeReactiveProperty.cs:42-54 | Stores the three sources and adds its position's handler to each. Each source's value, `OnBeforeValueChanged` listeners and log are unchanged. |
| CompositeProperties.CompositeReactiveProperty3.HandleProp1Changed | Runtime/MVPFramework/Model/CompositeReactiveProperty.cs:56-57 | Broadcasts the new value at position 1, the others read live. |
| CompositeProperties.CompositeReactiveProperty3.HandleProp2Changed | Runtime/MVPFramework/Model/CompositeReactiveProperty.cs:59-60 | Broadcasts the new value at position 2, the others read live. |
| CompositeProperties.CompositeReactiveProperty3.HandleProp3Changed | Runtime/MVPFramework/Model/CompositeReactiveProperty.cs:62-63 | Broadcasts the new value at position 3, the others read live. |
| CompositeProperties.CompositeReactiveProperty4.constructor | Runtime/MVPFramework/Model/CompositeReactiveProperty.cs:77-92 | Stores the four sources and adds its position's handler to each. Each source's value, `OnBeforeValueChanged` listeners and log are unchanged. |
| CompositeProperties.CompositeReactiveProperty4.HandleProp1Changed | Runtime/MVPFramework/Model/CompositeReactiveProperty.cs:94-95 | Broadcasts the new value at position 1, the others read live. |
| CompositeProperties.CompositeReactiveProperty4.HandleProp2Changed | Runtime/MVPFramework/Model/CompositeReactiveProperty.cs:97-98 | Broadcasts the new value at position 2, the others read live. |
| CompositeProperties.CompositeReactiveProperty4.HandleProp3Changed | Runtime/MVPFramework/Model/CompositeReactiveProperty.cs:100-101 | Broadcasts the new value at position 3, the others read live. |
| CompositeProperties.CompositeReactiveProperty4.HandleProp4Changed | Runtime/MVPFramework/Model/CompositeReactiveProperty.cs:103-104 | Broadcasts the new value at position 4, the others read live. |
| CompositeProperties.Create2 | Runtime/MVPFramework/Model/CompositeReactiveProperty.cs:109-110 | Builds a new composite over exactly the two given sources, in order, leaving each source's value, `OnBeforeValueChanged` listeners and log unchanged. |
| CompositeProperties.Create3 | Runtime/MVPFramework/Model/CompositeReactiveProperty.cs:112-113 | Builds a new composite over exactly the three given sources, in order, leaving each source's value, `OnBeforeValueChanged` listeners and log unchanged. |
| CompositeProperties.Create4 | Runtime/MVPFramework/Model/CompositeReactiveProperty.cs:115-116 | Builds a new composite over exactly the four given sources, in order, leaving each source's value, `OnBeforeValueChanged` listeners and log unchanged. |
| ConditionalComposites.AnyHolds | Runtime/MVPFramework/Model/ConditionalCompositeReactiveProperty.cs:129 | True exactly when some record's predicate holds on its last value. |
| ConditionalComposites.AllHolds | Runtime/MVPFramework/Model/ConditionalCompositeReactiveProperty.cs:130 | True exactly when every record's predicate holds on its last value. |
| ConditionalComposites.AllImpliesAny | Runtime/MVPFramework/Model/ConditionalCompositeReactiveProperty.cs:124-137 | Over a non-empty record list, an ALL result implies the ANY result. |
| ConditionalComposites.RemoveAtSources | Runtime/MVPFramework/Model/ConditionalCompositeReactiveProperty.cs:93 | Dropping a record keeps the registered sources distinct. |
| ConditionalComposites.RemoveFromAll | Runtime/MVPFramework/Model/ConditionalCompositeReactiveProperty.cs:101-105 | Each registered source loses the composite's handler, and its value, notes and `OnBeforeValueChanged` are kept. |
| ConditionalComposites.ConditionalCompositeReactiveProperty.constructor | Runtime/MVPFramework/Model/ConditionalCompositeReactiveProperty.cs:43-46 | No records, mode ANY, and a cached value of `false` whatever `emptyValue` is. |
| ConditionalComposites.ConditionalCompositeReactiveProperty.Value | Runtime/MVPFramework/Model/ConditionalCompositeReactiveProperty.cs:39 | With records, the getter gives the ANY/ALL combination of the current last values. |
| ConditionalComposites.ConditionalCompositeReactiveProperty.UpdateResult | Runtime/MVPFramework/Model/ConditionalCompositeReactiveProperty.cs:112-141 | A non-null value from a registered source becomes that record's last value, and nothing else does. The cache becomes `emptyValue`, ANY or ALL. The result is announced when forced, or when it differs from the previous cache. |
| ConditionalComposites.ConditionalCompositeReactiveProperty.Add | Runtime/MVPFramework/Model/ConditionalCompositeReactiveProperty.cs:49-80 | A null or already-registered source changes nothing. Otherwise the record (with the source's current value) is appended and one handler is registered on the source, whose value, notes and `OnBeforeValueChanged` are kept. The result is recomputed and always announced. |
| ConditionalComposites.ConditionalCompositeReactiveProperty.Remove | Runtime/MVPFramework/Model/ConditionalCompositeReactiveProperty.cs:88-97 | For a registered source: its handler is removed, exactly its record is dropped, its value, notes and `OnBeforeValueChanged` are kept, and the recomputed result is always announced. |
| ConditionalComposites.ConditionalCompositeReactiveProperty.ClearAll | Runtime/MVPFramework/Model/ConditionalCompositeReactiveProperty.cs:99-109 | Every registered source loses the handler, keeps its value, notes and `OnBeforeValueChanged`, and the records are emptied. `emptyValue` is cached and always announced. |
| ConditionalComposites.ConditionalCompositeReactiveProperty.SetMode | Runtime/MVPFramework/Model/ConditionalCompositeReactiveProperty.cs:30-35 | The same mode changes nothing. A new mode is stored, and the result under it is recomputed and always announced. |
| ReactiveLists.FirstMatch | Runtime/MVPFramework/Model/ReactiveList.cs:89 | The first matching position: everything before it fails to match, and `|s|` means none. |
| ReactiveLists.Filter | Runtime/MVPFramework/Model/ReactiveList.cs:100-104 | Keeps exactly the matching elements. |
| ReactiveLists.FilterSnoc | Runtime/MVPFramework/Model/ReactiveList.cs:100-104 | Filtering a list grown at the end grows the result by the new element exactly when it matches, so the list order is kept. |
| ReactiveLists.RemoveFirstMatch | Runtime/MVPFramework/Model/ReactiveList.cs:45-49 | Removing the first element equal to the first match removes exactly the matched position. |
| ReactiveLists.ReactiveList.constructor | Runtime/MVPFramework/Model/ReactiveList.cs:14-19 | A new list is empty and has emitted nothing. |
| ReactiveLists.ReactiveList.Get | Runtime/MVPFramework/Model/ReactiveList.cs:22 | The indexer's getter returns exactly the element at position `i`. |
| ReactiveLists.ReactiveList.Set | Runtime/MVPFramework/Model/ReactiveList.cs:23 | The indexer's setter makes `Get(i)` return the new value, keeps every other position and the count, and invokes nothing. |
| ReactiveLists.ReactiveList.Add | Runtime/MVPFramework/Model/ReactiveList.cs:37-43 | Appends the value, so `Count` grows by one and the last element is the value, and emits `OnItemAdded(value)` unless silent. |
| ReactiveLists.ReactiveList.Remove | Runtime/MVPFramework/Model/ReactiveList.cs:51-57 | Removes the first equal element if there is one, so `Count` drops by one exactly when the value was present, and emits `OnItemRemoved(value)` unless silent, even when nothing was removed. |
| ReactiveLists.ReactiveList.FindIndex | Runtime/MVPFramework/Model/ReactiveList.cs:87-90 | `-1` exactly when nothing matches; otherwise the position of the first match. |
| ReactiveLists.ReactiveList.Find | Runtime/MVPFramework/Model/ReactiveList.cs:92-95 | The first matching element, or `default(T)` when nothing matches. |
| ReactiveLists.ReactiveList.RemoveMatching | Runtime/MVPFramework/Model/ReactiveList.cs:45-49 | Acts only when `Find` does not return `null`. It then behaves as `Remove` of the found element, so with a value type and no match, `default(T)` is removed and announced. |
| ReactiveLists.ReactiveList.Clear | Runtime/MVPFramework/Model/ReactiveList.cs:59-62 | Empties the list (`Count` is 0) and emits nothing. |
| ReactiveLists.ReactiveList.RemoveAll | Runtime/MVPFramework/Model/ReactiveList.cs:64-73 | Ends empty (`Count` is 0), with one `OnItemRemoved` per original element, in the original order. |
| ReactiveLists.ReactiveList.FindAll | Runtime/MVPFramework/Model/ReactiveList.cs:97-105 | The buffer is exactly the matching elements in list order. |
| Models.ActivationSteps | Runtime/MVPFramework/Model/ModelBase.cs:20-21 | `CreateData` runs exactly when there is no data yet, and `InitData` always runs, last. |
| Models.ModelBase.constructor | Runtime/MVPFramework/Model/ModelBase.cs:6-11 | No open params and no hook run yet. The data is `default(TData)`: `null` for a reference type, but a non-null value for a value type, whose `CreateData` then never runs (`Models.DataKept`). |
| Models.ModelBase.Activate | Runtime/MVPFramework/Model/ModelBase.cs:17-22 | Stores the open params. Existing data is kept; otherwise the data becomes what `CreateData` returns, possibly `null`. Then `InitData` runs. |
| Models.ModelBase.OnShow | Runtime/MVPFramework/Model/ModelBase.cs:24-27 | Changes no state. |
| Models.ModelBase.Deactivate | Runtime/MVPFramework/Model/ModelBase.cs:29-31 | Changes no state. |
| Models.DataKept | Runtime/MVPFramework/Model/ModelBase.cs:20 | Over any run of activations, once there is data no activation replaces it or calls `CreateData`. |
| Models.DataStaysNull | Runtime/MVPFramework/Model/ModelBase.cs:20 | The data stays `null` exactly while every `CreateData` so far returned `null`, so each activation retries the creation. |
| Models.InitEveryTime | Runtime/MVPFramework/Model/ModelBase.cs:21 | Every activation runs `InitData` exactly once. |
| WidgetFactories.WithPool | Runtime/MVPFramework/Widgets/WidgetFactory.cs:45-52 | `GetPool` creates the stack for a type only on first use, keeps its contents otherwise, and leaves every other type's stack unchanged. |
| WidgetFactories.SpawnAfterDespawn | Runtime/MVPFramework/Widgets/WidgetFactory.cs:23-43 | A spawn right after `Despawn(w)` of the same type returns `w` (LIFO) and restores the stacks. |
| WidgetFactories.DespawnTwice | Runtime/MVPFramework/Widgets/WidgetFactory.cs:38-43 | With no guard, despawning a widget twice puts it on its stack twice more. |
| WidgetFactories.DespawnedTyped | Runtime/MVPFramework/Widgets/WidgetFactory.cs:38-43 | Despawning a poolable widget keeps every stack holding poolable widgets of its own type only. |
| WidgetFactories.DespawnedAllPushes | Runtime/MVPFramework/Presenter/PresenterBase.cs:156-162 | Each poolable widget of a despawned list ends up on the stack of its runtime type. |
| WidgetFactories.DespawnedAllTyped | Runtime/MVPFramework/Presenter/PresenterBase.cs:156-162 | Despawning a list of widgets keeps every stack typed. |
| WidgetFactories.WidgetFactory.constructor | Runtime/MVPFramework/Widgets/WidgetFactory.cs:13-16 | No stacks, no widget created, no hook called. |
| WidgetFactories.WidgetFactory.Create | Runtime/MVPFramework/Widgets/WidgetFactory.cs:18-21 | Always a new widget (a new identity) and no stack touched. |
| WidgetFactories.WidgetFactory.GetPool | Runtime/MVPFramework/Widgets/WidgetFactory.cs:45-52 | Returns the type's stack, creating it on first use; other types are unchanged. |
| WidgetFactories.WidgetFactory.Spawn | Runtime/MVPFramework/Widgets/WidgetFactory.cs:23-36 | Pops the type's stack when it is non-empty, else creates a widget. Either way `OnSpawned` runs exactly once, on the result. |
| WidgetFactories.WidgetFactory.Despawn | Runtime/MVPFramework/Widgets/WidgetFactory.cs:38-43 | `OnDespawned` runs, then the widget is pushed on its runtime type's stack, even when it is already there. |
| WidgetBases.RebindOrder | Runtime/MVPFramework/Widgets/WidgetBase.cs:108-113 | In `Rebind`, the old subscriptions are released before new ones are made, and each hook runs at most once. |
| WidgetBases.WidgetBase.constructor | Runtime/MVPFramework/Widgets/WidgetBase.cs:16-19 | No view, no props, not activated, not in manual mode. |
| WidgetBases.WidgetBase.Bind | Runtime/MVPFramework/Widgets/WidgetBase.cs:23-32 | Stores view and data, and activates exactly when asked to and not in manual lifecycle mode. |
| WidgetBases.WidgetBase.Activate | Runtime/MVPFramework/Widgets/WidgetBase.cs:34-43 | Without a view nothing changes. With one: `View.Activate(Data)`, then `SubscribeEvents`, then `IsActivated`. |
| WidgetBases.WidgetBase.Deactivate | Runtime/MVPFramework/Widgets/WidgetBase.cs:57-65 | Always unsubscribes first. Without a view `IsActivated` is unchanged; with one `View.Deactivate` runs and the flag is cleared. |
| WidgetBases.WidgetBase.SetLifecycleMode | Runtime/MVPFramework/Widgets/WidgetBase.cs:45-48 | Sets the manual flag only. |
| WidgetBases.WidgetBase.SetProps | Runtime/MVPFramework/Widgets/WidgetBase.cs:50-53 | Sets the props only. |
| WidgetBases.WidgetBase.Rebind | Runtime/MVPFramework/Widgets/WidgetBase.cs:108-113 | Replaces the data, then deactivates and activates with the new data. |
| WidgetBases.WidgetBase.DetachView | Runtime/MVPFramework/Widgets/WidgetBase.cs:115-118 | Clears the view only; the flag and the subscriptions stay as they are. |
| WidgetBases.WidgetBase.GetView | Runtime/MVPFramework/Widgets/WidgetBase.cs:67-72 | The view exactly when there is one and it is alive, else `null`. |
| CompositeWidgets.ChildActivationsCover | Runtime/MVPFramework/Widgets/CompositeWidget.cs:44-45 | One `Activate` per child, at the child's position in list order, regardless of manual mode; every child and only a child is activated. |
| CompositeWidgets.ChildDeactivationsCover | Runtime/MVPFramework/Widgets/CompositeWidget.cs:50-68 | Every child, and only a child, gets the hook and a `Deactivate`. Exactly the poolable children are despawned. |
| CompositeWidgets.CompositeWidget.constructor | Runtime/MVPFramework/Widgets/CompositeWidget.cs:12-15 | A fresh base widget and no children. |
| CompositeWidgets.CompositeWidget.CreateWidget | Runtime/MVPFramework/Widgets/CompositeWidget.cs:17-23 | A new child is created and appended, and gets the given props or else the composite's own. |
| CompositeWidgets.CompositeWidget.SpawnWidget | Runtime/MVPFramework/Widgets/CompositeWidget.cs:25-31 | A child is spawned from the pool and appended, and gets the given props or else the composite's own. |
| CompositeWidgets.CompositeWidget.Activate | Runtime/MVPFramework/Widgets/CompositeWidget.cs:41-48 | `CreateWidgets`, then every child's `Activate` in list order, then the base activation. |
| CompositeWidgets.CompositeWidget.DeactivateChild | Runtime/MVPFramework/Widgets/CompositeWidget.cs:61-68 | The hook, the child's `Deactivate` (manual mode ignored), and a despawn exactly when the child is poolable. |
| CompositeWidgets.CompositeWidget.Deactivate | Runtime/MVPFramework/Widgets/CompositeWidget.cs:50-59 | The base deactivation first, then each child in order, with poolable ones despawned. The list ends empty and `OnDeactivated` runs last. |
| CompositeWidgets.CompositeWidget.RemoveChildControl | Runtime/MVPFramework/Widgets/CompositeWidget.cs:70-74 | Acts only on a present child: removes its first occurrence, deactivates it, and despawns it if poolable. |
| CompositeWidgets.CompositeWidget.Bind | Runtime/MVPFramework/Widgets/WidgetBase.cs:23-32 | `Bind` dispatching to the composite's `Activate`. |
| CompositeWidgets.CompositeWidget.Rebind | Runtime/MVPFramework/Widgets/WidgetBase.cs:108-113 | `Rebind` dispatching to the composite's `Deactivate` and `Activate`: the old children are deactivated, their poolable ones despawned (pools and hooks), and the list cleared before the new activation. View, props, lifecycle mode and the instantiation counter are unchanged. |
| Presenters.ActivationsExactly | Runtime/MVPFramework/Presenter/PresenterBase.cs:135-144 | Exactly the listed widgets not in manual mode are activated, and nothing else is done. |
| Presenters.OwnedDeactivationsExactly | Runtime/MVPFramework/Presenter/PresenterBase.cs:148-154 | Every owned widget gets the hook, exactly those not in manual mode are deactivated, and nothing else is done. |
| Presenters.DespawnsExactly | Runtime/MVPFramework/Presenter/PresenterBase.cs:156-162 | One despawn per pooled widget, at its position in list order; every pooled widget and only those is despawned, and nothing else (no `Deactivate`) happens. |
| Presenters.NeutralBalanced | Runtime/MVPFramework/Presenter/PresenterBase.cs:118-133 | Widget creation and per-widget calls keep the lifecycle bookkeeping. |
| Presenters.ActivateBalanced | Runtime/MVPFramework/Presenter/PresenterBase.cs:49-81 | `CreateWidgets` runs only from `NotInitialized`, and events are subscribed only from `NotInitialized` or `Inactive`. So two consecutive `Activate`s create widgets once, and any activation leads to a balanced `Active`. |
| Presenters.DeactivateBalanced | Runtime/MVPFramework/Presenter/PresenterBase.cs:93-104 | Deactivating from `Active` or `Hidden` closes the one open subscription and creates nothing. |
| Presenters.HideBalanced | Runtime/MVPFramework/Presenter/PresenterBase.cs:106-112 | `Hide` keeps the subscription and the widgets. |
| Presenters.CallBalanced | Runtime/MVPFramework/Presenter/PresenterBase.cs:49-195 | Every presenter call keeps the bookkeeping of the trace. |
| Presenters.RemoveWidgetCallBalanced | Runtime/MVPFramework/Presenter/PresenterBase.cs:172-182 | Removing or despawning a listed widget keeps the trace balanced; an unlisted one leaves the trace as it was. |
| Presenters.SetupCallBalanced | Runtime/MVPFramework/Presenter/PresenterBase.cs:39-47 | Storing the view or the open params keeps the trace balanced. |
| Presenters.RunBalanced | Runtime/MVPFramework/Presenter/PresenterBase.cs:49-112 | For any sequence of calls on a new presenter: widgets are created exactly once if it was ever activated, and events are subscribed exactly while it is `Active` or `Hidden`. |
| Presenters.PresenterBase.constructor | Runtime/MVPFramework/Presenter/PresenterBase.cs:28-33 | Starts `NotInitialized`, with no view, params or widgets. |
| Presenters.PresenterBase.AddView | Runtime/MVPFramework/Presenter/PresenterBase.cs:39-42 | Stores the view only; `Made` ties it to `After`, which leaves the trace as it was. |
| Presenters.PresenterBase.AddOpenParams | Runtime/MVPFramework/Presenter/PresenterBase.cs:44-47 | Stores the open params only; `Made` ties it to `After`, which leaves the trace as it was. |
| Presenters.PresenterBase.Activate | Runtime/MVPFramework/Presenter/PresenterBase.cs:49-81 | Ends `Active` with `View.Show` last, also without a view, where that last call is on `null`. From `NotInitialized` the full sequence runs once, in order: model activation, customisation, `CreateWidgets`, subscription, hooks, widget activation. From `Inactive` the same without `CreateWidgets`. From `Hidden` only the show hooks; from `Active` only the re-show. |
| Presenters.PresenterBase.ActivateWidgets | Runtime/MVPFramework/Presenter/PresenterBase.cs:135-144 | Non-manual owned widgets, then non-manual pooled widgets, each in insertion order. |
| Presenters.PresenterBase.Deactivate | Runtime/MVPFramework/Presenter/PresenterBase.cs:93-104 | A no-op in `NotInitialized` and `Inactive`. Otherwise: model deactivation, `OnDeactivate`, unsubscription, the widgets' deactivation, `Inactive`, and `View.Hide` last, also on a `null` view. |
| Presenters.PresenterBase.DeactivateWidgets | Runtime/MVPFramework/Presenter/PresenterBase.cs:146-170 | Owned non-manual widgets are deactivated and stay listed. Every pooled widget is despawned without `Deactivate`, in order, and the pooled list ends empty. |
| Presenters.PresenterBase.DeactivateOwnedWidgets | Runtime/MVPFramework/Presenter/PresenterBase.cs:148-154 | The owned-widgets loop: a hook on each, a `Deactivate` on the non-manual ones, and no list changes. |
| Presenters.PresenterBase.DespawnPooledWidgets | Runtime/MVPFramework/Presenter/PresenterBase.cs:156-162 | The pooled-widgets loop: each is despawned through the factory, in order. |
| Presenters.PresenterBase.DropPooledWidgets | Runtime/MVPFramework/Presenter/PresenterBase.cs:164-169 | Removing every collected widget empties the pooled list. |
| Presenters.PresenterBase.Hide | Runtime/MVPFramework/Presenter/PresenterBase.cs:106-112 | Only from `Active`: `OnHide`, then `Hidden`. Widgets and subscriptions are untouched; otherwise nothing changes. |
| Presenters.PresenterBase.CreateWidget | Runtime/MVPFramework/Presenter/PresenterBase.cs:118-125 | A new widget is appended to the owned widgets, its lifecycle mode and props are set, and the state is unchanged. |
| Presenters.PresenterBase.SpawnWidget | Runtime/MVPFramework/Presenter/PresenterBase.cs:127-133 | A widget is spawned from the pool, appended to the pooled widgets, and its props are set. |
| Presenters.PresenterBase.DeactivateWidget | Runtime/MVPFramework/Presenter/PresenterBase.cs:184-195 | The hook, `Deactivate` unless in manual mode, and a despawn exactly when the widget is poolable. |
| Presenters.PresenterBase.RemoveWidget | Runtime/MVPFramework/Presenter/PresenterBase.cs:172-176 | Acts only on a listed owned widget: removes its first occurrence and deactivates it, despawning it (pool and `OnDespawned` hook) when it is poolable. Otherwise pools and hooks are untouched; the instantiation counter never changes. `Made` ties the step to `After`. |
| Presenters.PresenterBase.DespawnWidget | Runtime/MVPFramework/Presenter/PresenterBase.cs:178-182 | Acts only on a listed pooled widget: removes its first occurrence, deactivates it and despawns it, with its `OnDespawned` hook. Otherwise pools and hooks are untouched; the instantiation counter never changes. `Made` ties the step to `After`. |

## Left out

- Handler execution. Handlers are never run. Each registration is a value in a listener list, and each event invocation is a log entry. So re-entrant handlers, exceptions thrown by handlers, and the order in which `UnityEvent` calls its listeners are not modelled.
- `UnityEvent` and the signal hub are external libraries. Both are modelled by one rule: `RemoveListener` drops every registration of the handler. The hub's own removal rule is assumed to match `UnityEvent`'s.
- Delegate identity, boxing and runtime type tests become explicit values. Handlers are `HandlerId`s, events are `SourceId`s, and generic type arguments and runtime widget types are `TypeTag`s. Implementing `IPoolableWidget` is a flag on `WidgetRef`.
- The views (`View`, `ScreenView`, `WidgetView`) are opaque identities. Their `Activate`, `Deactivate`, `Show` and `Hide` are trace entries, and `IsAlive()` is a parameter of `GetView`.
- Zenject's `DiContainer.Instantiate` is a counter of handed-out identities. `StaticMemoryPool` becomes the free lists above. The temporary `ListPool` buffers are not modelled.
- ReactiveLists.ReactiveList.Get: requires an index within the list. `List<T>` throws `ArgumentOutOfRangeException` otherwise, which the model does not express.
- ReactiveLists.ReactiveList.Set: requires an index within the list, for the same reason.
- ReactiveProperties.ReactiveProperty.Select and ReactiveProperties.ReactiveProperty.Where: the registered handler is a listener value naming the derived property only. It carries neither the selector nor the predicate, so a `Where` registration and a `Select` registration look alike. What that handler does when invoked is `ReactiveProperties.ReactiveProperty.Relay`, run on the derived property with the same selector and predicate.
- ReactiveLists.ReactiveList.FindAll: returns the matches as a new sequence. The C# method clears and refills the caller's `List<T>` buffer in place, so aliasing between that buffer and the list itself is not modelled.
- ReactiveProperties.ReactiveProperty.SetValue: the same-value gate uses Dafny's value equality `==`. The C# setter uses `EqualityComparer<T>.Default` (ReactiveProperty.cs:10, 56), so a custom `Equals` override on `T` is not modelled.
- `ReactiveList.Sort` is not modelled: it delegates to .NET's unstable sort with an opaque comparer.
- The `SubscribeEvent`/`SubscribeSignal` forwarding helpers of `WidgetBase` and `PresenterBase`, and their `SubscribeEvents`/`UnsubscribeEvents` hooks, are single trace entries. They are not linked to the `Store` module.
- `CreateWidgets`, `OnActivate` and the other virtual hooks have no modelled effect beyond their trace entry. Children created inside `CreateWidgets` are not modelled.
- The children's `IsManualLifecycleMode` is a `manual` set given to the presenter methods that read it. A child's own `Activate`/`Deactivate` and `SetProps` are trace entries.
- `CompositeWidget` holds a `WidgetBase` (composition) instead of inheriting from it. Its steps go into that base widget's trace.
- `PresenterBase.AddView`: the failure of the cast to `TView` is not modelled.
- Null delegates, null predicates, a null selector and a null widget are not modelled. Only the null checks the code makes (a null source in `Add`, a null value in `UpdateResult`, a null view in `WidgetBase`) are, and a `null` `View` in `PresenterBase` and a `null` result of `CreateData`, which the code does not check.
- Exceptions are not modelled as control flow. `View.Show()` or `View.Hide()` on a `null` view throws after every other step of `PresenterBase.Activate`/`Deactivate`; the model records that call as `ViewShow(None)`/`ViewHide(None)`, the last step, and the state change before it stays.
- `ConditionalCompositeReactiveProperty` is generic per source in C#. The model uses one element type `V` for all sources, with `Option<V>` standing for a nullable value.
- ConditionalComposites.ConditionalCompositeReactiveProperty.Remove: requires the source to be registered. The code looks the record up and then dereferences it, so an absent source throws a null-reference exception rather than being ignored.
- Registrations are values, so two owners that register the same handler on the same event hold equal registrations. `Store.EventsStore.Unsubscribe` of one of them detaches every equal registration, the other owner's included (`Listeners.DetachAllKeepsOthers` keeps only registrations that are not equal to one of the owner's). This follows `UnityEvent.RemoveListener`, which drops every registration of the handler.
- Store.EventsStore.Unsubscribe: requires every handle of the owner to be bound. The store's invariant only covers its registries; it does not follow the handles into their pools.
- Store.EventsStore.Unsubscribe: does not re-establish the handle pools' well-formedness. The pools' own `Valid` is kept by `Registries.EventsSubscriber.OnDespawned` under its stated condition.
- Store.EventsStore.SubscribeEvent: requires the event-handle pool to be well formed, which the store's invariant does not carry.
- Store.EventsStore.SubscribeSignal: requires the signal-handle pool to be well formed, for the same reason.
- Presenters.PresenterBase.Activate: balance of the trace is not part of the class invariant. It is proved for every call sequence by `Presenters.RunBalanced`, and each method is tied to that call model by its `Made` postcondition.
- Presenters.PresenterBase.Deactivate: balance of the trace is proved through `Presenters.RunBalanced`, not carried by the class invariant.
- Models.ModelBase.OnShow and Models.ModelBase.Deactivate: the base implementations do nothing; what subclasses do there is not modelled.
- Integer widths do not matter in this core: there are no counters or arithmetic that could wrap.
