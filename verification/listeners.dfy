/**
 * Listener lists of the notification sources the subscription engine attaches to:
 * every `UnityEvent` instance and the signal hub's list for each signal type.
 * `AddListener` appends a handler; `RemoveListener` drops every registration of that
 * handler and keeps the others in order (the runtime-call list of a `UnityEvent`
 * removes all calls equal to the delegate). Handlers are compared by identity, so a
 * handler is a plain id here.
 */
module Listeners {
  import opened Seqs

  /** Identity of a handler delegate. */
  type HandlerId = nat
  /** Identity of a `UnityEvent` instance. */
  type SourceId = nat
  /** A closed generic type argument, as a tag. */
  type TypeTag = nat

  /** Where a handler is registered: a `UnityEvent`, or the hub's list for signals of one type. */
  datatype Endpoint = Event(source: SourceId) | Signal(signalType: TypeTag)

  /** One registration made by a subscription handle. */
  datatype Binding = Binding(endpoint: Endpoint, handler: HandlerId)

  /** The listeners of `e`; an endpoint nobody has touched has none. */
  function ListenersOf(m: map<Endpoint, seq<HandlerId>>, e: Endpoint): seq<HandlerId> {
    if e in m then m[e] else []
  }

  /** `AddListener` of a binding. */
  function Attach(m: map<Endpoint, seq<HandlerId>>, b: Binding): (r: map<Endpoint, seq<HandlerId>>)
    ensures ListenersOf(r, b.endpoint) == ListenersOf(m, b.endpoint) + [b.handler]
    ensures forall e :: e != b.endpoint ==> ListenersOf(r, e) == ListenersOf(m, e)
  {
    m[b.endpoint := ListenersOf(m, b.endpoint) + [b.handler]]
  }

  /** `RemoveListener` of a binding. */
  function Detach(m: map<Endpoint, seq<HandlerId>>, b: Binding): (r: map<Endpoint, seq<HandlerId>>)
    ensures ListenersOf(r, b.endpoint) == Without(ListenersOf(m, b.endpoint), b.handler)
    ensures forall e :: e != b.endpoint ==> ListenersOf(r, e) == ListenersOf(m, e)
  {
    m[b.endpoint := Without(ListenersOf(m, b.endpoint), b.handler)]
  }

  /** Detaching a list of bindings in order. */
  function DetachAll(m: map<Endpoint, seq<HandlerId>>, bs: seq<Binding>): map<Endpoint, seq<HandlerId>>
  {
    if bs == [] then m else Detach(DetachAll(m, bs[..|bs| - 1]), bs[|bs| - 1])
  }

  /** Detaching the prefix of length `i + 1` extends the fold over the prefix of length `i` by one step. */
  lemma DetachAllPrefix(m: map<Endpoint, seq<HandlerId>>, bs: seq<Binding>, i: nat)
    requires i < |bs|
    ensures DetachAll(m, bs[..i + 1]) == Detach(DetachAll(m, bs[..i]), bs[i])
  {
    assert bs[..i + 1][..i] == bs[..i];
  }

  /** After detaching a list of bindings, no endpoint holds any of their handlers. */
  lemma {:induction false} DetachAllClears(m: map<Endpoint, seq<HandlerId>>, bs: seq<Binding>)
    ensures forall b :: b in bs ==> b.handler !in ListenersOf(DetachAll(m, bs), b.endpoint)
  {
    if bs != [] {
      var front, last := bs[..|bs| - 1], bs[|bs| - 1];
      DetachAllClears(m, front);
      var before := DetachAll(m, front);
      assert DetachAll(m, bs) == Detach(before, last);
      forall b | b in bs
        ensures b.handler !in ListenersOf(DetachAll(m, bs), b.endpoint)
      {
        if b != last {
          assert b in front by { assert bs == front + [last]; }
          if b.endpoint == last.endpoint && b.handler != last.handler {
            var xs: seq<HandlerId> := ListenersOf(before, b.endpoint);
            assert b.handler !in xs;
            assert multiset(xs)[b.handler] == 0;
          }
        }
      }
    }
  }

  /** A registration that matches none of the detached bindings keeps its multiplicity. */
  lemma {:induction false} DetachAllKeepsOthers(m: map<Endpoint, seq<HandlerId>>, bs: seq<Binding>, e: Endpoint, x: HandlerId)
    requires Binding(e, x) !in bs
    ensures multiset(ListenersOf(DetachAll(m, bs), e))[x] == multiset(ListenersOf(m, e))[x]
  {
    if bs != [] {
      DetachAllKeepsOthers(m, bs[..|bs| - 1], e, x);
    }
  }

  /** Endpoints that none of the bindings name are untouched. */
  lemma {:induction false} DetachAllElsewhere(m: map<Endpoint, seq<HandlerId>>, bs: seq<Binding>, e: Endpoint)
    requires forall b :: b in bs ==> b.endpoint != e
    ensures ListenersOf(DetachAll(m, bs), e) == ListenersOf(m, e)
  {
    if bs != [] {
      DetachAllElsewhere(m, bs[..|bs| - 1], e);
    }
  }

  /** Detaching the same bindings a second time changes nothing. */
  lemma {:induction false} DetachAllIdempotent(m: map<Endpoint, seq<HandlerId>>, bs: seq<Binding>)
    ensures forall e :: ListenersOf(DetachAll(DetachAll(m, bs), bs), e) == ListenersOf(DetachAll(m, bs), e)
  {
    DetachAllClears(m, bs);
    DetachAllAbsent(DetachAll(m, bs), bs);
  }

  /** Detaching bindings whose handlers are already gone changes no list. */
  lemma {:induction false} DetachAllAbsent(m: map<Endpoint, seq<HandlerId>>, bs: seq<Binding>)
    requires forall b :: b in bs ==> b.handler !in ListenersOf(m, b.endpoint)
    ensures forall e :: ListenersOf(DetachAll(m, bs), e) == ListenersOf(m, e)
  {
    if bs != [] {
      DetachAllAbsent(m, bs[..|bs| - 1]);
    }
  }

  /** Unsubscribing undoes subscribing, when the handler was not registered there already. */
  lemma AttachThenDetach(m: map<Endpoint, seq<HandlerId>>, b: Binding)
    requires b.handler !in ListenersOf(m, b.endpoint)
    ensures forall e :: ListenersOf(Detach(Attach(m, b), b), e) == ListenersOf(m, e)
  {
    WithoutAppend(ListenersOf(m, b.endpoint), [b.handler], b.handler);
  }

  /**
   * The listener lists of every `UnityEvent` and of the signal hub, as one mutable table.
   * The subscription handles are the only writers modelled here.
   */
  class ListenerTable {
    var listeners: map<Endpoint, seq<HandlerId>>

    constructor ()
      ensures listeners == map[]
    {
      listeners := map[];
    }

    method AddListener(b: Binding)
      modifies this
      ensures listeners == Attach(old(listeners), b)
    {
      listeners := listeners[b.endpoint := ListenersOf(listeners, b.endpoint) + [b.handler]];
    }

    method RemoveListener(b: Binding)
      modifies this
      ensures listeners == Detach(old(listeners), b)
    {
      listeners := listeners[b.endpoint := Without(ListenersOf(listeners, b.endpoint), b.handler)];
    }
  }
}
