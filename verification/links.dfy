/**
 * The link lifecycle of the NATS invoker: `put_link` opens the single
 * listening subscription, `delete_link` does nothing and `shutdown` drops
 * every listener handle. The broker's answer to a subscription request is an
 * oracle (`Broker`) supplied with each event, so the registry can be
 * followed one lifecycle call after another.
 */
module Links {
  import opened Wrappers
  import opened Invoke

  /** The part of a link definition the invoker reads. */
  datatype LinkDefinition = LinkDefinition(
    actorId: string,
    providerId: string,
    linkName: string,
    contractId: string)

  /** The two broker calls a subscription can make. */
  datatype BrokerRequest =
    | PlainSubscribe(subject: string)
    | QueueSubscribe(subject: string, queue: string)

  /** The broker's answer: a subscriber stream, or `None` when it rejects the request. */
  type Broker = BrokerRequest -> Option<nat>

  /** A running listener task: the link it was opened for and the subscription it reads. */
  datatype Listener = Listener(linkDef: LinkDefinition, request: BrokerRequest, stream: nat)

  /** The provider: its host-provided id and its registry of listener handles. */
  datatype Invoker = Invoker(id: string, subHandles: seq<Listener>)

  /** The one subject every link listens on. */
  const ListenSubject: string := "testing"

  /** A provider as built from host data: its id, and no listener yet. */
  function FromHostData(providerKey: string): (s: Invoker)
    ensures s.id == providerKey
    ensures |s.subHandles| == 0
  {
    Invoker(providerKey, [])
  }

  /** The broker call for a subject: a queue subscription exactly when a queue group is given. */
  function SubscribeRequest(subject: string, queue: Option<string>): (r: BrokerRequest)
    ensures r.subject == subject
    ensures r.QueueSubscribe? <==> queue.Some?
    ensures r.QueueSubscribe? ==> r.queue == queue.value
  {
    match queue
    case Some(q) => QueueSubscribe(subject, q)
    case None => PlainSubscribe(subject)
  }

  /** Subscribe and, when the broker accepts, start a listener for the link definition. */
  function Subscribe(broker: Broker, ld: LinkDefinition, subject: string, queue: Option<string>)
    : (r: Option<Listener>)
    ensures r.Some? <==> broker(SubscribeRequest(subject, queue)).Some?
    ensures r.Some? ==>
              && r.value.linkDef == ld
              && r.value.request == SubscribeRequest(subject, queue)
              && r.value.stream == broker(SubscribeRequest(subject, queue)).value
  {
    var request := SubscribeRequest(subject, queue);
    match broker(request)
    case None => None
    case Some(stream) => Some(Listener(ld, request, stream))
  }

  /** The new state and whether the link is accepted. */
  datatype PutLinkResult = PutLinkResult(state: Invoker, accepted: bool)

  /**
   * A link is put: with a listener already registered the call accepts and
   * changes nothing; otherwise it subscribes to `testing` without a queue
   * group, rejects the link if that fails and registers the listener if not.
   */
  function PutLink(s: Invoker, ld: LinkDefinition, broker: Broker): (r: PutLinkResult)
    ensures r.state.id == s.id
    ensures |s.subHandles| > 0 ==> r == PutLinkResult(s, true)
    ensures |s.subHandles| == 0 && broker(PlainSubscribe(ListenSubject)).None?
            ==> r == PutLinkResult(s, false)
    ensures |s.subHandles| == 0 && broker(PlainSubscribe(ListenSubject)).Some?
            ==> && r.accepted
                && |r.state.subHandles| == 1
                && r.state.subHandles[0].linkDef == ld
                && r.state.subHandles[0].request == PlainSubscribe(ListenSubject)
  {
    if |s.subHandles| > 0 then PutLinkResult(s, true)
    else
      match Subscribe(broker, ld, ListenSubject, None)
      case None => PutLinkResult(s, false)
      case Some(handle) => PutLinkResult(s.(subHandles := s.subHandles + [handle]), true)
  }

  /** A link is removed: nothing is torn down. */
  function DeleteLink(s: Invoker, actorId: string): (r: Invoker)
    ensures r.id == s.id && r.subHandles == s.subHandles
  {
    s
  }

  /** Shutdown drops every listener handle. */
  function Shutdown(s: Invoker): (r: Invoker)
    ensures r.id == s.id
    ensures |r.subHandles| == 0
  {
    s.(subHandles := [])
  }

  /** One call on the control surface, with the broker's answer for a `put_link`. */
  datatype LinkEvent =
    | PutLinkEvent(ld: LinkDefinition, broker: Broker)
    | DeleteLinkEvent(actorId: string)
    | ShutdownEvent

  function Apply(s: Invoker, e: LinkEvent): Invoker
  {
    match e
    case PutLinkEvent(ld, broker) => PutLink(s, ld, broker).state
    case DeleteLinkEvent(actorId) => DeleteLink(s, actorId)
    case ShutdownEvent => Shutdown(s)
  }

  /** Lifecycle calls applied one after another; the registry never grows past one handle. */
  function Run(s: Invoker, events: seq<LinkEvent>): (r: Invoker)
    ensures r.id == s.id
    ensures |s.subHandles| <= 1 ==> |r.subHandles| <= 1
    ensures |events| > 0 && events[|events| - 1].ShutdownEvent? ==> |r.subHandles| == 0
    decreases |events|
  {
    if events == [] then s else Run(Apply(s, events[0]), events[1..])
  }

  /** From a freshly built provider, every sequence of lifecycle calls keeps at most one handle. */
  lemma AtMostOneHandle(providerKey: string, events: seq<LinkEvent>)
    ensures |Run(FromHostData(providerKey), events).subHandles| <= 1
  {
  }

  /**
   * Once a listener is registered, puts and deletes leave the registry as it
   * is until a shutdown: the first accepted link keeps the only listener.
   */
  lemma {:induction false} ListenerKeptUntilShutdown(s: Invoker, events: seq<LinkEvent>)
    requires |s.subHandles| > 0
    requires forall i :: 0 <= i < |events| ==> !events[i].ShutdownEvent?
    ensures Run(s, events) == s
    decreases |events|
  {
    if events != [] {
      assert Apply(s, events[0]) == s;
      ListenerKeptUntilShutdown(s, events[1..]);
    }
  }

  /** A second `put_link` after an accepted one accepts again and changes nothing. */
  lemma PutLinkIdempotent(s: Invoker, ld1: LinkDefinition, b1: Broker, ld2: LinkDefinition, b2: Broker)
    requires PutLink(s, ld1, b1).accepted
    ensures var r1 := PutLink(s, ld1, b1);
            PutLink(r1.state, ld2, b2) == PutLinkResult(r1.state, true)
  {
  }

  /** After a shutdown, `put_link` behaves as on a freshly built provider. */
  lemma PutLinkAfterShutdown(s: Invoker, ld: LinkDefinition, broker: Broker)
    ensures PutLink(Shutdown(s), ld, broker) == PutLink(FromHostData(s.id), ld, broker)
  {
  }

  /** Two puts with different link definitions on an active provider: still one handle. */
  lemma TwoPutsWhileActive(s: Invoker, ld1: LinkDefinition, b1: Broker, ld2: LinkDefinition, b2: Broker)
    requires |s.subHandles| == 1
    ensures var r := Run(s, [PutLinkEvent(ld1, b1), PutLinkEvent(ld2, b2)]);
            |r.subHandles| == 1 && r.subHandles == s.subHandles
  {
    ListenerKeptUntilShutdown(s, [PutLinkEvent(ld1, b1), PutLinkEvent(ld2, b2)]);
  }

  /**
   * A message received by a listener is handled on behalf of the provider id
   * of the link definition the listener was opened for.
   */
  function OnNatsMessage(l: Listener, json: JsonDecoder, b64: Base64Decoder, body: Bytes, send: Dispatcher)
    : (trace: seq<Event>)
    ensures forall i :: 0 <= i < |Sends(trace)| ==> Sends(trace)[i].origin.publicKey == l.linkDef.providerId
    ensures !WellFormed(json, b64, body) ==> Sends(trace) == []
    ensures WellFormed(json, b64, body) ==> Sends(trace) == [Translate(json, b64, l.linkDef.providerId, body).value]
  {
    HandleInvokeMsg(json, b64, l.linkDef.providerId, body, send)
  }

  /** A message delivered through the messaging interface is handled on behalf of the provider's own id. */
  function HandleMessage(s: Invoker, json: JsonDecoder, b64: Base64Decoder, body: Bytes, send: Dispatcher)
    : (trace: seq<Event>)
    ensures forall i :: 0 <= i < |Sends(trace)| ==> Sends(trace)[i].origin.publicKey == s.id
    ensures !WellFormed(json, b64, body) ==> Sends(trace) == []
    ensures WellFormed(json, b64, body) ==> Sends(trace) == [Translate(json, b64, s.id, body).value]
  {
    HandleInvokeMsg(json, b64, s.id, body, send)
  }

  /**
   * Both entry points handle a message the same way: delivery through the
   * messaging interface equals delivery to a listener whose link definition
   * names the provider's own id.
   */
  lemma HandleMessageMatchesListener(s: Invoker, l: Listener, json: JsonDecoder, b64: Base64Decoder,
                                     body: Bytes, send: Dispatcher)
    requires l.linkDef.providerId == s.id
    ensures HandleMessage(s, json, b64, body, send) == OnNatsMessage(l, json, b64, body, send)
  {
  }

  /**
   * The origin's link name and contract id come from the message, not from the
   * link definition: two listeners whose link definitions agree only on the
   * provider id dispatch the same invocations.
   */
  lemma OriginIgnoresLinkDefinition(l1: Listener, l2: Listener, json: JsonDecoder, b64: Base64Decoder,
                                    body: Bytes, send: Dispatcher)
    requires l1.linkDef.providerId == l2.linkDef.providerId
    ensures OnNatsMessage(l1, json, b64, body, send) == OnNatsMessage(l2, json, b64, body, send)
  {
  }

  /**
   * The listener task a lifecycle call starts, if any: only an accepted
   * `put_link` on a provider without a handle starts one, a plain subscriber
   * of `testing`.
   */
  function Started(s: Invoker, e: LinkEvent): (r: Option<Listener>)
    ensures r.Some? <==> |s.subHandles| == 0 && |Apply(s, e).subHandles| == 1
    ensures r.Some? ==> Apply(s, e).subHandles == [r.value]
    ensures r.Some? ==> r.value.request == PlainSubscribe(ListenSubject)
  {
    match e
    case PutLinkEvent(ld, broker) =>
      if |s.subHandles| == 0 then Subscribe(broker, ld, ListenSubject, None) else None
    case _ => None
  }

  /**
   * Every listener task started along a run, in order. Clearing the registry
   * drops the handles but does not abort the tasks they name, so none of
   * these tasks is stopped by a shutdown.
   */
  function Spawned(s: Invoker, events: seq<LinkEvent>): (r: seq<Listener>)
    ensures |r| <= |events|
    ensures forall i :: 0 <= i < |r| ==> r[i].request == PlainSubscribe(ListenSubject)
    decreases |events|
  {
    if events == [] then []
    else
      var started := match Started(s, events[0])
                     case Some(l) => [l]
                     case None => [];
      started + Spawned(Apply(s, events[0]), events[1..])
  }

  /**
   * Listener tasks are only ever added: those started by a longer run are the
   * ones started by its first part, followed by those started afterwards,
   * whatever the later calls are, shutdowns included.
   */
  lemma {:induction false} SpawnedAppend(s: Invoker, a: seq<LinkEvent>, b: seq<LinkEvent>)
    ensures Spawned(s, a + b) == Spawned(s, a) + Spawned(Run(s, a), b)
    decreases |a|
  {
    if a == [] {
      assert a + b == b;
    } else {
      assert (a + b)[0] == a[0];
      assert (a + b)[1..] == a[1..] + b;
      SpawnedAppend(Apply(s, a[0]), a[1..], b);
    }
  }

  /**
   * Every handle in the registry after a run was either there at its start
   * or belongs to a listener task started during it.
   */
  lemma {:induction false} RegisteredWereSpawned(s: Invoker, events: seq<LinkEvent>)
    ensures forall l :: l in Run(s, events).subHandles ==> l in s.subHandles || l in Spawned(s, events)
    decreases |events|
  {
    if events != [] {
      RegisteredWereSpawned(Apply(s, events[0]), events[1..]);
    }
  }

  /**
   * One message published on `testing` reaches each of the given listeners
   * (plain subscribers all receive every message), and each handles it on
   * its own, on behalf of the provider id of its own link definition.
   */
  function DeliverAll(listeners: seq<Listener>, json: JsonDecoder, b64: Base64Decoder, body: Bytes,
                      send: Dispatcher): (trace: seq<Event>)
    ensures WellFormed(json, b64, body) ==> |Sends(trace)| == |listeners|
    ensures WellFormed(json, b64, body) ==>
              Sends(trace) == seq(|listeners|, i requires 0 <= i < |listeners| =>
                                    Translate(json, b64, listeners[i].linkDef.providerId, body).value)
    ensures !WellFormed(json, b64, body) ==> Sends(trace) == []
    decreases |listeners|
  {
    if listeners == [] then []
    else
      var head := OnNatsMessage(listeners[0], json, b64, body, send);
      var tail := DeliverAll(listeners[1..], json, b64, body, send);
      SendsAppend(head, tail);
      head + tail
  }

  /**
   * As written: after `put_link`, `shutdown`, `put_link` with both
   * subscriptions accepted, the registry holds one handle but two listener
   * tasks read `testing`, so a well-formed message is dispatched twice.
   */
  lemma ShutdownLeavesListenerRunning(providerKey: string, ld1: LinkDefinition, b1: Broker,
                                      ld2: LinkDefinition, b2: Broker, json: JsonDecoder,
                                      b64: Base64Decoder, body: Bytes, send: Dispatcher)
    requires b1(PlainSubscribe(ListenSubject)).Some? && b2(PlainSubscribe(ListenSubject)).Some?
    requires WellFormed(json, b64, body)
    ensures var start := FromHostData(providerKey);
            var events := [PutLinkEvent(ld1, b1), ShutdownEvent, PutLinkEvent(ld2, b2)];
            && |Run(start, events).subHandles| == 1
            && |Spawned(start, events)| == 2
            && |Sends(DeliverAll(Spawned(start, events), json, b64, body, send))| == 2
            && Sends(DeliverAll(Spawned(start, events), json, b64, body, send))
               == [Translate(json, b64, ld1.providerId, body).value, Translate(json, b64, ld2.providerId, body).value]
  {
    var start := FromHostData(providerKey);
    var events := [PutLinkEvent(ld1, b1), ShutdownEvent, PutLinkEvent(ld2, b2)];
    var s1 := Apply(start, events[0]);
    var s2 := Apply(s1, events[1]);
    var s3 := Apply(s2, events[2]);
    assert events[1..][1..] == [events[2]] && [events[2]][1..] == [];
    assert Started(start, events[0]).Some? && Started(s1, events[1]).None? && Started(s2, events[2]).Some?;
    assert |Spawned(s2, events[1..][1..])| == 1;
    assert |Spawned(s1, events[1..])| == 1;
    assert Run(start, events) == Run(s2, events[1..][1..]) == s3;
  }

  /**
   * As written, without any later `put_link`: after an accepted `put_link`
   * and a `shutdown`, the registry is empty, yet the listener task still
   * reads `testing` and a well-formed message is dispatched once.
   */
  lemma ShutdownStillDispatches(providerKey: string, ld: LinkDefinition, b: Broker, json: JsonDecoder,
                                b64: Base64Decoder, body: Bytes, send: Dispatcher)
    requires b(PlainSubscribe(ListenSubject)).Some?
    requires WellFormed(json, b64, body)
    ensures var start := FromHostData(providerKey);
            var events := [PutLinkEvent(ld, b), ShutdownEvent];
            && |Run(start, events).subHandles| == 0
            && |Sends(DeliverAll(Spawned(start, events), json, b64, body, send))| == 1
            && Sends(DeliverAll(Spawned(start, events), json, b64, body, send))
               == [Translate(json, b64, ld.providerId, body).value]
  {
    var start := FromHostData(providerKey);
    var events := [PutLinkEvent(ld, b), ShutdownEvent];
    var s1 := Apply(start, events[0]);
    assert events[1..] == [ShutdownEvent] && [ShutdownEvent][1..] == [];
    assert Started(start, events[0]).Some? && Started(s1, events[1]).None?;
    assert |Spawned(s1, events[1..])| == 0;
  }

  /**
   * Corrected: when shutdown also stops the tasks whose handles it drops, the
   * live listeners are exactly the registry's handles, and from a freshly
   * built provider every message is dispatched at most once, and not at all
   * once the last call was a shutdown.
   */
  lemma DispatchedAtMostOnceWhenShutdownStops(providerKey: string, events: seq<LinkEvent>,
                                              json: JsonDecoder, b64: Base64Decoder, body: Bytes,
                                              send: Dispatcher)
    ensures |Sends(DeliverAll(Run(FromHostData(providerKey), events).subHandles, json, b64, body, send))| <= 1
    ensures |events| > 0 && events[|events| - 1].ShutdownEvent? ==>
              Sends(DeliverAll(Run(FromHostData(providerKey), events).subHandles, json, b64, body, send)) == []
  {
    AtMostOneHandle(providerKey, events);
  }
}
