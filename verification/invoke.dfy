/**
 * The message-to-invocation path of the NATS invoker: a raw message body is
 * decoded into an `InvokeMessage`, its base64 payload is decoded, and only
 * when both succeed is exactly one RPC `send` issued. The JSON and base64
 * libraries are parameters (`JsonDecoder`, `Base64Decoder`), and so is the
 * RPC client's answer (`Dispatcher`).
 */
module Invoke {
  import opened Wrappers

  newtype byte = x: int | 0 <= x < 256
  type Bytes = seq<byte>

  /** The wire envelope carried in a broker message body. */
  datatype InvokeMessage = InvokeMessage(
    actorId: string,
    linkName: string,
    contractId: string,
    operation: string,
    payloadB64: string)

  /** An addressable identity on the invocation transport. */
  datatype Entity = Entity(publicKey: string, linkName: string, contractId: string)

  /** The arguments of one `send(origin, target, operation, payload)`. */
  datatype Invocation = Invocation(origin: Entity, target: Entity, operation: string, payload: Bytes)

  /** Why a message body never reaches the RPC client. */
  datatype DecodeError = MalformedEnvelope | MalformedPayload(payloadB64: string)

  /** Deserialisation of a body into the envelope; `None` when it fails. */
  type JsonDecoder = Bytes -> Option<InvokeMessage>

  /** Decoding with the padded standard base64 alphabet; `None` when it fails. */
  type Base64Decoder = string -> Option<Bytes>

  /** What the RPC client answers to a send; the response itself is only logged. */
  datatype SendOutcome = Responded | SendFailed

  type Dispatcher = Invocation -> SendOutcome

  /** What handling one message does, in order: log lines and RPC sends. */
  datatype Event =
    | DeserializeFailed
    | PayloadDecodeFailed(payloadB64: string)
    | Sent(invocation: Invocation)
    | ResponseReceived
    | InvocationFailed

  /**
   * `inv` is the invocation due for message `m` with decoded payload `payload`,
   * sent on behalf of `providerId`: the origin takes its link name and contract
   * id from the message, the target is the message's actor with empty link
   * name and contract id.
   */
  predicate AddressedFrom(providerId: string, m: InvokeMessage, payload: Bytes, inv: Invocation)
  {
    && inv.origin.publicKey == providerId
    && inv.origin.linkName == m.linkName
    && inv.origin.contractId == m.contractId
    && inv.target.publicKey == m.actorId
    && inv.target.linkName == ""
    && inv.target.contractId == ""
    && inv.operation == m.operation
    && inv.payload == payload
  }

  /** A body is well formed when both the envelope and its payload decode. */
  predicate WellFormed(json: JsonDecoder, b64: Base64Decoder, body: Bytes)
  {
    json(body).Some? && b64(json(body).value.payloadB64).Some?
  }

  /** The two decoding steps of a message, and the invocation they lead to. */
  function Translate(json: JsonDecoder, b64: Base64Decoder, providerId: string, body: Bytes)
    : (r: Result<Invocation, DecodeError>)
    ensures r == Failure(MalformedEnvelope) <==> json(body).None?
    ensures r.Failure? && r.error.MalformedPayload?
            <==> json(body).Some? && b64(json(body).value.payloadB64).None?
    ensures r.Failure? && r.error.MalformedPayload? ==> r.error.payloadB64 == json(body).value.payloadB64
    ensures r.Success? <==> WellFormed(json, b64, body)
    ensures r.Success? ==>
              AddressedFrom(providerId, json(body).value, b64(json(body).value.payloadB64).value, r.value)
  {
    match json(body)
    case None => Failure(MalformedEnvelope)
    case Some(m) =>
      match b64(m.payloadB64)
      case None => Failure(MalformedPayload(m.payloadB64))
      case Some(payload) =>
        Success(Invocation(Entity(providerId, m.linkName, m.contractId), Entity(m.actorId, "", ""),
                           m.operation, payload))
  }

  /** The invocations a trace sends, in order. */
  function Sends(trace: seq<Event>): (r: seq<Invocation>)
    ensures |r| <= |trace|
    ensures forall i :: 0 <= i < |r| ==> Sent(r[i]) in trace
    ensures forall i :: 0 <= i < |trace| && trace[i].Sent? ==> trace[i].invocation in r
  {
    if trace == [] then []
    else (if trace[0].Sent? then [trace[0].invocation] else []) + Sends(trace[1..])
  }

  /** The log line that follows a send, depending on the RPC client's answer. */
  function SendLog(outcome: SendOutcome): (e: Event)
    ensures !e.Sent?
  {
    match outcome
    case Responded => ResponseReceived
    case SendFailed => InvocationFailed
  }

  /**
   * Handling one message body: a failed decoding step logs and returns; a
   * well-formed body leads to one send followed by one log line of its
   * outcome, and nothing after that (no retry, no reply).
   */
  function HandleInvokeMsg(json: JsonDecoder, b64: Base64Decoder, providerId: string, body: Bytes,
                           send: Dispatcher): (trace: seq<Event>)
    ensures json(body).None? ==> trace == [DeserializeFailed]
    ensures json(body).Some? && b64(json(body).value.payloadB64).None?
            ==> trace == [PayloadDecodeFailed(json(body).value.payloadB64)]
    ensures !WellFormed(json, b64, body) ==> Sends(trace) == []
    ensures WellFormed(json, b64, body) ==>
              && |trace| == 2
              && trace[0].Sent?
              && AddressedFrom(providerId, json(body).value, b64(json(body).value.payloadB64).value,
                               trace[0].invocation)
              && trace[1] == SendLog(send(trace[0].invocation))
              && Sends(trace) == [trace[0].invocation]
  {
    match Translate(json, b64, providerId, body)
    case Failure(MalformedEnvelope) => [DeserializeFailed]
    case Failure(MalformedPayload(s)) => [PayloadDecodeFailed(s)]
    case Success(inv) =>
      var trace := [Sent(inv), SendLog(send(inv))];
      assert trace[1..] == [SendLog(send(inv))];
      trace
  }

  /** Whether the send succeeds or fails changes only the final log line. */
  lemma SendOutcomeIrrelevant(json: JsonDecoder, b64: Base64Decoder, providerId: string, body: Bytes,
                              send1: Dispatcher, send2: Dispatcher)
    ensures var t1 := HandleInvokeMsg(json, b64, providerId, body, send1);
            var t2 := HandleInvokeMsg(json, b64, providerId, body, send2);
            |t1| == |t2| && Sends(t1) == Sends(t2) && t1[..|t1| - 1] == t2[..|t2| - 1]
  {
  }

  /** `Sends` distributes over concatenation of traces. */
  lemma {:induction false} SendsAppend(a: seq<Event>, b: seq<Event>)
    ensures Sends(a + b) == Sends(a) + Sends(b)
    decreases |a|
  {
    if a == [] {
      assert a + b == b;
    } else {
      assert (a + b)[1..] == a[1..] + b;
      SendsAppend(a[1..], b);
    }
  }

  /** The number of bodies that pass both decoding steps. */
  function CountWellFormed(json: JsonDecoder, b64: Base64Decoder, bodies: seq<Bytes>): nat
  {
    if bodies == [] then 0
    else (if WellFormed(json, b64, bodies[0]) then 1 else 0) + CountWellFormed(json, b64, bodies[1..])
  }

  /**
   * Reference for a stream of messages: the translation of each well-formed
   * body, in the order the bodies arrive.
   */
  function Dispatched(json: JsonDecoder, b64: Base64Decoder, providerId: string, bodies: seq<Bytes>)
    : (r: seq<Invocation>)
    ensures |r| == CountWellFormed(json, b64, bodies)
    ensures forall i :: 0 <= i < |r| ==>
              r[i].origin.publicKey == providerId && r[i].target.linkName == "" && r[i].target.contractId == ""
  {
    if bodies == [] then []
    else
      var head := match Translate(json, b64, providerId, bodies[0])
                  case Success(inv) => [inv]
                  case Failure(_) => [];
      head + Dispatched(json, b64, providerId, bodies[1..])
  }

  /**
   * The messages a listener receives, each handled on its own; the model
   * lists their effects one message after another. Every message leaves one
   * or two events.
   */
  function HandleAll(json: JsonDecoder, b64: Base64Decoder, providerId: string, bodies: seq<Bytes>,
                     send: Dispatcher): (trace: seq<Event>)
    ensures |bodies| <= |trace| <= 2 * |bodies|
  {
    if bodies == [] then []
    else HandleInvokeMsg(json, b64, providerId, bodies[0], send)
         + HandleAll(json, b64, providerId, bodies[1..], send)
  }

  /**
   * Over a stream of messages, the sends are exactly the translations of the
   * well-formed bodies, one per body and in arrival order; so there are as
   * many sends as well-formed bodies.
   */
  lemma {:induction false} HandleAllSends(json: JsonDecoder, b64: Base64Decoder, providerId: string,
                                          bodies: seq<Bytes>, send: Dispatcher)
    ensures Sends(HandleAll(json, b64, providerId, bodies, send)) == Dispatched(json, b64, providerId, bodies)
    ensures |Sends(HandleAll(json, b64, providerId, bodies, send))| == CountWellFormed(json, b64, bodies)
    decreases |bodies|
  {
    if bodies != [] {
      var head := HandleInvokeMsg(json, b64, providerId, bodies[0], send);
      var tail := HandleAll(json, b64, providerId, bodies[1..], send);
      SendsAppend(head, tail);
      HandleAllSends(json, b64, providerId, bodies[1..], send);
    }
  }

  /** A message whose envelope does not deserialise is never dispatched, whatever its payload. */
  lemma MalformedEnvelopeNotDispatched(json: JsonDecoder, b64: Base64Decoder, providerId: string,
                                       body: Bytes, send: Dispatcher)
    requires json(body).None?
    ensures Sends(HandleInvokeMsg(json, b64, providerId, body, send)) == []
    ensures Translate(json, b64, providerId, body) == Failure(MalformedEnvelope)
  {
  }

  /**
   * The envelope `{"actor_id":"A1","link_name":"L1","contract_id":"C1","operation":"op.test",
   * "payload_b64":"aGVsbG8="}`, where `aGVsbG8=` is the standard base64 of the bytes of `hello`,
   * dispatches `hello` to actor `A1`.
   */
  lemma ExampleDispatch(json: JsonDecoder, b64: Base64Decoder, providerId: string, body: Bytes,
                        send: Dispatcher)
    requires json(body) == Some(InvokeMessage("A1", "L1", "C1", "op.test", "aGVsbG8="))
    requires b64("aGVsbG8=") == Some([104, 101, 108, 108, 111])
    ensures Sends(HandleInvokeMsg(json, b64, providerId, body, send))
            == [Invocation(Entity(providerId, "L1", "C1"), Entity("A1", "", ""), "op.test",
                           [104, 101, 108, 108, 111])]
  {
  }

  /** The same envelope with payload `!!!not-base64!!!`, which is not base64: one log line, no dispatch. */
  lemma ExampleBadPayload(json: JsonDecoder, b64: Base64Decoder, providerId: string, body: Bytes,
                          send: Dispatcher)
    requires json(body) == Some(InvokeMessage("A1", "L1", "C1", "op.test", "!!!not-base64!!!"))
    requires b64("!!!not-base64!!!") == None
    ensures HandleInvokeMsg(json, b64, providerId, body, send) == [PayloadDecodeFailed("!!!not-base64!!!")]
  {
  }
}
