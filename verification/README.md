# NATS invoker provider — Dafny model

This project models the core of a wasmCloud capability provider. The provider listens on a NATS subject and turns each received message into an actor invocation over the wasmCloud RPC client. It has two pieces of sequential logic, one module each:

- `Invoke` (invoke.dfy) covers `handle_invoke_msg`. A message body is deserialised into an `InvokeMessage`. Its `payload_b64` is then decoded with the padded standard base64 alphabet (section 4 of RFC 4648). Only when both steps succeed is exactly one `send(origin, target, operation, payload)` issued. The origin is `{provider id, message link name, message contract id}`. The target is `{message actor id, "", ""}`. The JSON decoder, the base64 decoder and the RPC client's answer are function-typed parameters. Handling a message returns a trace of events: log lines and sends.
- `Links` (links.dfy) covers the link lifecycle: `put_link`, `delete_link`, `shutdown` and the plain-versus-queue choice in `subscribe`. The state is the provider id plus its list of listener handles. The broker's answer to a subscription request is an oracle `BrokerRequest -> Option<nat>` that comes with each `put_link` event. This lets sequences of lifecycle calls be followed one after another.

`Wrappers` (wrappers.dfy) holds the `Option` and `Result` datatypes.

The origin's link name and contract id come from the decoded message, not from the link definition (src/lib.rs:56-60); `Links.OriginIgnoresLinkDefinition` states this.

## Model

| member | source | states |
|---|---|---|
| Invoke.Translate | src/lib.rs:35-65 | The result is `MalformedEnvelope` exactly when deserialisation fails, and `MalformedPayload` exactly when the envelope decodes but its base64 payload does not. Otherwise the result is the invocation addressed from the provider id, with the origin's link name and contract id taken from the message. |
| Invoke.SendLog | src/lib.rs:69-76 | The log line after a send is never itself a send. |
| Invoke.HandleInvokeMsg | src/lib.rs:34-77 | A body that fails deserialisation yields only a log line. A payload that fails base64 decoding yields only a log line naming the payload. Neither one dispatches anything. A well-formed body yields exactly one send with the message's fields and decoded payload, then one log line of the outcome, and nothing else: no retry and no reply. |
| Invoke.SendOutcomeIrrelevant | src/lib.rs:66-76 | Whether the send succeeds or fails changes only the final log line. The sends and the trace length are the same either way. |
| Invoke.Dispatched | src/lib.rs:108-111 | Reference for a stream of received messages: the translation of each well-formed body in arrival order. There are as many as there are well-formed bodies, each sent on behalf of the given provider id to a target with empty link name and contract id. |
| Invoke.HandleAll | src/lib.rs:108-111 | Handling n received messages, each on its own, leaves between n and 2n events in all. |
| Invoke.HandleAllSends | src/lib.rs:108-111 | Over a stream of received messages, the sends are exactly `Dispatched`: each well-formed body's own translation (actor, operation, payload, origin link name and contract id), once, in arrival order. So the number of sends equals the number of well-formed bodies. |
| Invoke.MalformedEnvelopeNotDispatched | src/lib.rs:41-46 | A body that does not deserialise is never dispatched, whatever the base64 decoder would say. |
| Invoke.ExampleDispatch | src/lib.rs:55-67 | The envelope `{A1, L1, C1, op.test, aGVsbG8=}` dispatches the bytes of `hello` to target `A1` with operation `op.test`. |
| Invoke.ExampleBadPayload | src/lib.rs:50-53 | The payload `!!!not-base64!!!` leads to one decode-failure log line and no dispatch. |
| Links.FromHostData | src/lib.rs:81-86 | A provider built from host data carries the host's provider key as its id and has no listener. |
| Links.SubscribeRequest | src/lib.rs:96-99 | The broker call is a queue subscription exactly when a queue group is given, with that queue. Otherwise it is a plain subscription. The subject is the one asked for either way. |
| Links.Subscribe | src/lib.rs:89-116 | A listener is produced exactly when the broker accepts the request. It records the link definition, the broker's stream, and exactly the request made: the subject, and the queue group when one is given. |
| Links.PutLink | src/lib.rs:127-152 | On a provider that already has a listener, the link is accepted and nothing changes. Otherwise a plain subscription to `testing` is made. If it fails, the link is rejected and the state is unchanged. If it succeeds, the link is accepted and exactly one listener for this link definition is registered. |
| Links.DeleteLink | src/lib.rs:155-156 | Removing a link leaves the listener registry and id unchanged. |
| Links.Shutdown | src/lib.rs:159-161 | Shutdown leaves the registry empty and keeps the id. |
| Links.Run | src/lib.rs:127-161 | Over any sequence of lifecycle calls, a registry with at most one handle keeps at most one handle. A sequence ending in shutdown leaves the registry empty. |
| Links.AtMostOneHandle | src/lib.rs:131-134 | From a freshly built provider, every sequence of lifecycle calls leaves at most one handle in the registry. Listener tasks whose handles were dropped are not counted; see `Links.Spawned`. |
| Links.ListenerKeptUntilShutdown | src/lib.rs:131-156 | Once a listener is registered, any sequence of puts and deletes with no shutdown leaves the provider exactly as it was. |
| Links.PutLinkIdempotent | src/lib.rs:132-134 | After an accepted `put_link`, a second `put_link` with any link definition and any broker answer accepts and changes nothing. |
| Links.PutLinkAfterShutdown | src/lib.rs:159-161 | After shutdown, `put_link` behaves exactly as on a freshly built provider. |
| Links.TwoPutsWhileActive | src/lib.rs:132-134 | Two puts with different link definitions on an active provider leave its single handle in place. |
| Links.OnNatsMessage | src/lib.rs:108-111 | A message received by a listener is dispatched on behalf of the provider id of the listener's link definition. A malformed message is never dispatched. A well-formed one is dispatched exactly once, as its own translation. |
| Links.HandleMessage | src/lib.rs:175-177 | A message delivered through the messaging interface is dispatched on behalf of the provider's own id. A malformed message is never dispatched. A well-formed one is dispatched exactly once, as its own translation. |
| Links.HandleMessageMatchesListener | src/lib.rs:110-111 | Delivery through the messaging interface gives the same trace as delivery to a listener whose link definition names the provider's own id. |
| Links.OriginIgnoresLinkDefinition | src/lib.rs:56-60 | Two listeners whose link definitions share only the provider id produce identical traces. So the link definition's link name and contract id play no part in the invocation. |
| Links.Started | src/lib.rs:132-148 | A lifecycle call starts a listener task exactly when it is a `put_link` on an empty registry that ends with one handle. That handle is the new listener, a plain subscriber of `testing`. |
| Links.Spawned | src/lib.rs:106-113 | The listener tasks started along a run number at most the calls, and all are plain subscribers of `testing`. |
| Links.RegisteredWereSpawned | src/lib.rs:106-148 | Every handle in the registry after a run was either there at its start or is a listener task started during the run. |
| Links.SpawnedAppend | src/lib.rs:158-161 | Listener tasks are only ever added. Those started by a run are the ones started by its first part followed by those started later, whatever the later calls are, shutdowns included. |
| Links.DeliverAll | src/lib.rs:108-111 | A message delivered to several plain subscribers is never dispatched when malformed. When well formed, each listener in turn dispatches the message's own translation on behalf of the provider id of its own link definition, once. |
| Links.ShutdownLeavesListenerRunning | src/lib.rs:158-161 | After `put_link`, `shutdown`, `put_link` with both subscriptions accepted, the registry holds one handle but two listener tasks run. A well-formed message is dispatched twice: its translation on behalf of the first link definition's provider id, then on behalf of the second's. |
| Links.ShutdownStillDispatches | src/lib.rs:158-161 | After an accepted `put_link` and a `shutdown`, with no later call, the registry is empty, yet a well-formed message is still dispatched once: its translation on behalf of the shut-down link definition's provider id. |
| Links.DispatchedAtMostOnceWhenShutdownStops | src/lib.rs:158-161 | If shutdown stopped the tasks whose handles it drops, the live listeners would be the registry's handles, and from a fresh provider each message would be dispatched at most once, and not at all after a final shutdown. |

## Left out

- Task spawning and the listener loop (src/lib.rs:106-113) are concurrent and asynchronous. `HandleAll` lists the effects of received messages one after another. In the source, the per-message tasks run concurrently and in no particular order.
- The `RwLock` around the registry is left out, and so is the check-then-act race between the read at src/lib.rs:132 and the write at src/lib.rs:148. Lifecycle calls are modelled sequentially.
- The NATS client, the RPC client and `provider_main::get_connection()` are foreign I/O. The broker's answer is the `Broker` oracle and the RPC client's answer is the `Dispatcher` parameter. The response contents are only logged, so they are not modelled.
- `serde_json::from_slice` and the base64 `STANDARD` engine are library code. They are the `JsonDecoder` and `Base64Decoder` parameters. RFC 4648 is not re-implemented.
- Logging is kept only as event names in the traces of `handle_invoke_msg` (src/lib.rs:44, 51, 71, 74). The log lines at src/lib.rs:102, 109 and 142 appear in no trace. Log message text and levels are not modelled.
- `Dispatcher` always answers, which is why `HandleInvokeMsg` ends a well-formed trace with one outcome log line. src/lib.rs:66-68 awaits `send` with no timeout, so in the program that final log line may never come.
- Dispatcher is a function of the invocation, so within one stream two equal invocations get the same answer. The RPC client at src/lib.rs:66-68 can answer each call differently. Only the outcome log lines depend on this, as `Invoke.SendOutcomeIrrelevant` shows.
- The generated bindings (src/lib.rs:20-24) and the trait plumbing are generated code.
- Process bootstrap (src/bin/messaging_nats_invoker.rs:7-15) only loads host data and starts the provider.
- Dropping a `JoinHandle` does not stop its task in tokio. The registry model (`Run`) counts handles only. Tasks that keep running after a shutdown are tracked separately by `Spawned`; see Findings.

## Findings

| source | as written | input that shows it | evidently intended | confidence | as-written member | corrected member |
|---|---|---|---|---|---|---|
| src/lib.rs:158-161 | `shutdown` clears the handle list, which drops the `JoinHandle`s without aborting the listener tasks, so each keeps reading its subscription | `put_link` (subscribe accepted), `shutdown`, then one well-formed message on `testing`: it is still dispatched once | shutdown closes all connections, as its doc comment says, so no message is dispatched after it | not executed; high that dropping a tokio `JoinHandle` detaches its task; whether messages still arrive depends on the NATS connection outliving the shutdown call | Links.ShutdownStillDispatches | Links.DispatchedAtMostOnceWhenShutdownStops |
| src/lib.rs:158-161 | the same detached listener stays subscribed after a later `put_link` opens a second one | `put_link` (accepted), `shutdown`, `put_link` (accepted), then one well-formed message on `testing`: it is dispatched twice | at most one listener runs, so each message is dispatched at most once | not executed; the host may never call `put_link` after `shutdown`, since the process exits once `start_provider` returns (src/bin/messaging_nats_invoker.rs:8-13) | Links.ShutdownLeavesListenerRunning | Links.DispatchedAtMostOnceWhenShutdownStops |
