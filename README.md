# Parity pub-sub facade and request metadata

A Dafny model of two small cores of Parity's RPC layer:

- the pub-sub facade `PubSubClient` (`rpc/src/v1/impls/pubsub.rs`), which turns
  any RPC method into a polled subscription. `parity_subscribe` strips the
  transport session from the request metadata, registers the call with the
  poll registry (`GenericPollManager`), and offers the new id to the pending
  subscriber as `SubscriptionId::Number`. When the subscriber claims the id, a
  forwarding task is started. When the claim fails, the id is unsubscribed at
  once. `parity_unsubscribe` delegates to the registry for numeric ids and
  answers `false` for any other id;
- the request `Metadata` (`rpc/src/v1/metadata.rs`): its equality, `dapp_id`
  and `session()`.

Files:

- `wrappers.dfy` (module `Wrappers`): `Option`.
- `metadata.dfy` (module `RpcMetadata`): `DappId`, `Origin`, `Session`,
  `Metadata` and the functions of `metadata.rs`.
- `poll_manager.dfy` (module `PollManager`): the registry the facade relies on.
  `GenericPollManager`'s source is not part of this model. The module gives the
  contract the facade needs and the simplest bodies that meet it: a map from
  ids to subscriptions and an id counter that only increases. The functions
  `Insert` and `Remove` work on the registry's abstract value; the class
  `GenericPollManager` holds the same state as fields, and its methods are
  proved against those functions.
- `pubsub.dfy` (module `PubSub`): the facade as the class `PubSubClient`. Its
  methods are proved equal to the value-level functions `FacadeSubscribe` and
  `FacadeUnsubscribe`. The module also holds lemmas about single calls and
  about any sequence of calls (`Run`).

Modelling choices:

- Each facade call is atomic. The source holds the registry's write lock
  across register-and-claim, so this is how it behaves.
- The subscriber's `assign_id` is the function `Subscriber.assignId`. It maps
  the offered id to `true` (a sink came back) or `false` (an error).
- `remote.spawn` of the forwarding future is recorded as the id appended to
  `PubSubClient.forwarders`.
- `usize` and `u64` are subset types of `nat` bounded by 2^64, so the target
  is assumed to be 64-bit. The casts `as u64` and `as usize` are written out
  as truncations. On such a target they are the identity on registry ids.
- `Origin` and `DappId` are defined in `v1::types`, which is not part of this
  model. `Origin` is `Dapps(DappId)`, `Unknown` or an opaque `Other`, and its
  default is taken to be `Unknown`. `DappId` wraps a name, and its default is
  the empty name. A `Session` is an opaque token.
- `Metadata::eq` is modelled as written: its session check compares the
  left-hand side with itself (see Findings).

## Model

| member | source | states |
|---|---|---|
| `RpcMetadata.Default` | rpc/src/v1/metadata.rs:26-32 | the derived default metadata has no session and the default origin |
| `RpcMetadata.Eq` | rpc/src/v1/metadata.rs:34-46 | `eq` as written holds exactly when the origins are equal: the session check never rejects |
| `RpcMetadata.EqIgnoresSession` | rpc/src/v1/metadata.rs:40-44 | equal origins give `true` even when one side has a session and the other has none |
| `RpcMetadata.EqRejectsOtherOrigin` | rpc/src/v1/metadata.rs:36-38 | different origins give `false` |
| `RpcMetadata.EqIsEquivalence` | rpc/src/v1/metadata.rs:34-46 | `eq` is reflexive, symmetric and transitive |
| `RpcMetadata.IntendedEq` | rpc/src/v1/metadata.rs:40-42 | the corrected comparison: equal origins and the same session presence on both sides; it implies `Eq` |
| `RpcMetadata.IntendedEqIsEquivalence` | rpc/src/v1/metadata.rs:34-46 | the corrected comparison is an equivalence relation as well |
| `RpcMetadata.SessionCheckNeverFires` | rpc/src/v1/metadata.rs:40 | a request with a session and one without, from the same origin, are `Eq` but not `IntendedEq` |
| `RpcMetadata.DappIdOf` | rpc/src/v1/metadata.rs:50-56 | a dapp request yields its dapp id; every other origin yields the default `DappId` |
| `RpcMetadata.SessionOf` | rpc/src/v1/metadata.rs:61-63 | `session()` returns the stored session unchanged |
| `PollManager.Insert` | rpc/src/v1/impls/pubsub.rs:73 | the registry's assumed `subscribe` contract: the id is the counter's value, no live entry uses it, the new entry holds the subscription, no other entry changes, the counter grows by one |
| `PollManager.Remove` | rpc/src/v1/impls/pubsub.rs:81 | the registry's assumed `unsubscribe` contract: returns whether the id was present, removes exactly that id, changes no other entry and leaves the counter alone |
| `PollManager.RemoveTwice` | rpc/src/v1/impls/pubsub.rs:81 | a second removal of the same id returns `false` and changes nothing |
| `PollManager.RemoveUndoesInsert` | rpc/src/v1/impls/pubsub.rs:73-81 | removing the id just allocated restores the previous entries and reports `true`; the id stays consumed |
| `PollManager.GenericPollManager.constructor` | rpc/src/v1/impls/pubsub.rs:43 | a new registry is empty and its counter starts at 0 |
| `PollManager.GenericPollManager.Subscribe` | rpc/src/v1/impls/pubsub.rs:73 | the object's new state and the returned id are those of `Insert` |
| `PollManager.GenericPollManager.Unsubscribe` | rpc/src/v1/impls/pubsub.rs:81 | the object's new state and the result are those of `Remove` |
| `PubSub.AsU64` | rpc/src/v1/impls/pubsub.rs:74 | `id as u64` is the identity on ids below 2^64 |
| `PubSub.AsUsize` | rpc/src/v1/impls/pubsub.rs:88 | `id as usize` is the identity on values below the pointer-width bound |
| `PubSub.CastRoundTrip` | rpc/src/v1/impls/pubsub.rs:74-88 | casting a registry id to `u64` and back gives the same id |
| `PubSub.StripSession` | rpc/src/v1/impls/pubsub.rs:69-70 | the stored metadata has no session, keeps the origin and so the dapp id |
| `PubSub.FacadeSubscribe` | rpc/src/v1/impls/pubsub.rs:68-84 | the id offered is `Number` of the id the registry allocated; the claim's outcome is the subscriber's answer to that offer; if claimed, the entry is added with the session stripped and no other entry changes; if rejected, the registered entries are exactly those before the call |
| `PubSub.FacadeUnsubscribe` | rpc/src/v1/impls/pubsub.rs:86-94 | a non-numeric id gives `false` and the registry unchanged; `Number(n)` gives exactly the registry's `unsubscribe(n as usize)` result, which is whether that id was live |
| `PubSub.SubscribeThenUnsubscribe` | rpc/src/v1/impls/pubsub.rs:74-88 | the id handed out by an accepted subscribe, passed back to unsubscribe, removes exactly that entry and returns `true` |
| `PubSub.UnsubscribeTwice` | rpc/src/v1/impls/pubsub.rs:86-94 | a second unsubscribe of the same id returns `false` and changes nothing |
| `PubSub.UnsubscribeUnissued` | rpc/src/v1/impls/pubsub.rs:86-94 | an id the registry has not issued yet is never found |
| `PubSub.Step` | rpc/src/v1/impls/pubsub.rs:68-94 | one facade call keeps the registry valid, advances the counter only for subscribe, and adds no entry with a session |
| `PubSub.Run` | rpc/src/v1/impls/pubsub.rs:68-94 | any sequence of facade calls keeps the registry valid and its counter grows by at most one per call |
| `PubSub.RunKeepsSessionsStripped` | rpc/src/v1/impls/pubsub.rs:69-73 | after any sequence of facade calls, no registered subscription holds a transport session |
| `PubSub.IssuedIdsFresh` | rpc/src/v1/impls/pubsub.rs:73-74 | the ids issued by any sequence of calls are strictly increasing, so pairwise distinct, and none of them was live before |
| `PubSub.PubSubClient.constructor` | rpc/src/v1/impls/pubsub.rs:42-62 | a new facade owns an empty registry and has started no forwarder |
| `PubSub.PubSubClient.ParitySubscribe` | rpc/src/v1/impls/pubsub.rs:68-84 | the new registry state, the id, the offered id and the claim's outcome are those of `FacadeSubscribe`; a forwarder is started for the id exactly when the claim succeeds; no registered entry holds a session |
| `PubSub.PubSubClient.ParityUnsubscribe` | rpc/src/v1/impls/pubsub.rs:86-94 | the new registry state and the result are those of `FacadeUnsubscribe`; a non-numeric id leaves the registry object untouched |
| `PubSub.SubscribeAndUnsubscribe` | rpc/src/v1/impls/pubsub.rs:68-94 | on a fresh facade, a claimed subscription is removed by the first unsubscribe and not by the second, and a rejected claim leaves the registry empty |

## Left out

- The polling timer (a 100 ms wheel with capacity 1 and a 1000 ms interval) and the `remote.spawn` that starts it in `PubSubClient::new`. This is runtime scheduling.
- The forwarding future `receiver.forward(sink)` and its warning on sink errors. This is asynchronous I/O; the model records only that a forwarder was started for the id.
- The `Arc<RwLock<…>>` around the registry. Its purpose is concurrency; each facade call is modelled as atomic.
- `GenericPollManager`'s `tick`, value diffing, dispatcher calls, channels and self-cleanup. Its source is not part of this model; only its `subscribe` and `unsubscribe` contracts are stated.
- PollManager.GenericPollManager.Subscribe: requires the id counter to be below 2^64. What the hidden registry does when its `usize` counter overflows is not modelled.
- `Session` internals and `Arc` reference counting. A session is an opaque token.
- `Origin` and `DappId` internals; `v1::types` is not part of this model.
- JSON-RPC `Params` and `Output` serialisation. Parameters are an opaque value and notifications are not modelled.
- The `BoxFuture` wrapping of the unsubscribe result. The model returns the boolean directly.

## Findings

| source | as written | input that shows it | evidently intended | confidence | as-written member | corrected member |
|---|---|---|---|---|---|---|
| rpc/src/v1/metadata.rs:40 | `self.session.is_some() != self.session.is_some()` compares the left-hand side with itself, so it is always false | same origin, left side `session = Some(_)`, right side `session = None`: `eq` returns `true` | `self.session.is_some() != other.session.is_some()`, so that metadata with and without a session differ | high (not executed) | `RpcMetadata.SessionCheckNeverFires` | `RpcMetadata.IntendedEq` |
