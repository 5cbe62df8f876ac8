/**
 The parity pub-sub facade (rpc/src/v1/impls/pubsub.rs): `parity_subscribe`
 strips the transport session, registers the call with the poll registry and
 lets the subscriber claim the new numeric id, undoing the registration if the
 claim fails; `parity_unsubscribe` removes a subscription given a numeric id.
 Each call is taken to be atomic, as the source holds the registry's write
 lock across it. The timer, the forwarding futures and the lock are not modelled.
 */
module PubSub {
  import opened Wrappers
  import opened RpcMetadata
  import opened PollManager

  const U64_MODULUS: nat := 0x1_0000_0000_0000_0000

  type UInt64 = x: nat | x < U64_MODULUS

  /** `jsonrpc_pubsub::SubscriptionId`: a number or a string. */
  datatype SubscriptionId = Number(n: UInt64) | String(s: string)

  /** Rust's `id as u64` on a `usize`: truncation to 64 bits. */
  function AsU64(id: USize): (n: UInt64)
    ensures id < U64_MODULUS ==> n == id
  {
    id % U64_MODULUS
  }

  /** Rust's `n as usize` on a `u64`: truncation to the pointer width. */
  function AsUsize(n: UInt64): (id: USize)
    ensures n < USIZE_MODULUS ==> id == n
  {
    n % USIZE_MODULUS
  }

  /** On a 64-bit target the two casts undo each other on every registry id. */
  lemma CastRoundTrip(id: USize)
    ensures AsUsize(AsU64(id)) == id
  {
  }

  /**
   The pending subscriber. `assignId` is its answer when offered an id:
   `true` when `assign_id` hands back a sink, `false` when it fails
   (for instance because the transport closed meanwhile).
   */
  datatype Subscriber = Subscriber(assignId: SubscriptionId -> bool)

  /** `meta.session = None`: the stored metadata keeps no transport session. */
  function StripSession(m: Metadata): (r: Metadata)
    ensures SessionOf(r) == None
    ensures r.origin == m.origin && DappIdOf(r) == DappIdOf(m)
  {
    m.(session := None)
  }

  /** What one `parity_subscribe` call did: the new registry, the id, the id offered and the claim's outcome. */
  datatype SubscribeOutcome = SubscribeOutcome(registry: Registry, id: USize, offered: SubscriptionId, claimed: bool)

  /** `parity_subscribe` on the registry's abstract state. */
  function FacadeSubscribe(r: Registry, meta: Metadata, subscriber: Subscriber, methodName: string, params: Params): (o: SubscribeOutcome)
    requires r.Valid() && r.nextId < USIZE_MODULUS
    ensures o.registry.Valid()
    ensures o.id == r.nextId && o.id !in r.entries && o.registry.nextId == r.nextId + 1
    ensures o.offered == Number(AsU64(o.id))
    ensures o.claimed == subscriber.assignId(o.offered)
    ensures o.claimed ==> o.registry.entries.Keys == r.entries.Keys + {o.id}
    ensures o.claimed ==> o.registry.entries[o.id] == Subscription(StripSession(meta), methodName, params)
    ensures o.claimed ==> SessionOf(o.registry.entries[o.id].metadata) == None
    ensures o.claimed ==> forall id :: id in r.entries ==> o.registry.entries[id] == r.entries[id]
    ensures !o.claimed ==> o.id !in o.registry.entries && o.registry.entries == r.entries
  {
    var a := Insert(r, Subscription(StripSession(meta), methodName, params));
    var offered := Number(AsU64(a.id));
    if subscriber.assignId(offered) then
      SubscribeOutcome(a.registry, a.id, offered, true)
    else
      RemoveUndoesInsert(r, Subscription(StripSession(meta), methodName, params));
      SubscribeOutcome(Remove(a.registry, a.id).registry, a.id, offered, false)
  }

  /** `parity_unsubscribe` on the registry's abstract state. */
  function FacadeUnsubscribe(r: Registry, sid: SubscriptionId): (o: Removal)
    ensures !sid.Number? ==> o == Removal(r, false)
    ensures sid.Number? ==> o == Remove(r, AsUsize(sid.n))
    ensures sid.Number? ==> (o.removed <==> AsUsize(sid.n) in r.entries)
    ensures o.registry.entries.Keys <= r.entries.Keys && o.registry.nextId == r.nextId
    ensures r.Valid() ==> o.registry.Valid()
  {
    match sid
    case Number(n) => Remove(r, AsUsize(n))
    case _ => Removal(r, false)
  }

  /** The id handed out by an accepted subscribe addresses its own entry: unsubscribing it removes exactly that entry. */
  lemma {:induction false} SubscribeThenUnsubscribe(r: Registry, meta: Metadata, subscriber: Subscriber, methodName: string, params: Params)
    requires r.Valid() && r.nextId < USIZE_MODULUS
    requires FacadeSubscribe(r, meta, subscriber, methodName, params).claimed
    ensures FacadeUnsubscribe(FacadeSubscribe(r, meta, subscriber, methodName, params).registry,
                              FacadeSubscribe(r, meta, subscriber, methodName, params).offered)
            == Removal(Registry(r.entries, r.nextId + 1), true)
  {
    var o := FacadeSubscribe(r, meta, subscriber, methodName, params);
    CastRoundTrip(o.id);
    var u := FacadeUnsubscribe(o.registry, o.offered);
    assert u.registry.entries == r.entries;
  }

  /** Unsubscribing the same id twice: the second call returns false and changes nothing. */
  lemma UnsubscribeTwice(r: Registry, sid: SubscriptionId)
    ensures !FacadeUnsubscribe(FacadeUnsubscribe(r, sid).registry, sid).removed
    ensures FacadeUnsubscribe(FacadeUnsubscribe(r, sid).registry, sid).registry == FacadeUnsubscribe(r, sid).registry
  {
  }

  /** An id the registry has not issued yet is never found. */
  lemma UnsubscribeUnissued(r: Registry, n: UInt64)
    requires r.Valid() && AsUsize(n) >= r.nextId
    ensures FacadeUnsubscribe(r, Number(n)) == Removal(r, false)
  {
    assert r.entries - {AsUsize(n)} == r.entries;
  }

  /** No registered subscription retains a transport session. */
  predicate SessionsStripped(r: Registry) {
    forall id :: id in r.entries ==> r.entries[id].metadata.session == None
  }

  /** A facade call, as it reaches the registry. */
  datatype Call =
    | SubscribeCall(meta: Metadata, subscriber: Subscriber, methodName: string, params: Params)
    | UnsubscribeCall(sid: SubscriptionId)

  /** The registry after one facade call. */
  function Step(r: Registry, c: Call): (o: Registry)
    requires r.Valid() && r.nextId < USIZE_MODULUS
    ensures o.Valid()
    ensures o.nextId == if c.SubscribeCall? then r.nextId + 1 else r.nextId
    ensures SessionsStripped(r) ==> SessionsStripped(o)
  {
    match c
    case SubscribeCall(meta, subscriber, methodName, params) =>
      FacadeSubscribe(r, meta, subscriber, methodName, params).registry
    case UnsubscribeCall(sid) =>
      FacadeUnsubscribe(r, sid).registry
  }

  /** The registry after a sequence of facade calls, one after the other. */
  function Run(r: Registry, calls: seq<Call>): (o: Registry)
    requires r.Valid() && r.nextId + |calls| <= USIZE_MODULUS
    ensures o.Valid()
    ensures r.nextId <= o.nextId <= r.nextId + |calls|
    decreases |calls|
  {
    if calls == [] then r else Run(Step(r, calls[0]), calls[1..])
  }

  /** The ids allocated by the subscribe calls of a sequence, in order. */
  function IssuedIds(r: Registry, calls: seq<Call>): seq<USize>
    requires r.Valid() && r.nextId + |calls| <= USIZE_MODULUS
    decreases |calls|
  {
    if calls == [] then []
    else if calls[0].SubscribeCall? then [r.nextId as USize] + IssuedIds(Step(r, calls[0]), calls[1..])
    else IssuedIds(Step(r, calls[0]), calls[1..])
  }

  /** Whatever the calls, no registered subscription ever keeps a session. */
  lemma {:induction false} RunKeepsSessionsStripped(r: Registry, calls: seq<Call>)
    requires r.Valid() && r.nextId + |calls| <= USIZE_MODULUS
    requires SessionsStripped(r)
    ensures SessionsStripped(Run(r, calls))
    decreases |calls|
  {
    if calls != [] {
      RunKeepsSessionsStripped(Step(r, calls[0]), calls[1..]);
    }
  }

  /**
   The ids issued by any sequence of calls are strictly increasing, hence
   pairwise distinct, and lie between the allocator's value before and after:
   none of them was live before, and none is ever issued twice.
   */
  lemma {:induction false} IssuedIdsFresh(r: Registry, calls: seq<Call>)
    requires r.Valid() && r.nextId + |calls| <= USIZE_MODULUS
    ensures forall i, j :: 0 <= i < j < |IssuedIds(r, calls)| ==> IssuedIds(r, calls)[i] < IssuedIds(r, calls)[j]
    ensures forall i :: 0 <= i < |IssuedIds(r, calls)| ==>
              r.nextId <= IssuedIds(r, calls)[i] < Run(r, calls).nextId && IssuedIds(r, calls)[i] !in r.entries
    decreases |calls|
  {
    if calls != [] {
      IssuedIdsFresh(Step(r, calls[0]), calls[1..]);
    }
  }

  /**
   `PubSubClient`: the facade over the shared registry. `forwarders` records,
   by subscription id, the forwarding tasks handed to `remote.spawn`.
   */
  class PubSubClient {
    const pollManager: GenericPollManager
    var forwarders: seq<USize>

    predicate Valid()
      reads this, pollManager
    {
      pollManager.Valid() && SessionsStripped(pollManager.View())
    }

    /** `PubSubClient::new`: an empty registry; the polling timer is not modelled. */
    constructor ()
      ensures Valid() && fresh(pollManager)
      ensures pollManager.View() == Registry(map[], 0) && forwarders == []
    {
      pollManager := new GenericPollManager();
      forwarders := [];
    }

    /** `parity_subscribe`; the id, the id offered and the claim's outcome are returned for the contract's sake. */
    method ParitySubscribe(meta: Metadata, subscriber: Subscriber, methodName: string, params: Params)
      returns (id: USize, offered: SubscriptionId, claimed: bool)
      requires Valid() && pollManager.nextId < USIZE_MODULUS
      modifies this, pollManager
      ensures Valid()
      ensures SubscribeOutcome(pollManager.View(), id, offered, claimed)
              == FacadeSubscribe(old(pollManager.View()), meta, subscriber, methodName, params)
      ensures forwarders == if claimed then old(forwarders) + [id] else old(forwarders)
    {
      var stored := meta.(session := None);
      id := pollManager.Subscribe(stored, methodName, params);
      offered := Number(AsU64(id));
      claimed := subscriber.assignId(offered);
      if claimed {
        forwarders := forwarders + [id];
      } else {
        var _ := pollManager.Unsubscribe(id);
      }
    }

    /** `parity_unsubscribe`. */
    method ParityUnsubscribe(sid: SubscriptionId) returns (res: bool)
      requires Valid()
      modifies pollManager
      ensures Valid()
      ensures Removal(pollManager.View(), res) == FacadeUnsubscribe(old(pollManager.View()), sid)
      ensures !sid.Number? ==> !res && unchanged(pollManager)
    {
      match sid
      case Number(n) =>
        res := pollManager.Unsubscribe(AsUsize(n));
      case _ =>
        res := false;
    }
  }

  /**
   A client of the facade: a subscription whose id is claimed can be removed
   once and only once; one whose claim fails leaves the registry empty.
   */
  method SubscribeAndUnsubscribe(meta: Metadata, methodName: string, params: Params)
    returns (first: bool, second: bool, leftAfterRejection: map<USize, Subscription>)
    ensures first && !second && leftAfterRejection == map[]
  {
    var client := new PubSubClient();
    var accepting := Subscriber(sid => true);
    var id, offered, claimed := client.ParitySubscribe(meta, accepting, methodName, params);
    assert id == 0 && claimed;
    first := client.ParityUnsubscribe(offered);
    second := client.ParityUnsubscribe(offered);
    var rejecting := Subscriber(sid => false);
    id, offered, claimed := client.ParitySubscribe(meta, rejecting, methodName, params);
    leftAfterRejection := client.pollManager.entries;
  }
}
