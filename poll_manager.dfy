/**
 The subscription registry the pub-sub facade drives (`GenericPollManager`).
 Its source is not part of this model: this module states the contract the
 facade relies on (fresh numeric ids, removal that reports presence) and gives
 it the simplest bodies that meet it. Polling (`tick`), value diffing and the
 notification channels are not modelled.
 */
module PollManager {
  import opened RpcMetadata

  /** Registry ids are `usize`; the target is taken to be 64-bit. */
  const USIZE_MODULUS: nat := 0x1_0000_0000_0000_0000

  type USize = x: nat | x < USIZE_MODULUS

  /** JSON-RPC call parameters, as an opaque serialised value. */
  datatype Params = Params(json: string)

  /** What the registry keeps per subscription: the call to re-evaluate. */
  datatype Subscription = Subscription(metadata: Metadata, methodName: string, params: Params)

  /** The registry's abstract state: live subscriptions by id, and the id allocator. */
  datatype Registry = Registry(entries: map<USize, Subscription>, nextId: nat) {
    /** Every live id was allocated already, and the allocator stays within `usize`. */
    predicate Valid() {
      nextId <= USIZE_MODULUS && forall id :: id in entries ==> id < nextId
    }
  }

  datatype Allocation = Allocation(registry: Registry, id: USize)

  datatype Removal = Removal(registry: Registry, removed: bool)

  /** `subscribe`: stores the subscription under the next id, which no live entry uses. */
  function Insert(r: Registry, s: Subscription): (a: Allocation)
    requires r.Valid() && r.nextId < USIZE_MODULUS
    ensures a.registry.Valid()
    ensures a.id == r.nextId && a.id !in r.entries
    ensures a.registry.nextId == r.nextId + 1
    ensures a.registry.entries.Keys == r.entries.Keys + {a.id}
    ensures a.registry.entries[a.id] == s
    ensures forall id :: id in r.entries ==> a.registry.entries[id] == r.entries[id]
  {
    Allocation(Registry(r.entries[r.nextId := s], r.nextId + 1), r.nextId)
  }

  /** `unsubscribe`: drops the entry, reporting whether there was one; ids are never handed back. */
  function Remove(r: Registry, id: USize): (o: Removal)
    ensures o.removed <==> id in r.entries
    ensures o.registry.entries.Keys == r.entries.Keys - {id}
    ensures forall k :: k in o.registry.entries ==> o.registry.entries[k] == r.entries[k]
    ensures o.registry.nextId == r.nextId
    ensures r.Valid() ==> o.registry.Valid()
  {
    Removal(Registry(r.entries - {id}, r.nextId), id in r.entries)
  }

  /** Removing an id twice: the second removal finds nothing and changes nothing. */
  lemma RemoveTwice(r: Registry, id: USize)
    ensures !Remove(Remove(r, id).registry, id).removed
    ensures Remove(Remove(r, id).registry, id).registry == Remove(r, id).registry
  {
  }

  /** Removing the id just allocated gives back the entries from before the allocation. */
  lemma {:induction false} RemoveUndoesInsert(r: Registry, s: Subscription)
    requires r.Valid() && r.nextId < USIZE_MODULUS
    ensures Remove(Insert(r, s).registry, Insert(r, s).id) == Removal(Registry(r.entries, r.nextId + 1), true)
  {
    var a := Insert(r, s);
    var o := Remove(a.registry, a.id);
    assert o.registry.entries == r.entries;
  }

  /** The registry object shared, under a lock, by the facade and the polling timer. */
  class GenericPollManager {
    var entries: map<USize, Subscription>
    var nextId: nat

    function View(): Registry
      reads this
    {
      Registry(entries, nextId)
    }

    predicate Valid()
      reads this
    {
      View().Valid()
    }

    /** `GenericPollManager::new`: no subscriptions, ids start at 0. */
    constructor ()
      ensures Valid()
      ensures View() == Registry(map[], 0)
    {
      entries := map[];
      nextId := 0;
    }

    /** `subscribe(meta, method, params)`; the receiving end of the channel is not modelled. */
    method Subscribe(metadata: Metadata, methodName: string, params: Params) returns (id: USize)
      requires Valid() && nextId < USIZE_MODULUS
      modifies this
      ensures Valid()
      ensures Allocation(View(), id) == Insert(old(View()), Subscription(metadata, methodName, params))
    {
      id := nextId;
      entries := entries[id := Subscription(metadata, methodName, params)];
      nextId := nextId + 1;
    }

    /** `unsubscribe(id)`. */
    method Unsubscribe(id: USize) returns (removed: bool)
      requires Valid()
      modifies this
      ensures Valid()
      ensures Removal(View(), removed) == Remove(old(View()), id)
    {
      removed := id in entries;
      entries := entries - {id};
    }
  }
}
