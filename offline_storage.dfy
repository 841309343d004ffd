/**
 * The offline write queue and the dictionary snapshots (src/utils/offline-storage.ts).
 * Every queue mutator reads the whole persisted array, changes it and writes it back; a read
 * that throws or yields unreadable text counts as the empty queue, and a write that throws is
 * swallowed, so no mutator reports an error to its caller.
 */
module OfflineStorage {
  import opened Wrappers
  import opened Types
  import opened Storage

  const QueueKey: string := "offline_shipments"
  const BrandsKey: string := "vehicle_brands"
  const ContractsKey: string := "contracts"
  const LastSyncKey: string := "last_sync"

  /** The queue a reader that does not fail finds in `m`: `getOfflineData(...) || []`. */
  function QueueIn(m: map<string, Value>): (q: seq<OfflineShipment>)
    ensures QueueKey !in m || !m[QueueKey].QueueValue? ==> q == []
  {
    if QueueKey in m && m[QueueKey].QueueValue? then m[QueueKey].queue else []
  }

  /** The queue `getOfflineShipments` returns from `m` under faults `f`. */
  function StoredQueue(m: map<string, Value>, f: Faults): seq<OfflineShipment>
  {
    if f.readFails then [] else QueueIn(m)
  }

  /** The entry `addOfflineShipment` builds: the id is copied from the payload. */
  function NewEntry(payload: ShipmentRequest, createdAt: string): OfflineShipment
  {
    OfflineShipment(payload.id, payload, createdAt, Pending)
  }

  /** `filter(shipment => shipment.id !== id)`. */
  function Removed(q: seq<OfflineShipment>, id: Option<string>): (r: seq<OfflineShipment>)
    ensures |r| <= |q|
  {
    if q == [] then []
    else if q[0].id == id then Removed(q[1..], id)
    else [q[0]] + Removed(q[1..], id)
  }

  /** `map(shipment => shipment.id === id ? {...shipment, status} : shipment)`. */
  function WithStatus(q: seq<OfflineShipment>, id: Option<string>, s: Status): (r: seq<OfflineShipment>)
    ensures |r| == |q|
  {
    if q == [] then []
    else [if q[0].id == id then q[0].(status := s) else q[0]] + WithStatus(q[1..], id, s)
  }

  /** The store after `addOfflineShipment(payload)` at time `now`. */
  function AddSpec(m: map<string, Value>, f: Faults, payload: ShipmentRequest, now: string): (m': map<string, Value>)
    ensures f.writeFails ==> m' == m
    ensures !f.writeFails ==> QueueIn(m') == StoredQueue(m, f) + [NewEntry(payload, now)]
    ensures forall k :: k != QueueKey ==> (k in m' <==> k in m) && (k in m ==> m'[k] == m[k])
  {
    Write(m, f, QueueKey, QueueValue(StoredQueue(m, f) + [NewEntry(payload, now)]))
  }

  /** The store after `removeOfflineShipment(id)`. */
  function RemoveSpec(m: map<string, Value>, f: Faults, id: Option<string>): (m': map<string, Value>)
    ensures f.writeFails ==> m' == m
    ensures !f.writeFails ==> QueueIn(m') == Removed(StoredQueue(m, f), id)
    ensures forall k :: k != QueueKey ==> (k in m' <==> k in m) && (k in m ==> m'[k] == m[k])
  {
    Write(m, f, QueueKey, QueueValue(Removed(StoredQueue(m, f), id)))
  }

  /** The store after `updateOfflineShipmentStatus(id, s)`. */
  function UpdateSpec(m: map<string, Value>, f: Faults, id: Option<string>, s: Status): (m': map<string, Value>)
    ensures f.writeFails ==> m' == m
    ensures !f.writeFails ==> QueueIn(m') == WithStatus(StoredQueue(m, f), id, s)
    ensures forall k :: k != QueueKey ==> (k in m' <==> k in m) && (k in m ==> m'[k] == m[k])
  {
    Write(m, f, QueueKey, QueueValue(WithStatus(StoredQueue(m, f), id, s)))
  }

  method GetOfflineShipments(store: Store) returns (q: seq<OfflineShipment>)
    ensures q == StoredQueue(store.entries, store.faults)
    ensures store.faults.readFails || QueueKey !in store.entries || !store.entries[QueueKey].QueueValue? ==> q == []
    ensures !store.faults.readFails && QueueKey in store.entries && store.entries[QueueKey].QueueValue? ==>
      q == store.entries[QueueKey].queue
  {
    var stored := store.GetItem(QueueKey);
    if stored.Some? && stored.value.QueueValue? {
      q := stored.value.queue;
    } else {
      q := [];
    }
  }

  method AddOfflineShipment(store: Store, payload: ShipmentRequest, now: string)
    modifies store`entries
    ensures store.entries == AddSpec(old(store.entries), store.faults, payload, now)
  {
    var queue := GetOfflineShipments(store);
    var entry := NewEntry(payload, now);
    var ok := store.SetItem(QueueKey, QueueValue(queue + [entry]));
  }

  method RemoveOfflineShipment(store: Store, id: Option<string>)
    modifies store`entries
    ensures store.entries == RemoveSpec(old(store.entries), store.faults, id)
  {
    var queue := GetOfflineShipments(store);
    var ok := store.SetItem(QueueKey, QueueValue(Removed(queue, id)));
  }

  method UpdateOfflineShipmentStatus(store: Store, id: Option<string>, status: Status)
    modifies store`entries
    ensures store.entries == UpdateSpec(old(store.entries), store.faults, id, status)
  {
    var queue := GetOfflineShipments(store);
    var ok := store.SetItem(QueueKey, QueueValue(WithStatus(queue, id, status)));
  }

  /** The brand dictionary a reader finds: `getOfflineData(...) || []`. */
  function StoredBrands(m: map<string, Value>, f: Faults): seq<VehicleBrand>
  {
    var v := Read(m, f, BrandsKey);
    if v.Some? && v.value.BrandsValue? then v.value.brands else []
  }

  /** The contract dictionary a reader finds: `getOfflineData(...) || []`. */
  function StoredContracts(m: map<string, Value>, f: Faults): seq<Contract>
  {
    var v := Read(m, f, ContractsKey);
    if v.Some? && v.value.ContractsValue? then v.value.contracts else []
  }

  /** The store after `saveVehicleBrands(brands)`: the dictionary, then the last-sync stamp, each write on its own. */
  function SaveBrandsSpec(m: map<string, Value>, f: Faults, brands: seq<VehicleBrand>, now: string): map<string, Value>
  {
    Write(Write(m, f, BrandsKey, BrandsValue(brands)), f, LastSyncKey, TextValue(now))
  }

  /** The store after `saveContracts(contracts)`. */
  function SaveContractsSpec(m: map<string, Value>, f: Faults, contracts: seq<Contract>, now: string): map<string, Value>
  {
    Write(Write(m, f, ContractsKey, ContractsValue(contracts)), f, LastSyncKey, TextValue(now))
  }

  method SaveVehicleBrands(store: Store, brands: seq<VehicleBrand>, now: string)
    modifies store`entries
    ensures store.entries == SaveBrandsSpec(old(store.entries), store.faults, brands, now)
  {
    var ok := store.SetItem(BrandsKey, BrandsValue(brands));
    ok := store.SetItem(LastSyncKey, TextValue(now));
  }

  method GetVehicleBrands(store: Store) returns (brands: seq<VehicleBrand>)
    ensures brands == StoredBrands(store.entries, store.faults)
  {
    var stored := store.GetItem(BrandsKey);
    brands := if stored.Some? && stored.value.BrandsValue? then stored.value.brands else [];
  }

  method SaveContracts(store: Store, contracts: seq<Contract>, now: string)
    modifies store`entries
    ensures store.entries == SaveContractsSpec(old(store.entries), store.faults, contracts, now)
  {
    var ok := store.SetItem(ContractsKey, ContractsValue(contracts));
    ok := store.SetItem(LastSyncKey, TextValue(now));
  }

  method GetContracts(store: Store) returns (contracts: seq<Contract>)
    ensures contracts == StoredContracts(store.entries, store.faults)
  {
    var stored := store.GetItem(ContractsKey);
    contracts := if stored.Some? && stored.value.ContractsValue? then stored.value.contracts else [];
  }

  // Properties of the queue operations.

  /** Removal keeps exactly the entries with a different id, and is the identity when no entry has the id. */
  lemma {:induction false} RemovedMembers(q: seq<OfflineShipment>, id: Option<string>)
    ensures forall e :: e in Removed(q, id) <==> e in q && e.id != id
    ensures (forall i :: 0 <= i < |q| ==> q[i].id != id) ==> Removed(q, id) == q
  {
    if q != [] {
      RemovedMembers(q[1..], id);
      assert q == [q[0]] + q[1..];
      if forall i :: 0 <= i < |q| ==> q[i].id != id {
        assert forall i :: 0 <= i < |q[1..]| ==> q[1..][i].id != id by {
          forall i | 0 <= i < |q[1..]| ensures q[1..][i].id != id {
            assert q[1..][i] == q[i + 1];
          }
        }
      }
    }
  }

  /** A status update changes the status of exactly the entries with the id, and nothing else. */
  lemma {:induction false} WithStatusPointwise(q: seq<OfflineShipment>, id: Option<string>, s: Status)
    ensures forall i :: 0 <= i < |q| ==>
      && WithStatus(q, id, s)[i].id == q[i].id && WithStatus(q, id, s)[i].data == q[i].data
      && WithStatus(q, id, s)[i].createdAt == q[i].createdAt
      && WithStatus(q, id, s)[i].status == (if q[i].id == id then s else q[i].status)
  {
    if q != [] {
      WithStatusPointwise(q[1..], id, s);
      var r := WithStatus(q, id, s);
      forall i | 0 < i < |q| ensures r[i] == WithStatus(q[1..], id, s)[i - 1] && q[i] == q[1..][i - 1] {
      }
    }
  }

  /** Removal keeps the order of what it keeps: it distributes over concatenation. */
  lemma {:induction false} RemovedAppend(a: seq<OfflineShipment>, b: seq<OfflineShipment>, id: Option<string>)
    ensures Removed(a + b, id) == Removed(a, id) + Removed(b, id)
  {
    if a == [] {
      assert a + b == b;
    } else {
      assert (a + b)[1..] == a[1..] + b;
      RemovedAppend(a[1..], b, id);
    }
  }

  /** Removing the id of a freshly appended entry restores the queue, when no older entry shares that id. */
  lemma RemoveUndoesAdd(q: seq<OfflineShipment>, payload: ShipmentRequest, now: string)
    requires forall i :: 0 <= i < |q| ==> q[i].id != payload.id
    ensures Removed(q + [NewEntry(payload, now)], payload.id) == q
  {
    RemovedAppend(q, [NewEntry(payload, now)], payload.id);
    RemovedMembers(q, payload.id);
  }

  /** A second removal of the same id is a no-op. */
  lemma RemoveIdempotent(q: seq<OfflineShipment>, id: Option<string>)
    ensures Removed(Removed(q, id), id) == Removed(q, id)
  {
    var r := Removed(q, id);
    RemovedMembers(q, id);
    RemovedMembers(r, id);
    forall i | 0 <= i < |r| ensures r[i].id != id {
      assert r[i] in r;
    }
  }

  /** Setting the same status twice gives the same queue as setting it once. */
  lemma UpdateIdempotent(q: seq<OfflineShipment>, id: Option<string>, s: Status)
    ensures WithStatus(WithStatus(q, id, s), id, s) == WithStatus(q, id, s)
  {
    var once, twice := WithStatus(q, id, s), WithStatus(WithStatus(q, id, s), id, s);
    forall i | 0 <= i < |q| ensures twice[i] == once[i] {
    }
  }

  /** A status change of the entries that are then removed leaves no trace. */
  lemma {:induction false} RemovedAfterStatus(q: seq<OfflineShipment>, id: Option<string>, s: Status)
    ensures Removed(WithStatus(q, id, s), id) == Removed(q, id)
  {
    if q != [] {
      var w := WithStatus(q, id, s);
      assert w[1..] == WithStatus(q[1..], id, s);
      RemovedAfterStatus(q[1..], id, s);
    }
  }

  // Properties of the dictionary helpers.

  /**
   * On a working store a reader gets back the list last saved, and each save leaves the other
   * dictionary and the queue alone; with nothing saved, the reader gets `[]`.
   */
  lemma DictionaryRoundTrip(m: map<string, Value>, f: Faults, brands: seq<VehicleBrand>, contracts: seq<Contract>, now: string)
    requires !f.readFails && !f.writeFails
    ensures StoredBrands(SaveBrandsSpec(m, f, brands, now), f) == brands
    ensures StoredContracts(SaveContractsSpec(m, f, contracts, now), f) == contracts
    ensures StoredContracts(SaveBrandsSpec(m, f, brands, now), f) == StoredContracts(m, f)
    ensures StoredBrands(SaveContractsSpec(m, f, contracts, now), f) == StoredBrands(m, f)
    ensures StoredQueue(SaveBrandsSpec(m, f, brands, now), f) == StoredQueue(m, f)
    ensures StoredQueue(SaveContractsSpec(m, f, contracts, now), f) == StoredQueue(m, f)
    ensures BrandsKey !in m ==> StoredBrands(m, f) == []
    ensures ContractsKey !in m ==> StoredContracts(m, f) == []
  {
    assert LastSyncKey[0] == 'l' && BrandsKey[0] == 'v' && ContractsKey[0] == 'c' && QueueKey[0] == 'o';
  }
}
