/**
 * The durable key-value store (AsyncStorage) and the typed form of the JSON documents the
 * offline subsystem keeps in it. JSON text is not modelled: each key holds a typed `Value`,
 * and `Unreadable` stands for stored text that `JSON.parse` rejects.
 */
module Storage {
  import opened Wrappers
  import opened Types

  /** Life cycle of a queued offline write (`OfflineShipment['status']`). */
  datatype Status = Pending | Syncing | Synced | Failed

  /** One entry of the offline write queue (`OfflineShipment`). */
  datatype OfflineShipment = OfflineShipment(id: Option<string>, data: ShipmentRequest, createdAt: string, status: Status)

  /** The cached shipment list (`CachedShipments`). */
  datatype CachedShipments = CachedShipments(shipments: seq<Shipment>, lastUpdated: string, filterStatus: string)

  /** A per-shipment snapshot (`CachedShipmentDetails` and `CachedShipmentBasic` have the same shape). */
  datatype CachedShipment = CachedShipment(shipment: Shipment, lastUpdated: string)

  /** Everything the subsystem writes under a key. */
  datatype Value =
    | QueueValue(queue: seq<OfflineShipment>)
    | BrandsValue(brands: seq<VehicleBrand>)
    | ContractsValue(contracts: seq<Contract>)
    | ListValue(list: CachedShipments)
    | SnapshotValue(snapshot: CachedShipment)
    | TextValue(text: string)
    | Unreadable

  /**
   * How the store misbehaves during one call of the subsystem: every read throws, every write
   * throws, or both. The environment may change it between calls.
   */
  datatype Faults = Faults(readFails: bool, writeFails: bool)

  /** What a throwing `setItem` raises. */
  datatype StorageError = WriteRejected

  /** What `getItem` yields: nothing when the key is absent or the read throws. */
  function Read(m: map<string, Value>, f: Faults, key: string): (r: Option<Value>)
    ensures r.Some? <==> !f.readFails && key in m
    ensures r.Some? ==> r.value == m[key]
  {
    if f.readFails || key !in m then None else Some(m[key])
  }

  /** The store after `setItem`: unchanged when the write throws. */
  function Write(m: map<string, Value>, f: Faults, key: string, v: Value): (m': map<string, Value>)
    ensures f.writeFails ==> m' == m
    ensures !f.writeFails ==> key in m' && m'[key] == v && m'.Keys == m.Keys + {key}
    ensures forall k :: k != key ==> (k in m' <==> k in m) && (k in m ==> m'[k] == m[k])
  {
    if f.writeFails then m else m[key := v]
  }

  class Store {
    var entries: map<string, Value>
    var faults: Faults

    constructor ()
      ensures entries == map[] && faults == Faults(false, false)
    {
      entries := map[];
      faults := Faults(false, false);
    }

    method GetItem(key: string) returns (r: Option<Value>)
      ensures r == Read(entries, faults, key)
    {
      if faults.readFails || key !in entries {
        r := None;
      } else {
        r := Some(entries[key]);
      }
    }

    /** `setItem`; `ok` is false when it throws. */
    method SetItem(key: string, v: Value) returns (ok: bool)
      modifies this`entries
      ensures ok == !faults.writeFails
      ensures entries == Write(old(entries), faults, key, v)
    {
      ok := !faults.writeFails;
      if ok {
        entries := entries[key := v];
      }
    }

    /** `getAllKeys`; `None` when it throws. */
    method GetAllKeys() returns (r: Option<set<string>>)
      ensures r == if faults.readFails then None else Some(entries.Keys)
    {
      if faults.readFails {
        r := None;
      } else {
        r := Some(entries.Keys);
      }
    }

    /** `multiRemove`; `ok` is false when it throws, and then nothing is removed. */
    method MultiRemove(keys: set<string>) returns (ok: bool)
      modifies this`entries
      ensures ok == !faults.writeFails
      ensures entries == if faults.writeFails then old(entries) else old(entries) - keys
    {
      ok := !faults.writeFails;
      if ok {
        entries := entries - keys;
      }
    }
  }
}
