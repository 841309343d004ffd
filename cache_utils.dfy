/**
 * The read cache (src/utils/cache-utils.ts): one capped shipment list under a fixed key, and
 * per-shipment "details" and "basic" snapshots under prefixed keys. Every writer except
 * `addOfflineShipmentToCache` swallows storage errors; every reader turns them into a miss.
 */
module CacheUtils {
  import opened Wrappers
  import opened Types
  import opened Text
  import opened Storage
  import OfflineStorage

  const ShipmentsKey: string := "cached_shipments"
  const DetailsPrefix: string := "cached_shipment_details_"
  const BasicPrefix: string := "cached_shipment_basic_"
  const MaxCachedShipments: nat := 20

  function DetailsKey(id: string): string
  {
    DetailsPrefix + id
  }

  function BasicKey(id: string): string
  {
    BasicPrefix + id
  }

  /** The keys `clearCache` selects: the list key and the two snapshot prefixes. */
  predicate IsCacheKey(k: string)
  {
    StartsWith(k, ShipmentsKey) || StartsWith(k, DetailsPrefix) || StartsWith(k, BasicPrefix)
  }

  // Keys never collide across kinds, and the snapshot keys determine their id.

  lemma BasicKeyInjective(a: string, b: string)
    requires BasicKey(a) == BasicKey(b)
    ensures a == b
  {
    assert a == BasicKey(a)[|BasicPrefix|..];
    assert b == BasicKey(b)[|BasicPrefix|..];
  }

  lemma DetailsKeyInjective(a: string, b: string)
    requires DetailsKey(a) == DetailsKey(b)
    ensures a == b
  {
    assert a == DetailsKey(a)[|DetailsPrefix|..];
    assert b == DetailsKey(b)[|DetailsPrefix|..];
  }

  lemma KeysApart(a: string, b: string)
    ensures BasicKey(a) != DetailsKey(b)
    ensures BasicKey(a) != ShipmentsKey && DetailsKey(b) != ShipmentsKey
    ensures IsCacheKey(ShipmentsKey) && IsCacheKey(BasicKey(a)) && IsCacheKey(DetailsKey(b))
  {
    assert BasicKey(a)[16] == 'b' && DetailsKey(b)[16] == 'd';
    assert BasicKey(a)[15] == '_' && DetailsKey(b)[15] == '_' && ShipmentsKey[15] == 's';
    assert BasicKey(a)[..|BasicPrefix|] == BasicPrefix;
    assert DetailsKey(b)[..|DetailsPrefix|] == DetailsPrefix;
  }

  /** The queue and dictionary keys of offline-storage.ts are outside the cache. */
  lemma StorageKeysAreNotCacheKeys()
    ensures !IsCacheKey(OfflineStorage.QueueKey)
    ensures !IsCacheKey(OfflineStorage.BrandsKey) && !IsCacheKey(OfflineStorage.ContractsKey)
    ensures !IsCacheKey(OfflineStorage.LastSyncKey)
  {
    assert OfflineStorage.QueueKey[0] == 'o';
  }

  lemma StorageKeysAreNotSnapshotKeys(id: string)
    ensures BasicKey(id) != OfflineStorage.QueueKey && DetailsKey(id) != OfflineStorage.QueueKey
    ensures BasicKey(id) != OfflineStorage.BrandsKey && DetailsKey(id) != OfflineStorage.BrandsKey
    ensures BasicKey(id) != OfflineStorage.ContractsKey && DetailsKey(id) != OfflineStorage.ContractsKey
  {
    assert BasicKey(id)[0] == 'c' && DetailsKey(id)[0] == 'c';
    assert BasicKey(id)[1] == 'a' && DetailsKey(id)[1] == 'a';
  }

  // What the readers see.

  /** The list a reader that does not fail finds in `m`. */
  function ListIn(m: map<string, Value>): Option<CachedShipments>
  {
    if ShipmentsKey in m && m[ShipmentsKey].ListValue? then Some(m[ShipmentsKey].list) else None
  }

  /** `getCachedShipments()`: a read failure or unreadable text is a miss. */
  function StoredList(m: map<string, Value>, f: Faults): Option<CachedShipments>
  {
    if f.readFails then None else ListIn(m)
  }

  function SnapshotIn(m: map<string, Value>, key: string): Option<Shipment>
  {
    if key in m && m[key].SnapshotValue? then Some(m[key].snapshot.shipment) else None
  }

  /** `getCachedShipmentDetails(id)`. */
  function StoredDetails(m: map<string, Value>, f: Faults, id: string): Option<Shipment>
  {
    if f.readFails then None else SnapshotIn(m, DetailsKey(id))
  }

  /** `getCachedBasicShipmentData(id)`. */
  function StoredBasic(m: map<string, Value>, f: Faults, id: string): Option<Shipment>
  {
    if f.readFails then None else SnapshotIn(m, BasicKey(id))
  }

  /** No cached list holds more than `MaxCachedShipments` shipments. */
  predicate ListCapped(m: map<string, Value>)
  {
    ListIn(m).Some? ==> |ListIn(m).value.shipments| <= MaxCachedShipments
  }

  // What the writers do.

  /** `shipments.slice(0, MAX_CACHED_SHIPMENTS)`. */
  function Cap(s: seq<Shipment>): (r: seq<Shipment>)
    ensures |r| <= MaxCachedShipments && |r| <= |s| && r == s[..|r|]
    ensures |r| == |s| || |r| == MaxCachedShipments
  {
    if |s| <= MaxCachedShipments then s else s[..MaxCachedShipments]
  }

  function Snapshot(s: Shipment, now: string): Value
  {
    SnapshotValue(CachedShipment(s, now))
  }

  /** The store after `cacheShipmentDetails(s)`. */
  function DetailsSpec(m: map<string, Value>, f: Faults, s: Shipment, now: string): map<string, Value>
  {
    Write(m, f, DetailsKey(IdText(s.id)), Snapshot(s, now))
  }

  /** The store after `cacheBasicShipmentData(s)`. */
  function BasicSpec(m: map<string, Value>, f: Faults, s: Shipment, now: string): map<string, Value>
  {
    Write(m, f, BasicKey(IdText(s.id)), Snapshot(s, now))
  }

  /** The basic snapshots written, in order, for each shipment of `ss`. */
  function WithBasics(m: map<string, Value>, ss: seq<Shipment>, now: string): map<string, Value>
    decreases |ss|
  {
    if ss == [] then m
    else WithBasics(m, ss[..|ss| - 1], now)[BasicKey(IdText(ss[|ss| - 1].id)) := Snapshot(ss[|ss| - 1], now)]
  }

  /** The store after `cacheShipments(xs, filterStatus)`: nothing when the list write throws. */
  function CacheShipmentsSpec(m: map<string, Value>, f: Faults, xs: seq<Shipment>, filterStatus: string, now: string): map<string, Value>
  {
    if f.writeFails then m
    else WithBasics(m[ShipmentsKey := ListValue(CachedShipments(Cap(xs), now, filterStatus))], Cap(xs), now)
  }

  /** The store after `clearCache()`: every cache key goes, every other key stays. */
  function ClearSpec(m: map<string, Value>, f: Faults): (m': map<string, Value>)
    ensures f.readFails || f.writeFails ==> m' == m
    ensures !f.readFails && !f.writeFails ==> forall k :: k in m' <==> k in m && !IsCacheKey(k)
    ensures forall k :: k in m' ==> k in m && m'[k] == m[k]
  {
    if f.readFails || f.writeFails then m else map k | k in m && !IsCacheKey(k) :: m[k]
  }

  method CacheShipments(store: Store, shipments: seq<Shipment>, filterStatus: string, now: string)
    modifies store`entries
    ensures store.entries == CacheShipmentsSpec(old(store.entries), store.faults, shipments, filterStatus, now)
  {
    var limited := Cap(shipments);
    var ok := store.SetItem(ShipmentsKey, ListValue(CachedShipments(limited, now, filterStatus)));
    if ok {
      ghost var listed := store.entries;
      var i := 0;
      while i < |limited|
        invariant 0 <= i <= |limited|
        invariant store.entries == WithBasics(listed, limited[..i], now)
      {
        CacheBasicShipmentData(store, limited[i], now);
        assert limited[..i + 1][..i] == limited[..i];
        i := i + 1;
      }
      assert limited[..|limited|] == limited;
    }
  }

  method GetCachedShipments(store: Store) returns (r: Option<CachedShipments>)
    ensures r == StoredList(store.entries, store.faults)
  {
    var stored := store.GetItem(ShipmentsKey);
    r := if stored.Some? && stored.value.ListValue? then Some(stored.value.list) else None;
  }

  method CacheShipmentDetails(store: Store, shipment: Shipment, now: string)
    modifies store`entries
    ensures store.entries == DetailsSpec(old(store.entries), store.faults, shipment, now)
  {
    var ok := store.SetItem(DetailsKey(IdText(shipment.id)), Snapshot(shipment, now));
  }

  method CacheBasicShipmentData(store: Store, shipment: Shipment, now: string)
    modifies store`entries
    ensures store.entries == BasicSpec(old(store.entries), store.faults, shipment, now)
  {
    var ok := store.SetItem(BasicKey(IdText(shipment.id)), Snapshot(shipment, now));
  }

  method GetCachedShipmentDetails(store: Store, id: string) returns (r: Option<Shipment>)
    ensures r == StoredDetails(store.entries, store.faults, id)
  {
    var stored := store.GetItem(DetailsKey(id));
    r := if stored.Some? && stored.value.SnapshotValue? then Some(stored.value.snapshot.shipment) else None;
  }

  method GetCachedBasicShipmentData(store: Store, id: string) returns (r: Option<Shipment>)
    ensures r == StoredBasic(store.entries, store.faults, id)
  {
    var stored := store.GetItem(BasicKey(id));
    r := if stored.Some? && stored.value.SnapshotValue? then Some(stored.value.snapshot.shipment) else None;
  }

  /** `!!cached`: any stored text counts, even text that would not parse as a list. */
  method HasCachedData(store: Store) returns (b: bool)
    ensures b <==> !store.faults.readFails && ShipmentsKey in store.entries
    ensures StoredList(store.entries, store.faults).Some? ==> b
  {
    var stored := store.GetItem(ShipmentsKey);
    b := stored.Some?;
  }

  method ClearCache(store: Store)
    modifies store`entries
    ensures store.entries == ClearSpec(old(store.entries), store.faults)
  {
    var keys := store.GetAllKeys();
    if keys.Some? {
      var cacheKeys := set k | k in keys.value && IsCacheKey(k);
      var ok := store.MultiRemove(cacheKeys);
    }
  }

  /** `getLastCacheUpdate()`: the time stamp of the cached list, absent exactly when no list is cached. */
  method GetLastCacheUpdate(store: Store) returns (r: Option<string>)
    ensures r.None? <==> StoredList(store.entries, store.faults).None?
    ensures r.Some? ==> r.value == StoredList(store.entries, store.faults).value.lastUpdated
  {
    var cached := GetCachedShipments(store);
    r := if cached.Some? then Some(cached.value.lastUpdated) else None;
  }

  // The shipment-shaped record synthesised from an offline payload.

  const UnknownName: string := "Неизвестно"
  const OfflineUserName: string := "Офлайн пользователь"
  const OfflineContractNumber: string := "Офлайн контракт"
  const OfflineCounterpartyName: string := "Офлайн контрагент"
  const OfflineStatus: Label := Label("Создано в офлайн: В пути", "in_transit")
  const OfflineRole: Label := Label("Офлайн", "offline")

  /** JavaScript's `s || fallback` on a string. */
  function Or(s: string, fallback: string): string
  {
    if s != "" then s else fallback
  }

  /** `xs.find(x => x.id === id)`; a `NaN` id (`None`) matches nothing. */
  function FindById<T>(xs: seq<T>, idOf: T -> int, id: Option<int>): (r: Option<T>)
    ensures r.None? <==> id.None? || forall i :: 0 <= i < |xs| ==> idOf(xs[i]) != id.value
    ensures r.Some? ==> exists i :: (0 <= i < |xs| && xs[i] == r.value && idOf(xs[i]) == id.value &&
      forall j :: 0 <= j < i ==> idOf(xs[j]) != id.value)
    ensures forall i :: (0 <= i < |xs| && id == Some(idOf(xs[i])) && forall j :: 0 <= j < i ==> idOf(xs[j]) != id.value) ==>
      r == Some(xs[i])
  {
    if id.None? || xs == [] then None
    else if idOf(xs[0]) == id.value then Some(xs[0])
    else
      var r := FindById(xs[1..], idOf, id);
      assert r.Some? ==> exists i :: (0 <= i < |xs| && xs[i] == r.value && idOf(xs[i]) == id.value &&
        forall j :: 0 <= j < i ==> idOf(xs[j]) != id.value) by {
        if r.Some? {
          var k :| 0 <= k < |xs[1..]| && xs[1..][k] == r.value && idOf(xs[1..][k]) == id.value &&
            forall j :: 0 <= j < k ==> idOf(xs[1..][j]) != id.value;
          assert xs[k + 1] == r.value;
          assert forall j :: 0 <= j < k + 1 ==> idOf(xs[j]) != id.value by {
            forall j | 0 <= j < k + 1 ensures idOf(xs[j]) != id.value {
              if j > 0 { assert xs[j] == xs[1..][j - 1]; }
            }
          }
        }
      }
      r
  }

  /** The user block: the given user with a fallback name, or the offline placeholder user. */
  function OfflineUser(user: Option<User>): User
  {
    match user
    case None => User(0, OfflineUserName, "", "", "", OfflineRole, true, None)
    case Some(u) => u.(name := Or(u.name, OfflineUserName))
  }

  /** The counterparty block: the user's counterparty with fallbacks; the bin comes from the payload first. */
  function OfflineCounterparty(payload: ShipmentRequest, user: Option<User>): Counterparty
  {
    var cp := if user.Some? then user.value.counterparty else None;
    Counterparty(
      if cp.Some? then cp.value.id else 0,
      if cp.Some? then cp.value.guid else "",
      Or(if cp.Some? then cp.value.name else "", OfflineCounterpartyName),
      Or(payload.counterpartyBin, if cp.Some? then cp.value.bin else ""),
      if cp.Some? then cp.value.isActive else true)
  }

  function ParseOptional(s: Option<string>): Option<int>
  {
    if s.Some? then ParseInt(s.value) else None
  }

  /** The record `addOfflineShipmentToCache` builds from a payload, the user and the dictionaries. */
  function BuildOfflineShipment(payload: ShipmentRequest, user: Option<User>, brands: seq<VehicleBrand>,
                                contracts: seq<Contract>, now: string): (r: Shipment)
    ensures r.id == payload.id && r.status == OfflineStatus && r.status.value == "in_transit"
    ensures r.vehicleBrand.id == IntOrZero(ParseOptional(payload.vehicleBrandId))
    ensures (forall i :: 0 <= i < |brands| ==> Some(brands[i].id) != ParseOptional(payload.vehicleBrandId)) ==>
      r.vehicleBrand.name == UnknownName
    ensures r.vehicleBrand.name == UnknownName || r.vehicleBrand.name in set b | b in brands :: b.name
    ensures (forall i :: 0 <= i < |contracts| ==> Some(contracts[i].id) != ParseInt(payload.contractId)) ==>
      r.contract.number == OfflineContractNumber
    ensures r.counterparty.bin == (if payload.counterpartyBin != "" then payload.counterpartyBin
      else if user.Some? && user.value.counterparty.Some? then user.value.counterparty.value.bin else "")
    ensures r.departureTime == Or(payload.departureTime, now)
    ensures r.estimatedArrivalTime == Or(payload.estimatedArrivalTime, now)
  {
    var brand := FindById(brands, (b: VehicleBrand) => b.id, ParseOptional(payload.vehicleBrandId));
    var contract := FindById(contracts, (c: Contract) => c.id, ParseInt(payload.contractId));
    Shipment(
      payload.id,
      payload.driverInfo,
      payload.vehicleNumber,
      VehicleBrand(IntOrZero(ParseOptional(payload.vehicleBrandId)), Or(if brand.Some? then brand.value.name else "", UnknownName)),
      OfflineUser(user),
      Contract(
        IntOrZero(ParseInt(payload.contractId)),
        "",
        Or(if contract.Some? then contract.value.number else "", OfflineContractNumber),
        if contract.Some? then contract.value.startDate else "",
        if contract.Some? then contract.value.endDate else "",
        true),
      OfflineCounterparty(payload, user),
      Product(IntOrZero(ParseOptional(payload.productId)), UnknownName),
      Or(payload.departureTime, now),
      Or(payload.estimatedArrivalTime, now),
      OfflineStatus,
      true)
  }

  /** A brand matching the payload's brand id, with none before it, names the record's brand (`Неизвестно` if its name is empty). */
  lemma OfflineBrandName(payload: ShipmentRequest, user: Option<User>, brands: seq<VehicleBrand>,
                         contracts: seq<Contract>, now: string, i: nat)
    requires i < |brands| && Some(brands[i].id) == ParseOptional(payload.vehicleBrandId)
    requires forall j :: 0 <= j < i ==> Some(brands[j].id) != ParseOptional(payload.vehicleBrandId)
    ensures BuildOfflineShipment(payload, user, brands, contracts, now).vehicleBrand.name == Or(brands[i].name, UnknownName)
  {
    var brand := FindById(brands, (b: VehicleBrand) => b.id, ParseOptional(payload.vehicleBrandId));
    assert brand == Some(brands[i]);
  }

  /** A contract matching the payload's contract id, with none before it, numbers the record's contract. */
  lemma OfflineContractNumberOf(payload: ShipmentRequest, user: Option<User>, brands: seq<VehicleBrand>,
                                contracts: seq<Contract>, now: string, i: nat)
    requires i < |contracts| && Some(contracts[i].id) == ParseInt(payload.contractId)
    requires forall j :: 0 <= j < i ==> Some(contracts[j].id) != ParseInt(payload.contractId)
    ensures BuildOfflineShipment(payload, user, brands, contracts, now).contract.number == Or(contracts[i].number, OfflineContractNumber)
  {
    var contract := FindById(contracts, (c: Contract) => c.id, ParseInt(payload.contractId));
    assert contract == Some(contracts[i]);
  }

  /** The list `addOfflineShipmentToCache` stores: prepend to the cached list and re-cap, or start a new one. */
  function OfflineList(cached: Option<CachedShipments>, s: Shipment, now: string): CachedShipments
  {
    if cached.Some? then CachedShipments(Cap([s] + cached.value.shipments), now, cached.value.filterStatus)
    else CachedShipments([s], now, "")
  }

  /** The store after `addOfflineShipmentToCache(payload, user)`. */
  function AddToCacheSpec(m: map<string, Value>, f: Faults, payload: ShipmentRequest, user: Option<User>, now: string): map<string, Value>
  {
    var s := BuildOfflineShipment(payload, user, OfflineStorage.StoredBrands(m, f), OfflineStorage.StoredContracts(m, f), now);
    if f.writeFails then m
    else m[ShipmentsKey := ListValue(OfflineList(StoredList(m, f), s, now))][BasicKey(IdText(s.id)) := Snapshot(s, now)]
  }

  /** Unlike the other writers, a failed list write is reported to the caller (`throw error`). */
  method AddOfflineShipmentToCache(store: Store, payload: ShipmentRequest, user: Option<User>, now: string)
    returns (r: Outcome<StorageError>)
    modifies store`entries
    ensures r == if store.faults.writeFails then Fail(WriteRejected) else Pass
    ensures store.entries == AddToCacheSpec(old(store.entries), store.faults, payload, user, now)
  {
    ghost var before := store.entries;
    var cached := GetCachedShipments(store);
    var brands := OfflineStorage.GetVehicleBrands(store);
    var contracts := OfflineStorage.GetContracts(store);
    var shipment := BuildOfflineShipment(payload, user, brands, contracts, now);
    assert shipment == BuildOfflineShipment(payload, user, OfflineStorage.StoredBrands(before, store.faults),
      OfflineStorage.StoredContracts(before, store.faults), now);
    var ok := store.SetItem(ShipmentsKey, ListValue(OfflineList(cached, shipment, now)));
    if !ok {
      return Fail(WriteRejected);
    }
    CacheBasicShipmentData(store, shipment, now);
    r := Pass;
  }

  // Properties of the cache.

  /** Writing basic snapshots leaves every other key alone. */
  lemma {:induction false} WithBasicsOther(m: map<string, Value>, ss: seq<Shipment>, now: string, k: string)
    requires forall i :: 0 <= i < |ss| ==> k != BasicKey(IdText(ss[i].id))
    ensures k in WithBasics(m, ss, now) <==> k in m
    ensures k in m ==> WithBasics(m, ss, now)[k] == m[k]
    decreases |ss|
  {
    if ss != [] {
      WithBasicsOther(m, ss[..|ss| - 1], now, k);
    }
  }

  /**
   * After writing basic snapshots for `ss`, each shipment's key holds a snapshot of a shipment of
   * `ss` with the same id, written at `now`; it is that very shipment unless a later one shares its id.
   */
  lemma {:induction false} WithBasicsHas(m: map<string, Value>, ss: seq<Shipment>, now: string, i: nat)
    requires i < |ss|
    ensures BasicKey(IdText(ss[i].id)) in WithBasics(m, ss, now)
    ensures var v := WithBasics(m, ss, now)[BasicKey(IdText(ss[i].id))];
      v.SnapshotValue? && v.snapshot.lastUpdated == now && v.snapshot.shipment in ss &&
      IdText(v.snapshot.shipment.id) == IdText(ss[i].id)
    ensures (forall j :: i < j < |ss| ==> IdText(ss[j].id) != IdText(ss[i].id)) ==>
      WithBasics(m, ss, now)[BasicKey(IdText(ss[i].id))] == Snapshot(ss[i], now)
    decreases |ss|
  {
    var last := |ss| - 1;
    if i < last {
      var front := ss[..last];
      WithBasicsHas(m, front, now, i);
      if BasicKey(IdText(ss[last].id)) == BasicKey(IdText(ss[i].id)) {
        BasicKeyInjective(IdText(ss[last].id), IdText(ss[i].id));
      } else {
        assert front[i] == ss[i];
        assert forall s :: s in front ==> s in ss;
      }
    }
  }

  /** After `cacheShipments(xs, filterStatus)` on a working store, the list is the first `min(|xs|, 20)` of `xs`. */
  lemma CachedListAfterCacheShipments(m: map<string, Value>, f: Faults, xs: seq<Shipment>, filterStatus: string, now: string)
    requires !f.readFails && !f.writeFails
    ensures StoredList(CacheShipmentsSpec(m, f, xs, filterStatus, now), f) ==
      Some(CachedShipments(xs[..if |xs| < MaxCachedShipments then |xs| else MaxCachedShipments], now, filterStatus))
  {
    var listed := m[ShipmentsKey := ListValue(CachedShipments(Cap(xs), now, filterStatus))];
    forall i | 0 <= i < |Cap(xs)| ensures ShipmentsKey != BasicKey(IdText(Cap(xs)[i].id)) {
      KeysApart(IdText(Cap(xs)[i].id), "");
    }
    WithBasicsOther(listed, Cap(xs), now, ShipmentsKey);
  }

  /**
   * After `cacheShipments(xs, ...)` on a working store, every kept shipment has a basic entry
   * with its id; the basic entry of an id that no kept shipment has is left as it was, so
   * shipments past the twentieth get none from this call.
   */
  lemma BasicEntriesAfterCacheShipments(m: map<string, Value>, f: Faults, xs: seq<Shipment>, filterStatus: string, now: string)
    requires !f.readFails && !f.writeFails
    ensures forall i :: 0 <= i < |xs| && i < MaxCachedShipments ==>
      var b := StoredBasic(CacheShipmentsSpec(m, f, xs, filterStatus, now), f, IdText(xs[i].id));
      b.Some? && IdText(b.value.id) == IdText(xs[i].id)
    ensures forall id :: (forall i :: 0 <= i < |xs| && i < MaxCachedShipments ==> IdText(xs[i].id) != id) ==>
      StoredBasic(CacheShipmentsSpec(m, f, xs, filterStatus, now), f, id) == StoredBasic(m, f, id)
  {
    var kept := Cap(xs);
    var listed := m[ShipmentsKey := ListValue(CachedShipments(kept, now, filterStatus))];
    forall i | 0 <= i < |xs| && i < MaxCachedShipments
      ensures var b := StoredBasic(CacheShipmentsSpec(m, f, xs, filterStatus, now), f, IdText(xs[i].id));
        b.Some? && IdText(b.value.id) == IdText(xs[i].id)
    {
      assert kept[i] == xs[i];
      WithBasicsHas(listed, kept, now, i);
    }
    forall id | (forall i :: 0 <= i < |xs| && i < MaxCachedShipments ==> IdText(xs[i].id) != id)
      ensures StoredBasic(CacheShipmentsSpec(m, f, xs, filterStatus, now), f, id) == StoredBasic(m, f, id)
    {
      forall i | 0 <= i < |kept| ensures BasicKey(id) != BasicKey(IdText(kept[i].id)) {
        assert kept[i] == xs[i];
        if BasicKey(id) == BasicKey(IdText(kept[i].id)) {
          BasicKeyInjective(id, IdText(kept[i].id));
        }
      }
      WithBasicsOther(listed, kept, now, BasicKey(id));
      KeysApart(id, "");
    }
  }

  /** `cacheShipments` writes no details snapshot: every id's details read the same afterwards. */
  lemma DetailsUntouchedByCacheShipments(m: map<string, Value>, f: Faults, xs: seq<Shipment>, filterStatus: string, now: string, id: string)
    ensures StoredDetails(CacheShipmentsSpec(m, f, xs, filterStatus, now), f, id) == StoredDetails(m, f, id)
  {
    if !f.writeFails {
      var kept := Cap(xs);
      var listed := m[ShipmentsKey := ListValue(CachedShipments(kept, now, filterStatus))];
      forall i | 0 <= i < |kept| ensures DetailsKey(id) != BasicKey(IdText(kept[i].id)) {
        KeysApart(IdText(kept[i].id), id);
      }
      WithBasicsOther(listed, kept, now, DetailsKey(id));
      KeysApart("", id);
    }
  }

  /**
   * `getCachedShipmentDetails(id)` returns the shipment last written by `cacheShipmentDetails`
   * for that id; the details of every other id, every basic snapshot and the list are untouched.
   */
  lemma DetailsRoundTrip(m: map<string, Value>, f: Faults, s: Shipment, now: string)
    requires !f.readFails && !f.writeFails
    ensures StoredDetails(DetailsSpec(m, f, s, now), f, IdText(s.id)) == Some(s)
    ensures forall id :: id != IdText(s.id) ==> StoredDetails(DetailsSpec(m, f, s, now), f, id) == StoredDetails(m, f, id)
    ensures forall id :: StoredBasic(DetailsSpec(m, f, s, now), f, id) == StoredBasic(m, f, id)
    ensures StoredList(DetailsSpec(m, f, s, now), f) == StoredList(m, f)
  {
    forall id | id != IdText(s.id)
      ensures StoredDetails(DetailsSpec(m, f, s, now), f, id) == StoredDetails(m, f, id)
    {
      if DetailsKey(id) == DetailsKey(IdText(s.id)) {
        DetailsKeyInjective(id, IdText(s.id));
      }
    }
    forall id ensures StoredBasic(DetailsSpec(m, f, s, now), f, id) == StoredBasic(m, f, id) {
      KeysApart(id, IdText(s.id));
    }
    KeysApart("", IdText(s.id));
  }

  /** The same round trip for `cacheBasicShipmentData` and `getCachedBasicShipmentData`. */
  lemma BasicRoundTrip(m: map<string, Value>, f: Faults, s: Shipment, now: string)
    requires !f.readFails && !f.writeFails
    ensures StoredBasic(BasicSpec(m, f, s, now), f, IdText(s.id)) == Some(s)
    ensures forall id :: id != IdText(s.id) ==> StoredBasic(BasicSpec(m, f, s, now), f, id) == StoredBasic(m, f, id)
    ensures forall id :: StoredDetails(BasicSpec(m, f, s, now), f, id) == StoredDetails(m, f, id)
    ensures StoredList(BasicSpec(m, f, s, now), f) == StoredList(m, f)
  {
    forall id | id != IdText(s.id)
      ensures StoredBasic(BasicSpec(m, f, s, now), f, id) == StoredBasic(m, f, id)
    {
      if BasicKey(id) == BasicKey(IdText(s.id)) {
        BasicKeyInjective(id, IdText(s.id));
      }
    }
    forall id ensures StoredDetails(BasicSpec(m, f, s, now), f, id) == StoredDetails(m, f, id) {
      KeysApart(IdText(s.id), id);
    }
    KeysApart(IdText(s.id), "");
  }

  /**
   * `clearCache()` on a working store leaves no list, no details and no basic snapshot, while
   * the offline queue and both dictionaries are kept as they were.
   */
  lemma ClearCacheEffect(m: map<string, Value>, f: Faults)
    requires !f.readFails && !f.writeFails
    ensures StoredList(ClearSpec(m, f), f) == None
    ensures forall id :: StoredDetails(ClearSpec(m, f), f, id) == None && StoredBasic(ClearSpec(m, f), f, id) == None
    ensures OfflineStorage.StoredQueue(ClearSpec(m, f), f) == OfflineStorage.StoredQueue(m, f)
    ensures OfflineStorage.StoredBrands(ClearSpec(m, f), f) == OfflineStorage.StoredBrands(m, f)
    ensures OfflineStorage.StoredContracts(ClearSpec(m, f), f) == OfflineStorage.StoredContracts(m, f)
  {
    KeysApart("", "");
    forall id ensures StoredDetails(ClearSpec(m, f), f, id) == None && StoredBasic(ClearSpec(m, f), f, id) == None {
      KeysApart(id, id);
    }
    StorageKeysAreNotCacheKeys();
  }

  /**
   * `addOfflineShipmentToCache` on a working store that holds a list: the new list is the
   * synthesised record followed by the old list, cut to 20, under the old filter, and the
   * record gets a basic snapshot.
   */
  lemma AddToCacheWithList(m: map<string, Value>, f: Faults, payload: ShipmentRequest, user: Option<User>, now: string)
    requires !f.readFails && !f.writeFails && StoredList(m, f).Some?
    ensures var s := BuildOfflineShipment(payload, user, OfflineStorage.StoredBrands(m, f), OfflineStorage.StoredContracts(m, f), now);
      var old_ := StoredList(m, f).value;
      && StoredList(AddToCacheSpec(m, f, payload, user, now), f) ==
           Some(CachedShipments(([s] + old_.shipments)[..if |old_.shipments| < MaxCachedShipments then |old_.shipments| + 1 else MaxCachedShipments],
                                now, old_.filterStatus))
      && StoredBasic(AddToCacheSpec(m, f, payload, user, now), f, IdText(payload.id)) == Some(s)
  {
    KeysApart(IdText(payload.id), "");
  }

  /** Without a cached list, the new list holds the synthesised record alone, under the empty filter. */
  lemma AddToCacheWithoutList(m: map<string, Value>, f: Faults, payload: ShipmentRequest, user: Option<User>, now: string)
    requires !f.readFails && !f.writeFails && StoredList(m, f).None?
    ensures var s := BuildOfflineShipment(payload, user, OfflineStorage.StoredBrands(m, f), OfflineStorage.StoredContracts(m, f), now);
      && StoredList(AddToCacheSpec(m, f, payload, user, now), f) == Some(CachedShipments([s], now, ""))
      && StoredBasic(AddToCacheSpec(m, f, payload, user, now), f, IdText(payload.id)) == Some(s)
  {
    KeysApart(IdText(payload.id), "");
  }

  /** Every cache writer keeps the list within its cap. */
  lemma CacheShipmentsKeepsCap(m: map<string, Value>, f: Faults, xs: seq<Shipment>, filterStatus: string, now: string)
    requires ListCapped(m)
    ensures ListCapped(CacheShipmentsSpec(m, f, xs, filterStatus, now))
  {
    if !f.writeFails {
      var listed := m[ShipmentsKey := ListValue(CachedShipments(Cap(xs), now, filterStatus))];
      forall i | 0 <= i < |Cap(xs)| ensures ShipmentsKey != BasicKey(IdText(Cap(xs)[i].id)) {
        KeysApart(IdText(Cap(xs)[i].id), "");
      }
      WithBasicsOther(listed, Cap(xs), now, ShipmentsKey);
    }
  }

  lemma SnapshotWritersKeepCap(m: map<string, Value>, f: Faults, s: Shipment, now: string)
    requires ListCapped(m)
    ensures ListCapped(DetailsSpec(m, f, s, now)) && ListCapped(BasicSpec(m, f, s, now))
    ensures ListCapped(ClearSpec(m, f))
  {
    KeysApart(IdText(s.id), IdText(s.id));
  }

  lemma AddToCacheKeepsCap(m: map<string, Value>, f: Faults, payload: ShipmentRequest, user: Option<User>, now: string)
    requires ListCapped(m)
    ensures ListCapped(AddToCacheSpec(m, f, payload, user, now))
  {
    KeysApart(IdText(payload.id), "");
  }
}
