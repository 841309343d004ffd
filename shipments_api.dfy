/**
 * The read path of src/api/shipments-api.ts: `getShipments`, `getShipment` and the best-effort
 * `cacheAllShipments`. Each read is a decision over the connectivity probe, the server's reply
 * and the cache, stated as a pure answer function and a pure store function; the methods are
 * proved to return that answer and leave that store.
 */
module ShipmentsApi {
  import opened Wrappers
  import opened Types
  import opened Storage
  import opened CacheUtils

  /** The two flags of `NetInfo.fetch()`; `None` stands for `null`. */
  datatype NetInfo = NetInfo(isConnected: Option<bool>, isInternetReachable: Option<bool>)

  /** Whatever a rejected promise carries; it is handed back to the caller untouched. */
  datatype Failure = Failure(description: string)

  /** The reply to `GET /shipments[?status=...]`. */
  datatype ListReply = ListOk(shipments: seq<Shipment>) | ListError(error: Failure)

  /** The reply to `GET /shipments/{id}`: a body with or without a shipment, or an error. */
  datatype ItemReply = ItemOk(shipment: Option<Shipment>) | ItemError(error: Failure)

  /** `netInfo.isConnected && netInfo.isInternetReachable`: only two `true`s count. */
  predicate IsOnline(net: NetInfo)
  {
    net.isConnected == Some(true) && net.isInternetReachable == Some(true)
  }

  /** The URL `getShipments(status)` requests: the status is appended only when it is a non-empty string. */
  function ShipmentsUrl(status: Option<string>): (url: string)
    ensures status.None? || status == Some("") ==> url == "/shipments"
    ensures status.Some? && status.value != "" ==> url == "/shipments?status=" + status.value
  {
    if status.Some? && status.value != "" then "/shipments?status=" + status.value else "/shipments"
  }

  /** Different requested filters give different URLs, except that no filter and the empty filter coincide. */
  lemma ShipmentsUrlDistinguishesFilters(a: Option<string>, b: Option<string>)
    requires ShipmentsUrl(a) == ShipmentsUrl(b)
    ensures a == b || ((a.None? || a == Some("")) && (b.None? || b == Some("")))
  {
    var prefix := "/shipments?status=";
    if a.Some? && a.value != "" && b.Some? && b.value != "" {
      assert a.value == ShipmentsUrl(a)[|prefix|..];
      assert b.value == ShipmentsUrl(b)[|prefix|..];
    }
  }

  /** The `filterStatus` the list is cached under: `cacheShipments`' default `''` replaces `undefined`. */
  function FilterOf(status: Option<string>): string
  {
    if status.Some? then status.value else ""
  }

  // cacheAllShipments

  /** The store after `cacheAllShipments()`: an unfiltered list is cached when the server answers. */
  function CacheAllSpec(m: map<string, Value>, f: Faults, allReply: ListReply, now: string): map<string, Value>
  {
    if allReply.ListOk? then CacheShipmentsSpec(m, f, allReply.shipments, "", now) else m
  }

  method CacheAllShipments(store: Store, allReply: ListReply, now: string)
    modifies store`entries
    ensures store.entries == CacheAllSpec(old(store.entries), store.faults, allReply, now)
  {
    if allReply.ListOk? {
      CacheShipments(store, allReply.shipments, "", now);
    }
  }

  // getShipments

  /** The cached list's shipments, as the fallback branches read them. */
  function CachedShipmentsOf(m: map<string, Value>, f: Faults): Option<seq<Shipment>>
  {
    var cached := StoredList(m, f);
    if cached.Some? then Some(cached.value.shipments) else None
  }

  /** The `catch` branch: the cached list if there is one, else the original error. */
  function ListFallback(m: map<string, Value>, f: Faults, error: Failure): Result<seq<Shipment>, Failure>
  {
    var cached := CachedShipmentsOf(m, f);
    if cached.Some? then Ok(cached.value) else Err(error)
  }

  /** What `getShipments(status)` resolves or rejects with. */
  function ShipmentsAnswer(m: map<string, Value>, f: Faults, net: Result<NetInfo, Failure>, reply: ListReply): Result<seq<Shipment>, Failure>
  {
    match net
    case Err(e) => ListFallback(m, f, e)
    case Ok(info) =>
      if !IsOnline(info) then
        var cached := CachedShipmentsOf(m, f);
        Ok(if cached.Some? then cached.value else [])
      else if reply.ListOk? then Ok(reply.shipments)
      else ListFallback(m, f, reply.error)
  }

  /** The store after `getShipments(status)`: written through only on an online success. */
  function ShipmentsEffect(m: map<string, Value>, f: Faults, net: Result<NetInfo, Failure>, status: Option<string>,
                           reply: ListReply, allReply: ListReply, now: string): map<string, Value>
  {
    if net.Ok? && IsOnline(net.value) && reply.ListOk? then
      var cached := CacheShipmentsSpec(m, f, reply.shipments, FilterOf(status), now);
      if status == Some("") then CacheAllSpec(cached, f, allReply, now) else cached
    else m
  }

  method GetShipments(store: Store, net: Result<NetInfo, Failure>, status: Option<string>,
                      reply: ListReply, allReply: ListReply, now: string)
    returns (r: Result<seq<Shipment>, Failure>)
    modifies store`entries
    ensures r == ShipmentsAnswer(old(store.entries), store.faults, net, reply)
    ensures store.entries == ShipmentsEffect(old(store.entries), store.faults, net, status, reply, allReply, now)
  {
    var failure: Option<Failure> := None;
    if net.Err? {
      failure := Some(net.error);
    } else if IsOnline(net.value) {
      if reply.ListOk? {
        CacheShipments(store, reply.shipments, FilterOf(status), now);
        if status == Some("") {
          CacheAllShipments(store, allReply, now);
        }
        return Ok(reply.shipments);
      }
      failure := Some(reply.error);
    } else {
      var cached := GetCachedShipments(store);
      return Ok(if cached.Some? then cached.value.shipments else []);
    }
    var cached := GetCachedShipments(store);
    if cached.Some? {
      return Ok(cached.value.shipments);
    }
    return Err(failure.value);
  }

  // getShipment

  /** The cache lookup of both fallback branches: details first, then basic data. */
  function CachedShipmentFor(m: map<string, Value>, f: Faults, id: string): Option<Shipment>
  {
    var details := StoredDetails(m, f, id);
    if details.Some? then details else StoredBasic(m, f, id)
  }

  /** What `getShipment(id)` resolves or rejects with. */
  function ShipmentAnswer(m: map<string, Value>, f: Faults, net: Result<NetInfo, Failure>, id: string, reply: ItemReply): Result<Option<Shipment>, Failure>
  {
    match net
    case Err(e) => ItemFallback(m, f, id, e)
    case Ok(info) =>
      if !IsOnline(info) then Ok(CachedShipmentFor(m, f, id))
      else if reply.ItemOk? then Ok(reply.shipment)
      else ItemFallback(m, f, id, reply.error)
  }

  /** The `catch` branch: the cached shipment if there is one, else the original error. */
  function ItemFallback(m: map<string, Value>, f: Faults, id: string, error: Failure): Result<Option<Shipment>, Failure>
  {
    var cached := CachedShipmentFor(m, f, id);
    if cached.Some? then Ok(cached) else Err(error)
  }

  /** The store after `getShipment(id)`: the details of a shipment the server returned are cached. */
  function ShipmentEffect(m: map<string, Value>, f: Faults, net: Result<NetInfo, Failure>, reply: ItemReply, now: string): map<string, Value>
  {
    if net.Ok? && IsOnline(net.value) && reply.ItemOk? && reply.shipment.Some? then
      DetailsSpec(m, f, reply.shipment.value, now)
    else m
  }

  method GetShipment(store: Store, net: Result<NetInfo, Failure>, id: string, reply: ItemReply, now: string)
    returns (r: Result<Option<Shipment>, Failure>)
    modifies store`entries
    ensures r == ShipmentAnswer(old(store.entries), store.faults, net, id, reply)
    ensures store.entries == ShipmentEffect(old(store.entries), store.faults, net, reply, now)
  {
    var failure: Option<Failure> := None;
    if net.Err? {
      failure := Some(net.error);
    } else if IsOnline(net.value) {
      if reply.ItemOk? {
        if reply.shipment.Some? {
          CacheShipmentDetails(store, reply.shipment.value, now);
          return Ok(reply.shipment);
        }
        return Ok(None);
      }
      failure := Some(reply.error);
    } else {
      var detailed := GetCachedShipmentDetails(store, id);
      if detailed.Some? {
        return Ok(detailed);
      }
      var basic := GetCachedBasicShipmentData(store, id);
      return Ok(basic);
    }
    var detailed := GetCachedShipmentDetails(store, id);
    if detailed.Some? {
      return Ok(detailed);
    }
    var basic := GetCachedBasicShipmentData(store, id);
    if basic.Some? {
      return Ok(basic);
    }
    return Err(failure.value);
  }

  // Properties of the read path.

  /**
   * Offline (or with either flag false or null), the server reply plays no part, the store is not
   * written, and `getShipments` resolves with the cached list whatever its filter, or with `[]`.
   */
  lemma ShipmentsOffline(m: map<string, Value>, f: Faults, info: NetInfo, status: Option<string>,
                         reply: ListReply, other: ListReply, allReply: ListReply, now: string)
    requires !IsOnline(info)
    ensures ShipmentsAnswer(m, f, Ok(info), reply) == ShipmentsAnswer(m, f, Ok(info), other)
    ensures ShipmentsEffect(m, f, Ok(info), status, reply, allReply, now) == m
    ensures StoredList(m, f).Some? ==> ShipmentsAnswer(m, f, Ok(info), reply) == Ok(StoredList(m, f).value.shipments)
    ensures StoredList(m, f).None? ==> ShipmentsAnswer(m, f, Ok(info), reply) == Ok([])
  {
  }

  /**
   * Online success on a healthy store: the answer is the server's list unchanged and a later
   * read of the cache finds its first twenty shipments, under the requested filter; when the
   * filter is exactly `''` and the unfiltered refresh succeeds, the refreshed list replaces it.
   */
  lemma ShipmentsWriteThrough(m: map<string, Value>, f: Faults, info: NetInfo, status: Option<string>,
                              xs: seq<Shipment>, allReply: ListReply, now: string)
    requires IsOnline(info) && !f.readFails && !f.writeFails
    ensures ShipmentsAnswer(m, f, Ok(info), ListOk(xs)) == Ok(xs)
    ensures var m' := ShipmentsEffect(m, f, Ok(info), status, ListOk(xs), allReply, now);
      && (status != Some("") || allReply.ListError? ==> StoredList(m', f) == Some(CachedShipments(Cap(xs), now, FilterOf(status))))
      && (status == Some("") && allReply.ListOk? ==> StoredList(m', f) == Some(CachedShipments(Cap(allReply.shipments), now, "")))
  {
    CachedListAfterCacheShipments(m, f, xs, FilterOf(status), now);
    if status == Some("") && allReply.ListOk? {
      var m1 := CacheShipmentsSpec(m, f, xs, FilterOf(status), now);
      CachedListAfterCacheShipments(m1, f, allReply.shipments, "", now);
    }
  }

  /**
   * The unfiltered refresh is best effort. Its outcome cannot change what `getShipments` answers,
   * since `ShipmentsAnswer` does not take the refresh's reply; the first clause only records that
   * an online success answers with the server's list. The second clause is the substance: unless
   * the status is exactly `''`, the refresh's reply does not touch the store either.
   */
  lemma CacheAllNeverSurfaces(m: map<string, Value>, f: Faults, info: NetInfo, status: Option<string>,
                              xs: seq<Shipment>, allReply: ListReply, other: ListReply, now: string)
    requires IsOnline(info)
    ensures ShipmentsAnswer(m, f, Ok(info), ListOk(xs)) == Ok(xs)
    ensures status != Some("") ==>
      ShipmentsEffect(m, f, Ok(info), status, ListOk(xs), allReply, now) == ShipmentsEffect(m, f, Ok(info), status, ListOk(xs), other, now)
  {
  }

  /**
   * When the probe or the online request throws, `getShipments` answers from the cache if it
   * holds a list, and otherwise rejects with the original error; nothing is written.
   */
  lemma ShipmentsOnError(m: map<string, Value>, f: Faults, net: Result<NetInfo, Failure>, status: Option<string>,
                         reply: ListReply, allReply: ListReply, now: string)
    requires net.Err? || (IsOnline(net.value) && reply.ListError?)
    ensures var e := if net.Err? then net.error else reply.error;
      ShipmentsAnswer(m, f, net, reply) == (if StoredList(m, f).Some? then Ok(StoredList(m, f).value.shipments) else Err(e))
    ensures ShipmentsEffect(m, f, net, status, reply, allReply, now) == m
  {
  }

  /** A list read online with a non-empty or absent filter is what a later offline read returns, capped at twenty. */
  lemma OnlineThenOfflineList(m: map<string, Value>, f: Faults, online: NetInfo, offline: NetInfo, status: Option<string>,
                              xs: seq<Shipment>, allReply: ListReply, later: ListReply, now: string)
    requires IsOnline(online) && !IsOnline(offline) && !f.readFails && !f.writeFails && status != Some("")
    ensures ShipmentsAnswer(ShipmentsEffect(m, f, Ok(online), status, ListOk(xs), allReply, now), f, Ok(offline), later) == Ok(Cap(xs))
  {
    ShipmentsWriteThrough(m, f, online, status, xs, allReply, now);
  }

  /**
   * Offline, `getShipment` never rejects: it answers with the details snapshot, else the basic
   * snapshot, else null, and writes nothing.
   */
  lemma ShipmentOffline(m: map<string, Value>, f: Faults, info: NetInfo, id: string, reply: ItemReply, now: string)
    requires !IsOnline(info)
    ensures ShipmentAnswer(m, f, Ok(info), id, reply).Ok?
    ensures StoredDetails(m, f, id).Some? ==> ShipmentAnswer(m, f, Ok(info), id, reply) == Ok(StoredDetails(m, f, id))
    ensures StoredDetails(m, f, id).None? ==> ShipmentAnswer(m, f, Ok(info), id, reply) == Ok(StoredBasic(m, f, id))
    ensures ShipmentEffect(m, f, Ok(info), reply, now) == m
  {
  }

  /**
   * When the probe or the online request throws, `getShipment` answers with the details
   * snapshot, else the basic snapshot, else rejects with the original error.
   */
  lemma ShipmentOnError(m: map<string, Value>, f: Faults, net: Result<NetInfo, Failure>, id: string, reply: ItemReply, now: string)
    requires net.Err? || (IsOnline(net.value) && reply.ItemError?)
    ensures var e := if net.Err? then net.error else reply.error;
      ShipmentAnswer(m, f, net, id, reply) ==
        if StoredDetails(m, f, id).Some? then Ok(StoredDetails(m, f, id))
        else if StoredBasic(m, f, id).Some? then Ok(StoredBasic(m, f, id))
        else Err(e)
    ensures ShipmentEffect(m, f, net, reply, now) == m
  {
  }

  /**
   * Online, a returned shipment is answered and cached as details under its own id, so a later
   * offline `getShipment` of that id finds it; a body without a shipment answers null and writes nothing.
   */
  lemma ShipmentWriteThrough(m: map<string, Value>, f: Faults, online: NetInfo, offline: NetInfo, s: Shipment,
                             later: ItemReply, now: string)
    requires IsOnline(online) && !IsOnline(offline) && !f.readFails && !f.writeFails
    ensures ShipmentAnswer(m, f, Ok(online), IdText(s.id), ItemOk(Some(s))) == Ok(Some(s))
    ensures ShipmentAnswer(ShipmentEffect(m, f, Ok(online), ItemOk(Some(s)), now), f, Ok(offline), IdText(s.id), later) == Ok(Some(s))
    ensures ShipmentAnswer(m, f, Ok(online), IdText(s.id), ItemOk(None)) == Ok(None)
    ensures ShipmentEffect(m, f, Ok(online), ItemOk(None), now) == m
  {
    DetailsRoundTrip(m, f, s, now);
  }

  /** The basic snapshot written by a list read serves an offline `getShipment` when no details are cached. */
  lemma BasicServesOfflineDetails(m: map<string, Value>, f: Faults, online: NetInfo, offline: NetInfo, status: Option<string>,
                                  xs: seq<Shipment>, i: nat, allReply: ListReply, later: ItemReply, now: string)
    requires IsOnline(online) && !IsOnline(offline) && !f.readFails && !f.writeFails
    requires status != Some("") && i < |xs| && i < MaxCachedShipments
    requires StoredDetails(m, f, IdText(xs[i].id)).None?
    ensures var m' := ShipmentsEffect(m, f, Ok(online), status, ListOk(xs), allReply, now);
      var answer := ShipmentAnswer(m', f, Ok(offline), IdText(xs[i].id), later);
      answer.Ok? && answer.value.Some? && IdText(answer.value.value.id) == IdText(xs[i].id)
  {
    var filter := FilterOf(status);
    BasicEntriesAfterCacheShipments(m, f, xs, filter, now);
    DetailsUntouchedByCacheShipments(m, f, xs, filter, now, IdText(xs[i].id));
  }

  /** After the cache is cleared, offline reads find nothing: an empty list and a null shipment. */
  lemma OfflineAfterClear(m: map<string, Value>, f: Faults, info: NetInfo, id: string, reply: ListReply, item: ItemReply)
    requires !IsOnline(info) && !f.readFails && !f.writeFails
    ensures ShipmentsAnswer(ClearSpec(m, f), f, Ok(info), reply) == Ok([])
    ensures ShipmentAnswer(ClearSpec(m, f), f, Ok(info), id, item) == Ok(None)
  {
    ClearCacheEffect(m, f);
  }
}
