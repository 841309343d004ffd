/**
 * The background synchronisation of the offline queue (src/services/offline-sync.ts).
 * One pass submits every pending or failed entry in queue order, removes the entries the
 * server accepted, marks the others failed, notifies the subscribers and clears the read cache.
 * The server is an oracle: `respond(k)` is its reply to the k-th submission of the pass.
 */
module OfflineSync {
  import opened Wrappers
  import opened Types
  import opened Storage
  import opened OfflineStorage
  import CacheUtils

  /** What `shipmentsApi.createShipment` does with one submission: resolve, or throw (with the HTTP status, if any). */
  datatype Reply = Accepted | Rejected(status: Option<int>)

  /**
   * A subscriber of `addSyncCompleteCallback`, known by its handle. Whether calling it raises is
   * not recorded: `notifySyncComplete` wraps each call in its own `try`/`catch`, so a raising
   * subscriber is called like any other and the next one is called after it.
   */
  datatype Callback = Callback(handle: nat)

  /** The entries a pass submits: `status === 'pending' || status === 'failed'`. */
  predicate IsCandidate(e: OfflineShipment)
  {
    e.status == Pending || e.status == Failed
  }

  /** The queue filtered to its candidates, in queue order. */
  function Candidates(q: seq<OfflineShipment>): (r: seq<OfflineShipment>)
    ensures |r| <= |q|
    ensures forall e :: e in r <==> e in q && IsCandidate(e)
  {
    if q == [] then []
    else if IsCandidate(q[0]) then [q[0]] + Candidates(q[1..])
    else Candidates(q[1..])
  }

  lemma {:induction false} CandidatesAppend(a: seq<OfflineShipment>, b: seq<OfflineShipment>)
    ensures Candidates(a + b) == Candidates(a) + Candidates(b)
  {
    if a == [] {
      assert a + b == b;
    } else {
      assert (a + b)[1..] == a[1..] + b;
      CandidatesAppend(a[1..], b);
    }
  }

  // One submission, at the level of the store and at the level of the queue.

  /** The store after the k-th iteration of the loop: mark syncing, then remove or mark failed. */
  function Attempt(m: map<string, Value>, f: Faults, c: OfflineShipment, reply: Reply): map<string, Value>
  {
    var marked := UpdateSpec(m, f, c.id, Syncing);
    if reply.Accepted? then RemoveSpec(marked, f, c.id) else UpdateSpec(marked, f, c.id, Failed)
  }

  /** The store after the first `n` iterations of the loop over `cands`. */
  function Drain(m: map<string, Value>, f: Faults, cands: seq<OfflineShipment>, respond: nat -> Reply, n: nat): map<string, Value>
    requires n <= |cands|
  {
    if n == 0 then m else Attempt(Drain(m, f, cands, respond, n - 1), f, cands[n - 1], respond(n - 1))
  }

  /** The store after `syncOfflineShipments()` when no pass is running. */
  function SyncSpec(m: map<string, Value>, f: Faults, respond: nat -> Reply): map<string, Value>
  {
    var cands := Candidates(StoredQueue(m, f));
    if cands == [] then m else CacheUtils.ClearSpec(Drain(m, f, cands, respond, |cands|), f)
  }

  /** The queue after one submission of the entries with id `id`. */
  function Step(q: seq<OfflineShipment>, id: Option<string>, reply: Reply): seq<OfflineShipment>
  {
    var marked := WithStatus(q, id, Syncing);
    if reply.Accepted? then Removed(marked, id) else WithStatus(marked, id, Failed)
  }

  /** The queue after the first `n` iterations, on a store that neither read- nor write-fails. */
  function DrainQueue(q: seq<OfflineShipment>, cands: seq<OfflineShipment>, respond: nat -> Reply, n: nat): seq<OfflineShipment>
    requires n <= |cands|
  {
    if n == 0 then q else Step(DrainQueue(q, cands, respond, n - 1), cands[n - 1].id, respond(n - 1))
  }

  // The reference outcome of a pass, stated per entry.

  /** The ids of the first `n` candidates. */
  function IdsUpTo(cands: seq<OfflineShipment>, n: nat): set<Option<string>>
    requires n <= |cands|
  {
    if n == 0 then {} else IdsUpTo(cands, n - 1) + {cands[n - 1].id}
  }

  /** The ids of the first `n` candidates whose submission the server accepted. */
  function AcceptedUpTo(cands: seq<OfflineShipment>, respond: nat -> Reply, n: nat): set<Option<string>>
    requires n <= |cands|
  {
    if n == 0 then {}
    else if respond(n - 1).Accepted? then AcceptedUpTo(cands, respond, n - 1) + {cands[n - 1].id}
    else AcceptedUpTo(cands, respond, n - 1)
  }

  /** An id was submitted iff one of the first `n` candidates has it; it was accepted iff one of those was accepted. */
  lemma {:induction false} UpToMembers(cands: seq<OfflineShipment>, respond: nat -> Reply, n: nat, x: Option<string>)
    requires n <= |cands|
    ensures x in IdsUpTo(cands, n) <==> exists j :: 0 <= j < n && cands[j].id == x
    ensures x in AcceptedUpTo(cands, respond, n) <==> exists j :: 0 <= j < n && cands[j].id == x && respond(j).Accepted?
    ensures AcceptedUpTo(cands, respond, n) <= IdsUpTo(cands, n)
  {
    if n > 0 {
      UpToMembers(cands, respond, n - 1, x);
      forall y | y in AcceptedUpTo(cands, respond, n) ensures y in IdsUpTo(cands, n) {
        UpToMembers(cands, respond, n - 1, y);
      }
    }
  }

  /** An entry as a pass leaves it when it survives: failed if its id was submitted, else as it was. */
  function Mark(e: OfflineShipment, ids: set<Option<string>>): OfflineShipment
  {
    if e.id in ids then e.(status := Failed) else e
  }

  /**
   * The queue after submitting the ids `ids`, of which the server accepted `accepted`: every
   * entry whose id was accepted is gone, and every other entry is kept in order, marked by `Mark`.
   */
  function Settle(q: seq<OfflineShipment>, ids: set<Option<string>>, accepted: set<Option<string>>): (r: seq<OfflineShipment>)
    ensures |r| <= |q|
  {
    if q == [] then []
    else (if q[0].id in accepted then [] else [Mark(q[0], ids)]) + Settle(q[1..], ids, accepted)
  }

  /** What survives a settlement: exactly the marked entries whose id was not accepted. */
  lemma {:induction false} SettleMembers(q: seq<OfflineShipment>, ids: set<Option<string>>, accepted: set<Option<string>>)
    ensures forall e :: e in Settle(q, ids, accepted) ==> e.id !in accepted && exists e0 :: e0 in q && e == Mark(e0, ids)
    ensures forall e0 :: e0 in q && e0.id !in accepted ==> Mark(e0, ids) in Settle(q, ids, accepted)
  {
    if q != [] {
      SettleMembers(q[1..], ids, accepted);
      var rest := Settle(q[1..], ids, accepted);
      forall e | e in Settle(q, ids, accepted) ensures e.id !in accepted && exists e0 :: e0 in q && e == Mark(e0, ids) {
        if e in rest {
          var e0 :| e0 in q[1..] && e == Mark(e0, ids);
          assert e0 in q;
        } else {
          assert e == Mark(q[0], ids) && q[0] in q;
        }
      }
      forall e0 | e0 in q && e0.id !in accepted ensures Mark(e0, ids) in Settle(q, ids, accepted) {
        if e0 != q[0] {
          assert e0 in q[1..];
        }
      }
    }
  }

  lemma {:induction false} SettleNothing(q: seq<OfflineShipment>)
    ensures Settle(q, {}, {}) == q
  {
    if q != [] {
      SettleNothing(q[1..]);
    }
  }

  /** An accepted submission removes its id from the settled queue. */
  lemma {:induction false} SettleRemove(q: seq<OfflineShipment>, ids: set<Option<string>>, accepted: set<Option<string>>, x: Option<string>)
    ensures Removed(Settle(q, ids, accepted), x) == Settle(q, ids + {x}, accepted + {x})
  {
    if q != [] {
      SettleRemove(q[1..], ids, accepted, x);
      var head := if q[0].id in accepted then [] else [Mark(q[0], ids)];
      RemovedAppend(head, Settle(q[1..], ids, accepted), x);
    }
  }

  /** A rejected submission marks its id failed in the settled queue. */
  lemma {:induction false} SettleFail(q: seq<OfflineShipment>, ids: set<Option<string>>, accepted: set<Option<string>>, x: Option<string>)
    ensures WithStatus(WithStatus(Settle(q, ids, accepted), x, Syncing), x, Failed) == Settle(q, ids + {x}, accepted)
  {
    if q != [] {
      SettleFail(q[1..], ids, accepted, x);
      var s := Settle(q, ids, accepted);
      var w := WithStatus(WithStatus(s, x, Syncing), x, Failed);
      var t := Settle(q, ids + {x}, accepted);
      if q[0].id in accepted {
        assert s == Settle(q[1..], ids, accepted);
      } else {
        assert s == [Mark(q[0], ids)] + Settle(q[1..], ids, accepted);
        assert w[0] == t[0];
        assert w[1..] == WithStatus(WithStatus(Settle(q[1..], ids, accepted), x, Syncing), x, Failed);
      }
    }
  }

  /** The loop computes the reference outcome. */
  lemma {:induction false} DrainIsSettle(q: seq<OfflineShipment>, cands: seq<OfflineShipment>, respond: nat -> Reply, n: nat)
    requires n <= |cands|
    ensures DrainQueue(q, cands, respond, n) == Settle(q, IdsUpTo(cands, n), AcceptedUpTo(cands, respond, n))
  {
    if n > 0 {
      DrainIsSettle(q, cands, respond, n - 1);
      SettleStep(q, IdsUpTo(cands, n - 1), AcceptedUpTo(cands, respond, n - 1), cands[n - 1].id, respond(n - 1));
    } else {
      SettleNothing(q);
    }
  }

  /** One more submission moves the settled queue to the settlement with that id added. */
  lemma SettleStep(q: seq<OfflineShipment>, ids: set<Option<string>>, accepted: set<Option<string>>, x: Option<string>, reply: Reply)
    ensures Step(Settle(q, ids, accepted), x, reply) ==
      Settle(q, ids + {x}, if reply.Accepted? then accepted + {x} else accepted)
  {
    var prev := Settle(q, ids, accepted);
    if reply.Accepted? {
      RemovedAfterStatus(prev, x, Syncing);
      SettleRemove(q, ids, accepted, x);
    } else {
      SettleFail(q, ids, accepted, x);
    }
  }

  /** On a healthy store one iteration rewrites the queue key and nothing else. */
  lemma AttemptOnHealthyStore(m: map<string, Value>, f: Faults, c: OfflineShipment, reply: Reply)
    requires !f.readFails && !f.writeFails
    ensures Attempt(m, f, c, reply) == m[QueueKey := QueueValue(Step(QueueIn(m), c.id, reply))]
  {
    var marked := UpdateSpec(m, f, c.id, Syncing);
    assert marked == m[QueueKey := QueueValue(WithStatus(QueueIn(m), c.id, Syncing))];
    assert QueueIn(marked) == WithStatus(QueueIn(m), c.id, Syncing);
  }

  /** On a healthy store the loop rewrites only the queue key, and the queue follows `DrainQueue`. */
  lemma {:induction false} DrainOnHealthyStore(m: map<string, Value>, f: Faults, cands: seq<OfflineShipment>, respond: nat -> Reply, n: nat)
    requires !f.readFails && !f.writeFails && 0 < n <= |cands|
    ensures Drain(m, f, cands, respond, n) == m[QueueKey := QueueValue(DrainQueue(QueueIn(m), cands, respond, n))]
  {
    if n == 1 {
      AttemptOnHealthyStore(m, f, cands[0], respond(0));
    } else {
      DrainOnHealthyStore(m, f, cands, respond, n - 1);
      AttemptAfterRewrite(m, f, DrainQueue(QueueIn(m), cands, respond, n - 1), cands[n - 1], respond(n - 1));
    }
  }

  lemma AttemptAfterRewrite(m: map<string, Value>, f: Faults, d: seq<OfflineShipment>, c: OfflineShipment, reply: Reply)
    requires !f.readFails && !f.writeFails
    ensures Attempt(m[QueueKey := QueueValue(d)], f, c, reply) == m[QueueKey := QueueValue(Step(d, c.id, reply))]
  {
    var prev := m[QueueKey := QueueValue(d)];
    AttemptOnHealthyStore(prev, f, c, reply);
    Overwrite(m, QueueKey, QueueValue(d), QueueValue(Step(d, c.id, reply)));
  }

  lemma Overwrite<K, V>(m: map<K, V>, k: K, a: V, b: V)
    ensures m[k := a][k := b] == m[k := b]
  {
  }

  /** A store whose writes all throw is left as it was by the loop. */
  lemma {:induction false} DrainOnReadOnlyStore(m: map<string, Value>, f: Faults, cands: seq<OfflineShipment>, respond: nat -> Reply, n: nat)
    requires f.writeFails && n <= |cands|
    ensures Drain(m, f, cands, respond, n) == m
  {
    if n > 0 {
      DrainOnReadOnlyStore(m, f, cands, respond, n - 1);
      AttemptOnReadOnlyStore(Drain(m, f, cands, respond, n - 1), f, cands[n - 1], respond(n - 1));
    }
  }

  lemma AttemptOnReadOnlyStore(m: map<string, Value>, f: Faults, c: OfflineShipment, reply: Reply)
    requires f.writeFails
    ensures Attempt(m, f, c, reply) == m
  {
    assert UpdateSpec(m, f, c.id, Syncing) == m;
  }

  /** The queue a whole pass leaves behind on a healthy store, by the reference definition. */
  function Settled(q: seq<OfflineShipment>, respond: nat -> Reply): seq<OfflineShipment>
  {
    var cands := Candidates(q);
    Settle(q, IdsUpTo(cands, |cands|), AcceptedUpTo(cands, respond, |cands|))
  }

  lemma SyncOnHealthyStore(m: map<string, Value>, f: Faults, respond: nat -> Reply)
    requires !f.readFails && !f.writeFails
    ensures Candidates(QueueIn(m)) == [] ==> SyncSpec(m, f, respond) == m
    ensures Candidates(QueueIn(m)) != [] ==>
      SyncSpec(m, f, respond) == CacheUtils.ClearSpec(m[QueueKey := QueueValue(Settled(QueueIn(m), respond))], f)
  {
    var cands := Candidates(QueueIn(m));
    if cands != [] {
      DrainOnHealthyStore(m, f, cands, respond, |cands|);
      DrainIsSettle(QueueIn(m), cands, respond, |cands|);
    }
  }

  /** Clearing the cache after the queue was rewritten keeps the new queue and the dictionaries. */
  lemma ClearAfterQueueWrite(m: map<string, Value>, f: Faults, q: seq<OfflineShipment>)
    requires !f.readFails && !f.writeFails
    ensures StoredQueue(CacheUtils.ClearSpec(m[QueueKey := QueueValue(q)], f), f) == q
    ensures StoredBrands(CacheUtils.ClearSpec(m[QueueKey := QueueValue(q)], f), f) == StoredBrands(m, f)
    ensures StoredContracts(CacheUtils.ClearSpec(m[QueueKey := QueueValue(q)], f), f) == StoredContracts(m, f)
    ensures CacheUtils.StoredList(CacheUtils.ClearSpec(m[QueueKey := QueueValue(q)], f), f) == None
  {
    var w := m[QueueKey := QueueValue(q)];
    CacheUtils.ClearCacheEffect(w, f);
    assert StoredBrands(w, f) == StoredBrands(m, f);
    assert StoredContracts(w, f) == StoredContracts(m, f);
  }

  /**
   * A whole pass on a healthy store: the queue is settled against the candidates' ids and the
   * ids the server accepted; the dictionaries are kept; the read cache is cleared when there
   * was anything to submit.
   */
  lemma SyncOutcome(m: map<string, Value>, f: Faults, respond: nat -> Reply)
    requires !f.readFails && !f.writeFails
    ensures StoredQueue(SyncSpec(m, f, respond), f) == Settled(QueueIn(m), respond)
    ensures StoredBrands(SyncSpec(m, f, respond), f) == StoredBrands(m, f)
    ensures StoredContracts(SyncSpec(m, f, respond), f) == StoredContracts(m, f)
    ensures Candidates(QueueIn(m)) != [] ==> CacheUtils.StoredList(SyncSpec(m, f, respond), f) == None
  {
    SyncOnHealthyStore(m, f, respond);
    if Candidates(QueueIn(m)) == [] {
      SettleNothing(QueueIn(m));
    } else {
      ClearAfterQueueWrite(m, f, Settled(QueueIn(m), respond));
    }
  }

  /** A store that cannot be read, or cannot be written, comes out of a pass unchanged. */
  lemma SyncOnFaultyStore(m: map<string, Value>, f: Faults, respond: nat -> Reply)
    requires f.readFails || f.writeFails
    ensures SyncSpec(m, f, respond) == m
  {
    var cands := Candidates(StoredQueue(m, f));
    if f.writeFails && cands != [] {
      DrainOnReadOnlyStore(m, f, cands, respond, |cands|);
    }
  }

  /**
   * After a pass, every remaining entry whose id was submitted is failed; entries whose id was
   * not submitted are kept as they were; and no entry is left syncing that was not syncing before.
   */
  lemma SettledMarksEveryCandidate(q: seq<OfflineShipment>, respond: nat -> Reply)
    ensures var cands := Candidates(q); var ids := IdsUpTo(cands, |cands|);
      && (forall e :: e in Settled(q, respond) && e.id in ids ==> e.status == Failed)
      && (forall e :: e in q && e.id !in ids ==> e in Settled(q, respond))
      && (forall e :: e in Settled(q, respond) && e.status == Syncing ==> e in q)
  {
    var cands := Candidates(q);
    var ids, accepted := IdsUpTo(cands, |cands|), AcceptedUpTo(cands, respond, |cands|);
    SettleMembers(q, ids, accepted);
    UpToMembers(cands, respond, |cands|, None);
  }

  // The finding: id-less entries are removed by another entry's success.

  /** No two entries share an id. */
  predicate UniqueIds(q: seq<OfflineShipment>)
  {
    forall i, j :: 0 <= i < j < |q| ==> q[i].id != q[j].id
  }

  lemma {:induction false} CandidatesKeepUniqueIds(q: seq<OfflineShipment>)
    requires UniqueIds(q)
    ensures UniqueIds(Candidates(q))
  {
    if q != [] {
      assert UniqueIds(q[1..]) by {
        forall i, j | 0 <= i < j < |q[1..]| ensures q[1..][i].id != q[1..][j].id {
          assert q[1..][i] == q[i + 1] && q[1..][j] == q[j + 1];
        }
      }
      CandidatesKeepUniqueIds(q[1..]);
      var rest := Candidates(q[1..]);
      if IsCandidate(q[0]) {
        var r := Candidates(q);
        assert r == [q[0]] + rest;
        forall i, j | 0 <= i < j < |r| ensures r[i].id != r[j].id {
          assert r[j] == rest[j - 1] && rest[j - 1] in rest;
          if i == 0 {
            var k :| 0 <= k < |q[1..]| && q[1..][k] == rest[j - 1];
            assert q[k + 1] == r[j];
          } else {
            assert r[i] == rest[i - 1];
          }
        }
      }
    }
  }

  /**
   * When the queue's ids are unique, every submitted entry ends as intended: accepted ones are
   * gone, rejected ones stay with status failed.
   */
  lemma SettledWithUniqueIds(q: seq<OfflineShipment>, respond: nat -> Reply, k: nat)
    requires UniqueIds(q) && k < |Candidates(q)|
    ensures var c := Candidates(q)[k];
      && (respond(k).Accepted? ==> forall e :: e in Settled(q, respond) ==> e.id != c.id)
      && (!respond(k).Accepted? ==> c.(status := Failed) in Settled(q, respond))
  {
    var cands := Candidates(q);
    var c := cands[k];
    var ids, accepted := IdsUpTo(cands, |cands|), AcceptedUpTo(cands, respond, |cands|);
    CandidatesKeepUniqueIds(q);
    SettleMembers(q, ids, accepted);
    UpToMembers(cands, respond, |cands|, c.id);
    assert c in cands;
    if !respond(k).Accepted? {
      assert c.id !in accepted by {
        forall j | 0 <= j < |cands| && cands[j].id == c.id ensures j == k {
        }
      }
      assert Mark(c, ids) == c.(status := Failed);
    }
  }

  /** The enqueue that keeps ids unique: the new entry gets an id no queued entry has. */
  function AddWithFreshId(q: seq<OfflineShipment>, payload: ShipmentRequest, now: string, newId: string): (r: seq<OfflineShipment>)
    ensures |r| == |q| + 1 && r[..|q|] == q && r[|q|] == NewEntry(payload.(id := Some(newId)), now)
  {
    q + [NewEntry(payload.(id := Some(newId)), now)]
  }

  lemma AddWithFreshIdKeepsUniqueIds(q: seq<OfflineShipment>, payload: ShipmentRequest, now: string, newId: string)
    requires UniqueIds(q) && forall e :: e in q ==> e.id != Some(newId)
    ensures UniqueIds(AddWithFreshId(q, payload, now, newId))
  {
    var r := AddWithFreshId(q, payload, now, newId);
    forall i, j | 0 <= i < j < |r| ensures r[i].id != r[j].id {
      assert r[i] == q[i] && q[i] in q;
    }
  }

  /** The queue the app builds from two offline creations: neither payload carries an id. */
  function TwoUnsyncedEntries(payload: ShipmentRequest): seq<OfflineShipment>
  {
    [NewEntry(payload.(id := None), "t0"), NewEntry(payload.(id := None), "t1")]
  }

  /**
   * As written: the first submission is rejected and the second accepted, yet the queue ends
   * empty, so the first creation is lost without the server ever accepting it.
   */
  lemma RejectedEntryIsLost(payload: ShipmentRequest, respond: nat -> Reply)
    requires !respond(0).Accepted? && respond(1).Accepted?
    ensures var m := map[QueueKey := QueueValue(TwoUnsyncedEntries(payload))];
      StoredQueue(SyncSpec(m, Faults(false, false), respond), Faults(false, false)) == []
  {
    var q := TwoUnsyncedEntries(payload);
    var m := map[QueueKey := QueueValue(q)];
    assert Candidates(q[1..][1..]) == [];
    assert Candidates(q[1..]) == [q[1]];
    assert Candidates(q) == q;
    SyncOutcome(m, Faults(false, false), respond);
    var accepted := AcceptedUpTo(q, respond, 2);
    assert None in accepted;
    assert Settle(q[1..][1..], IdsUpTo(q, 2), accepted) == [];
    assert Settle(q[1..], IdsUpTo(q, 2), accepted) == [];
  }

  /** The same two creations queued with fresh ids: the rejected one survives as failed. */
  lemma RejectedEntryKeptWithFreshIds(payload: ShipmentRequest, respond: nat -> Reply)
    requires !respond(0).Accepted? && respond(1).Accepted?
    ensures var q := AddWithFreshId(AddWithFreshId([], payload, "t0", "a"), payload, "t1", "b");
      q[0].(status := Failed) in Settled(q, respond)
  {
    var q0 := AddWithFreshId([], payload, "t0", "a");
    AddWithFreshIdKeepsUniqueIds([], payload, "t0", "a");
    var q := AddWithFreshId(q0, payload, "t1", "b");
    assert q0[0].id == Some("a");
    AddWithFreshIdKeepsUniqueIds(q0, payload, "t1", "b");
    assert Candidates(q[1..][1..]) == [];
    assert Candidates(q[1..]) == [q[1]];
    assert Candidates(q) == q;
    SettledWithUniqueIds(q, respond, 0);
  }

  // The service object.

  /** `indexOf(cb)`: the first position of `cb`, or -1. */
  function IndexOf(cs: seq<Callback>, cb: Callback): (i: int)
    ensures i == -1 <==> cb !in cs
    ensures -1 <= i < |cs|
    ensures 0 <= i ==> cs[i] == cb && forall j :: 0 <= j < i ==> cs[j] != cb
  {
    if cs == [] then -1
    else if cs[0] == cb then 0
    else
      var k := IndexOf(cs[1..], cb);
      assert cs == [cs[0]] + cs[1..];
      if k < 0 then -1 else k + 1
  }

  /** `splice(indexOf(cb), 1)` when `cb` is present. */
  function RemoveFirst(cs: seq<Callback>, cb: Callback): seq<Callback>
  {
    var i := IndexOf(cs, cb);
    if i < 0 then cs else cs[..i] + cs[i + 1..]
  }

  /** Unsubscribing drops one occurrence of the callback when it is subscribed, and nothing otherwise. */
  lemma RemoveFirstCount(cs: seq<Callback>, cb: Callback)
    ensures cb !in cs ==> RemoveFirst(cs, cb) == cs
    ensures cb in cs ==> |RemoveFirst(cs, cb)| == |cs| - 1 && multiset(RemoveFirst(cs, cb)) == multiset(cs) - multiset{cb}
  {
    var i := IndexOf(cs, cb);
    if i >= 0 {
      assert cs == cs[..i] + [cb] + cs[i + 1..];
    }
  }

  /** Unsubscribing right after subscribing a new callback restores the list. */
  lemma RemoveUndoesAddCallback(cs: seq<Callback>, cb: Callback)
    requires cb !in cs
    ensures RemoveFirst(cs + [cb], cb) == cs
  {
    assert (cs + [cb])[|cs|] == cb;
    assert (cs + [cb])[..|cs|] == cs;
  }

  class OfflineSyncService {
    var isSyncing: bool
    var callbacks: seq<Callback>

    constructor ()
      ensures !isSyncing && callbacks == []
    {
      isSyncing := false;
      callbacks := [];
    }

    method AddSyncCompleteCallback(cb: Callback)
      modifies this`callbacks
      ensures callbacks == old(callbacks) + [cb]
    {
      callbacks := callbacks + [cb];
    }

    method RemoveSyncCompleteCallback(cb: Callback)
      modifies this`callbacks
      ensures callbacks == RemoveFirst(old(callbacks), cb)
    {
      var index := 0;
      while index < |callbacks| && callbacks[index] != cb
        invariant 0 <= index <= |callbacks|
        invariant forall j :: 0 <= j < index ==> callbacks[j] != cb
      {
        index := index + 1;
      }
      if index < |callbacks| {
        assert IndexOf(callbacks, cb) == index;
        callbacks := callbacks[..index] + callbacks[index + 1..];
      }
    }

    /** Calls every subscriber once, in order; the per-call `catch` means none can stop the rest. */
    method NotifySyncComplete() returns (invoked: seq<nat>)
      ensures |invoked| == |callbacks| && forall i :: 0 <= i < |callbacks| ==> invoked[i] == callbacks[i].handle
    {
      invoked := [];
      for i := 0 to |callbacks|
        invariant |invoked| == i && forall j :: 0 <= j < i ==> invoked[j] == callbacks[j].handle
      {
        invoked := invoked + [callbacks[i].handle];
      }
    }

    /**
     * One pass. When a pass is already running it returns at once and changes nothing. Otherwise
     * it submits the candidates' payloads in queue order, leaves the store as `SyncSpec` says,
     * notifies the subscribers only when there was something to submit, and ends not syncing.
     */
    method SyncOfflineShipments(store: Store, respond: nat -> Reply) returns (submitted: seq<ShipmentRequest>, notified: seq<nat>)
      modifies this`isSyncing, store`entries
      ensures old(isSyncing) ==> isSyncing && store.entries == old(store.entries) && submitted == [] && notified == []
      ensures !old(isSyncing) ==> !isSyncing && store.entries == SyncSpec(old(store.entries), store.faults, respond)
      ensures !old(isSyncing) ==> var cands := Candidates(StoredQueue(old(store.entries), store.faults));
        && |submitted| == |cands| && (forall i :: 0 <= i < |cands| ==> submitted[i] == cands[i].data)
        && (cands == [] ==> notified == [])
        && (cands != [] ==> |notified| == |callbacks| && forall i :: 0 <= i < |callbacks| ==> notified[i] == callbacks[i].handle)
    {
      if isSyncing {
        return [], [];
      }
      isSyncing := true;
      submitted, notified := Pass(store, respond);
      isSyncing := false;
    }

    /** The body of the `try` block: read the queue, submit the candidates, notify, clear the cache. */
    method Pass(store: Store, respond: nat -> Reply) returns (submitted: seq<ShipmentRequest>, notified: seq<nat>)
      modifies store`entries
      ensures store.entries == SyncSpec(old(store.entries), store.faults, respond)
      ensures var cands := Candidates(StoredQueue(old(store.entries), store.faults));
        && |submitted| == |cands| && (forall i :: 0 <= i < |cands| ==> submitted[i] == cands[i].data)
        && (cands == [] ==> notified == [])
        && (cands != [] ==> |notified| == |callbacks| && forall i :: 0 <= i < |callbacks| ==> notified[i] == callbacks[i].handle)
    {
      var queue := GetOfflineShipments(store);
      var toSync := Candidates(queue);
      if |toSync| == 0 {
        return [], [];
      }
      submitted := SubmitAll(store, toSync, respond);
      notified := NotifySyncComplete();
      CacheUtils.ClearCache(store);
    }

    /** The `for` loop over the candidates. */
    method SubmitAll(store: Store, toSync: seq<OfflineShipment>, respond: nat -> Reply) returns (submitted: seq<ShipmentRequest>)
      modifies store`entries
      ensures store.entries == Drain(old(store.entries), store.faults, toSync, respond, |toSync|)
      ensures |submitted| == |toSync| && forall j :: 0 <= j < |toSync| ==> submitted[j] == toSync[j].data
    {
      submitted := [];
      var i := 0;
      while i < |toSync|
        invariant 0 <= i <= |toSync|
        invariant store.entries == Drain(old(store.entries), store.faults, toSync, respond, i)
        invariant |submitted| == i && forall j :: 0 <= j < i ==> submitted[j] == toSync[j].data
      {
        SubmitOne(store, toSync[i], respond(i));
        submitted := submitted + [toSync[i].data];
        i := i + 1;
      }
    }

    /** The body of the loop: mark the entry syncing, submit it, then remove it or mark it failed. */
    method SubmitOne(store: Store, shipment: OfflineShipment, reply: Reply)
      modifies store`entries
      ensures store.entries == Attempt(old(store.entries), store.faults, shipment, reply)
    {
      UpdateOfflineShipmentStatus(store, shipment.id, Syncing);
      if reply.Accepted? {
        RemoveOfflineShipment(store, shipment.id);
      } else {
        UpdateOfflineShipmentStatus(store, shipment.id, Failed);
      }
    }

    /** `getOfflineCount()`: the number of entries the next pass would submit. */
    method GetOfflineCount(store: Store) returns (n: nat)
      ensures n == |Candidates(StoredQueue(store.entries, store.faults))|
    {
      var queue := GetOfflineShipments(store);
      n := |Candidates(queue)|;
    }
  }

  /** Each offline creation adds one to the count, on a healthy store. */
  lemma CountAfterAdd(m: map<string, Value>, f: Faults, payload: ShipmentRequest, now: string)
    requires !f.readFails && !f.writeFails
    ensures |Candidates(StoredQueue(AddSpec(m, f, payload, now), f))| == |Candidates(StoredQueue(m, f))| + 1
  {
    CandidatesAppend(StoredQueue(m, f), [NewEntry(payload, now)]);
  }
}
