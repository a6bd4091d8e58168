/**
 The in-memory caches of transfers and bridge rows that wait for their counterpart: lists in order of arrival, an
 index of ids by version beside each, and a job that drops what is older than twenty minutes.
 */
module MatchingCache {
  import opened Wrappers
  import opened Sequences

  // What the caches look at of a transfer or a row, and the rest of it.
  datatype Entry<T> = Entry(version: string, id: string, time: int, data: T)

  type Ids = map<string, set<string>>

  datatype Shelf<T> = Shelf(entries: seq<Entry<T>>, ids: Ids)

  const MAX_TIME_MS := 1000 * 60 * 20

  predicate Expired<T>(e: Entry<T>, now: int)
  {
    now - e.time > MAX_TIME_MS
  }

  predicate Has(ids: Ids, version: string, id: string)
  {
    version in ids && id in ids[version]
  }

  function Put(ids: Ids, version: string, id: string): Ids
  {
    ids[version := (if version in ids then ids[version] else {}) + {id}]
  }

  function Drop(ids: Ids, version: string, id: string): Ids
  {
    if version in ids then ids[version := ids[version] - {id}] else ids
  }

  // ---------- adding, removing, expiring ----------

  function Add<T>(s: Shelf<T>, e: Entry<T>): Shelf<T>
  {
    if Has(s.ids, e.version, e.id) then s else Shelf(s.entries + [e], Put(s.ids, e.version, e.id))
  }

  // findIndex
  function IndexOf<T>(entries: seq<Entry<T>>, id: string): (i: int)
    ensures -1 <= i < |entries|
    ensures i >= 0 ==> entries[i].id == id && forall j :: 0 <= j < i ==> entries[j].id != id
    ensures i < 0 ==> forall j :: 0 <= j < |entries| ==> entries[j].id != id
  {
    if entries == [] then -1 else
      var i := IndexOf(entries[..|entries| - 1], id);
      if i >= 0 then i else if entries[|entries| - 1].id == id then |entries| - 1 else -1
  }

  function Remove<T>(s: Shelf<T>, id: string): Shelf<T>
  {
    var i := IndexOf(s.entries, id);
    if i < 0 then s else Shelf(s.entries[..i] + s.entries[i + 1..], Drop(s.ids, s.entries[i].version, id))
  }

  // The entries that are not expired, in order.
  function Unexpired<T>(entries: seq<Entry<T>>, now: int): seq<Entry<T>>
  {
    if entries == [] then [] else
      (if Expired(entries[0], now) then [] else [entries[0]]) + Unexpired(entries[1..], now)
  }

  function DropExpired<T>(ids: Ids, entries: seq<Entry<T>>, now: int): Ids
  {
    if entries == [] then ids else
      var e := entries[|entries| - 1];
      DropExpired(if Expired(e, now) then Drop(ids, e.version, e.id) else ids, entries[..|entries| - 1], now)
  }

  function Expire<T>(s: Shelf<T>, now: int): Shelf<T>
  {
    Shelf(Unexpired(s.entries, now), DropExpired(s.ids, s.entries, now))
  }

  function Kept<T>(e: Entry<T>, now: int): seq<Entry<T>>
  {
    if Expired(e, now) then [] else [e]
  }

  lemma UnexpiredStep<T>(s: seq<Entry<T>>, now: int)
    ensures s == [] ==> Unexpired(s, now) == []
    ensures s != [] ==> Unexpired(s, now) == Kept(s[0], now) + Unexpired(s[1..], now)
  {
  }

  lemma {:induction false} UnexpiredConcat<T>(a: seq<Entry<T>>, b: seq<Entry<T>>, now: int)
    ensures Unexpired(a + b, now) == Unexpired(a, now) + Unexpired(b, now)
  {
    hide Unexpired, Kept;
    UnexpiredStep(a, now);
    if a == [] {
      Regroup(a, a, b);
      Regroup(a, a, Unexpired(b, now));
    } else {
      UnexpiredStep(a + b, now);
      assert (a + b)[1..] == a[1..] + b;
      UnexpiredConcat(a[1..], b, now);
      Regroup(Kept(a[0], now), Unexpired(a[1..], now), Unexpired(b, now));
    }
  }

  /** What expiry keeps is exactly what is not expired. */
  lemma {:induction false} UnexpiredIs<T>(entries: seq<Entry<T>>, now: int)
    ensures forall e :: e in Unexpired(entries, now) <==> e in entries && !Expired(e, now)
  {
    if entries != [] {
      UnexpiredIs(entries[1..], now);
      assert entries == [entries[0]] + entries[1..];
    }
  }

  // ---------- in numbers ----------

  /** An entry outlives twenty minutes by not one millisecond. */
  lemma {:induction false} StaysTwentyMinutes<T(!new)>(entries: seq<Entry<T>>, now: int)
    ensures forall e :: e in Unexpired(entries, now) <==> e in entries && now - e.time <= 1200000
  {
    UnexpiredIs(entries, now);
    forall e
      ensures e in Unexpired(entries, now) <==> e in entries && now - e.time <= 1200000
    {
      assert Expired(e, now) <==> now - e.time > 1200000;
    }
  }

  /** Entries of which none is older stay as they are. */
  lemma {:induction false} AllStay<T(!new)>(entries: seq<Entry<T>>, now: int)
    requires forall e :: e in entries ==> now - e.time <= 1200000
    ensures Unexpired(entries, now) == entries
  {
    if entries != [] {
      AllStay(entries[1..], now);
      assert entries[0] in entries;
      assert entries == [entries[0]] + entries[1..];
    }
  }

  /** An entry is added at the end, unless one of its version and id is there; then nothing changes. */
  lemma AddsAtEnd<T(!new)>(s: Shelf<T>, e: Entry<T>)
    requires Agrees(s)
    ensures Add(s, e).entries ==
      if exists x :: x in s.entries && x.version == e.version && x.id == e.id then s.entries else s.entries + [e]
  {
    CachedIs(s.entries, e.version, e.id);
    assert Has(s.ids, e.version, e.id) <==> Cached(s.entries, e.version, e.id);
  }

  lemma CachedIs<T(!new)>(entries: seq<Entry<T>>, version: string, id: string)
    ensures Cached(entries, version, id) <==> exists x :: x in entries && x.version == version && x.id == id
  {
  }

  /** The first entry with the id is taken out, whatever its version, and the others keep their order. */
  lemma RemovesFirst<T>(s: Shelf<T>, id: string)
    ensures var n := Remove(s, id).entries;
      || (n == s.entries && forall j :: 0 <= j < |n| ==> n[j].id != id)
      || (exists i :: 0 <= i < |s.entries| && s.entries[i].id == id && n == s.entries[..i] + s.entries[i + 1..]
                      && forall j :: 0 <= j < i ==> s.entries[j].id != id)
  {
  }

  // ---------- list and index agree ----------

  ghost predicate Cached<T(!new)>(entries: seq<Entry<T>>, version: string, id: string)
  {
    exists i :: 0 <= i < |entries| && entries[i].version == version && entries[i].id == id
  }

  ghost predicate Unique<T>(entries: seq<Entry<T>>)
  {
    forall i, j :: 0 <= i < j < |entries| ==> !(entries[i].version == entries[j].version && entries[i].id == entries[j].id)
  }

  // Each version's ids are those of the cached entries of that version, and no two entries share both.
  ghost predicate Agrees<T(!new)>(s: Shelf<T>)
  {
    Unique(s.entries) && forall version, id :: Has(s.ids, version, id) <==> Cached(s.entries, version, id)
  }

  lemma AddAgrees<T(!new)>(s: Shelf<T>, e: Entry<T>)
    requires Agrees(s)
    ensures Agrees(Add(s, e))
  {
    var n := Add(s, e);
    if n != s {
      forall version, id
        ensures Has(n.ids, version, id) <==> Cached(n.entries, version, id)
      {
        CachedAppend(s.entries, e, version, id);
        assert Has(s.ids, version, id) <==> Cached(s.entries, version, id);
      }
      assert !Cached(s.entries, e.version, e.id);
    }
  }

  lemma CachedAppend<T(!new)>(entries: seq<Entry<T>>, e: Entry<T>, version: string, id: string)
    ensures Cached(entries + [e], version, id) <==> Cached(entries, version, id) || (e.version == version && e.id == id)
  {
    var longer := entries + [e];
    if Cached(entries, version, id) {
      var i :| 0 <= i < |entries| && entries[i].version == version && entries[i].id == id;
      assert longer[i] == entries[i];
    }
    assert longer[|entries|] == e;
  }

  // One entry cut out of a list without duplicates.
  lemma CachedWithout<T(!new)>(entries: seq<Entry<T>>, i: nat, version: string, id: string)
    requires i < |entries| && Unique(entries)
    ensures var rest := entries[..i] + entries[i + 1..];
      && Unique(rest)
      && (Cached(rest, version, id) <==> Cached(entries, version, id) && !(entries[i].version == version && entries[i].id == id))
  {
    var rest := entries[..i] + entries[i + 1..];
    assert forall j :: 0 <= j < i ==> rest[j] == entries[j];
    assert forall j :: i <= j < |rest| ==> rest[j] == entries[j + 1];
    if Cached(entries, version, id) && !(entries[i].version == version && entries[i].id == id) {
      var j :| 0 <= j < |entries| && entries[j].version == version && entries[j].id == id;
      assert rest[if j < i then j else j - 1] == entries[j];
    }
  }

  lemma RemoveAgrees<T(!new)>(s: Shelf<T>, id: string)
    requires Agrees(s)
    ensures Agrees(Remove(s, id))
  {
    var i := IndexOf(s.entries, id);
    if i >= 0 {
      CutAgrees(s, i);
    }
  }

  lemma CutAgrees<T(!new)>(s: Shelf<T>, i: nat)
    requires Agrees(s) && i < |s.entries|
    ensures Agrees(Shelf(s.entries[..i] + s.entries[i + 1..], Drop(s.ids, s.entries[i].version, s.entries[i].id)))
  {
    var n := Shelf(s.entries[..i] + s.entries[i + 1..], Drop(s.ids, s.entries[i].version, s.entries[i].id));
    forall version, id
      ensures Has(n.ids, version, id) <==> Cached(n.entries, version, id)
    {
      CachedWithout(s.entries, i, version, id);
      assert Has(s.ids, version, id) <==> Cached(s.entries, version, id);
    }
    CachedWithout(s.entries, i, "", "");
  }

  // The backward loop: the first n entries are still to be looked at, the rest is done.
  lemma {:induction false} ExpireFromAgrees<T(!new)>(head: seq<Entry<T>>, done: seq<Entry<T>>, ids: Ids, now: int)
    requires Agrees(Shelf(head + done, ids))
    ensures Agrees(Shelf(Unexpired(head, now) + done, DropExpired(ids, head, now)))
    decreases |head|
  {
    if head == [] {
      assert head + done == done && Unexpired(head, now) + done == done;
    } else {
      var init, e := head[..|head| - 1], head[|head| - 1];
      assert head == init + [e];
      UnexpiredConcat(init, [e], now);
      if Expired(e, now) {
        var s := Shelf(head + done, ids);
        CutAgrees(s, |init|);
        assert s.entries[..|init|] + s.entries[|init| + 1..] == init + done;
        ExpireFromAgrees(init, done, Drop(ids, e.version, e.id), now);
        assert Unexpired(head, now) == Unexpired(init, now);
      } else {
        assert head + done == init + ([e] + done);
        ExpireFromAgrees(init, [e] + done, ids, now);
        assert Unexpired(head, now) + done == Unexpired(init, now) + ([e] + done);
      }
    }
  }

  lemma ExpireAgrees<T(!new)>(s: Shelf<T>, now: int)
    requires Agrees(s)
    ensures Agrees(Expire(s, now))
  {
    assert s.entries + [] == s.entries;
    ExpireFromAgrees(s.entries, [], s.ids, now);
    assert Unexpired(s.entries, now) + [] == Unexpired(s.entries, now);
  }

  datatype Op<T> = Adds(e: Entry<T>) | Removes(id: string) | Expires(now: int)

  function Apply<T>(s: Shelf<T>, op: Op<T>): Shelf<T>
  {
    match op
    case Adds(e) => Add(s, e)
    case Removes(id) => Remove(s, id)
    case Expires(now) => Expire(s, now)
  }

  function After<T>(ops: seq<Op<T>>): Shelf<T>
  {
    if ops == [] then Shelf([], map[]) else Apply(After(ops[..|ops| - 1]), ops[|ops| - 1])
  }

  /** After any sequence of additions, removals and expiries, each version's id set is the ids of the cached entries of
      that version, and version and id together occur once. */
  lemma {:induction false} IndexAgrees<T(!new)>(ops: seq<Op<T>>)
    ensures Agrees(After(ops))
  {
    if ops != [] {
      IndexAgrees(ops[..|ops| - 1]);
      var s := After(ops[..|ops| - 1]);
      match ops[|ops| - 1]
      case Adds(e) => AddAgrees(s, e);
      case Removes(id) => RemoveAgrees(s, id);
      case Expires(now) => ExpireAgrees(s, now);
    }
  }

  // ---------- the service ----------

  datatype TransferData = TransferData(status: int)
  datatype BridgeData = BridgeData(status: int, targetId: Option<string>)

  class MemoryMatchingService {
    var transfers: seq<Entry<TransferData>>
    var transfersID: Ids
    var bridgeTransactions: seq<Entry<BridgeData>>
    var bridgeTransactionsID: Ids

    ghost function Transfers(): Shelf<TransferData>
      reads this
    {
      Shelf(transfers, transfersID)
    }

    ghost function Bridges(): Shelf<BridgeData>
      reads this
    {
      Shelf(bridgeTransactions, bridgeTransactionsID)
    }

    constructor ()
      ensures Transfers() == After([]) && Bridges() == After([])
    {
      transfers, transfersID, bridgeTransactions, bridgeTransactionsID := [], map[], [], map[];
    }

    method AddTransferMatchCache(instance: Entry<TransferData>, now: int) returns (kept: bool)
      modifies this
      ensures Bridges() == old(Bridges())
      ensures kept == (now - instance.time <= 1200000 && instance.data.status == 2)
      ensures Transfers() == if kept then Add(old(Transfers()), instance) else old(Transfers())
    {
      if now - instance.time > MAX_TIME_MS {
        return false;
      }
      if instance.data.status != 2 {
        return false;
      }
      var known := instance.version in transfersID && instance.id in transfersID[instance.version];
      if !known {
        var ids := if instance.version in transfersID then transfersID[instance.version] else {};
        transfersID := transfersID[instance.version := ids + {instance.id}];
        transfers := transfers + [instance];
      }
      return true;
    }

    method AddBridgeTransaction(instance: Entry<BridgeData>, now: int) returns (kept: bool)
      modifies this
      ensures Transfers() == old(Transfers())
      ensures kept == (now - instance.time <= 1200000 && instance.data.targetId.None? && instance.data.status in {0, 97, 98})
      ensures Bridges() == if kept then Add(old(Bridges()), instance) else old(Bridges())
    {
      if now - instance.time > MAX_TIME_MS {
        return false;
      }
      if instance.data.targetId.Some? {
        return false;
      }
      if instance.data.status !in {0, 97, 98} {
        return false;
      }
      var known := instance.version in bridgeTransactionsID && instance.id in bridgeTransactionsID[instance.version];
      if !known {
        var ids := if instance.version in bridgeTransactionsID then bridgeTransactionsID[instance.version] else {};
        bridgeTransactionsID := bridgeTransactionsID[instance.version := ids + {instance.id}];
        bridgeTransactions := bridgeTransactions + [instance];
      }
      return true;
    }

    method RemoveTransferMatchCache(hash: string)
      modifies this
      ensures Bridges() == old(Bridges()) && Transfers() == Remove(old(Transfers()), hash)
    {
      var index := 0;
      while index < |transfers| && transfers[index].id != hash
        invariant 0 <= index <= |transfers|
        invariant forall j :: 0 <= j < index ==> transfers[j].id != hash
      {
        index := index + 1;
      }
      if index < |transfers| {
        var transfer := transfers[index];
        transfers := transfers[..index] + transfers[index + 1..];
        if transfer.version in transfersID {
          transfersID := transfersID[transfer.version := transfersID[transfer.version] - {hash}];
        }
      }
    }

    method RemoveBridgeTransaction(hash: string)
      modifies this
      ensures Transfers() == old(Transfers()) && Bridges() == Remove(old(Bridges()), hash)
    {
      var index := 0;
      while index < |bridgeTransactions| && bridgeTransactions[index].id != hash
        invariant 0 <= index <= |bridgeTransactions|
        invariant forall j :: 0 <= j < index ==> bridgeTransactions[j].id != hash
      {
        index := index + 1;
      }
      if index < |bridgeTransactions| {
        var transfer := bridgeTransactions[index];
        bridgeTransactions := bridgeTransactions[..index] + bridgeTransactions[index + 1..];
        if transfer.version in bridgeTransactionsID {
          bridgeTransactionsID := bridgeTransactionsID[transfer.version := bridgeTransactionsID[transfer.version] - {hash}];
        }
      }
    }

    // Both lists are walked from the back, so that a splice does not move what is still to be looked at.
    method FromCacheMatch(now: int)
      modifies this
      ensures Transfers() == Expire(old(Transfers()), now) && Bridges() == Expire(old(Bridges()), now)
    {
      ExpireTransfers(now);
      ExpireBridges(now);
    }

    method ExpireTransfers(now: int)
      modifies `transfers, `transfersID
      ensures Transfers() == Expire(old(Transfers()), now)
    {
      hide Unexpired, DropExpired;
      ghost var all, ids := transfers, transfersID;
      WholeList(all, transfersID, now);
      var i := |transfers| - 1;
      while i >= 0
        invariant -1 <= i < |all|
        invariant transfers == all[..i + 1] + Unexpired(all[i + 1..], now)
        invariant DropExpired(ids, all, now) == DropExpired(transfersID, all[..i + 1], now)
      {
        StepBack(all, i, transfers, transfersID, now);
        var transfer := transfers[i];
        if now - transfer.time > MAX_TIME_MS {
          transfers := transfers[..i] + transfers[i + 1..];
          if transfer.version in transfersID {
            transfersID := transfersID[transfer.version := transfersID[transfer.version] - {transfer.id}];
          }
        }
        i := i - 1;
      }
      WholeList(all, transfersID, now);
    }

    method ExpireBridges(now: int)
      modifies `bridgeTransactions, `bridgeTransactionsID
      ensures Bridges() == Expire(old(Bridges()), now)
    {
      hide Unexpired, DropExpired;
      ghost var all, ids := bridgeTransactions, bridgeTransactionsID;
      WholeList(all, bridgeTransactionsID, now);
      var i := |bridgeTransactions| - 1;
      while i >= 0
        invariant -1 <= i < |all|
        invariant bridgeTransactions == all[..i + 1] + Unexpired(all[i + 1..], now)
        invariant DropExpired(ids, all, now) == DropExpired(bridgeTransactionsID, all[..i + 1], now)
      {
        StepBack(all, i, bridgeTransactions, bridgeTransactionsID, now);
        var transfer := bridgeTransactions[i];
        if now - transfer.time > MAX_TIME_MS {
          bridgeTransactions := bridgeTransactions[..i] + bridgeTransactions[i + 1..];
          if transfer.version in bridgeTransactionsID {
            bridgeTransactionsID := bridgeTransactionsID[transfer.version := bridgeTransactionsID[transfer.version] - {transfer.id}];
          }
        }
        i := i - 1;
      }
      WholeList(all, bridgeTransactionsID, now);
    }
  }

  // Before the first step back, and after the last.
  lemma WholeList<T>(all: seq<Entry<T>>, ids: Ids, now: int)
    ensures all[..|all|] + Unexpired(all[|all|..], now) == all && all[..|all|] == all
    ensures all[..0] + Unexpired(all[0..], now) == Unexpired(all, now)
    ensures DropExpired(ids, all[..0], now) == ids
  {
    assert all[..|all|] == all && all[|all|..] == [] && all[0..] == all && all[..0] == [];
  }

  // One step of the backward walk.
  lemma StepBack<T>(all: seq<Entry<T>>, i: nat, current: seq<Entry<T>>, ids: Ids, now: int)
    requires i < |all| && current == all[..i + 1] + Unexpired(all[i + 1..], now)
    ensures |current| > i && current[i] == all[i]
    ensures all[..i] + Unexpired(all[i..], now) == if Expired(all[i], now) then current[..i] + current[i + 1..] else current
    ensures DropExpired(ids, all[..i + 1], now)
         == DropExpired(if Expired(all[i], now) then Drop(ids, all[i].version, all[i].id) else ids, all[..i], now)
  {
    var later := Unexpired(all[i + 1..], now);
    assert all[i..][0] == all[i] && all[i..][1..] == all[i + 1..];
    assert Unexpired(all[i..], now) == (if Expired(all[i], now) then [] else [all[i]]) + later;
    assert all[..i + 1][..i] == all[..i] && all[..i + 1][i] == all[i];
    hide Unexpired, DropExpired, Drop;
    assert current[..i] == all[..i] && current[i + 1..] == later;
    assert all[..i] + [] == all[..i];
    assert current == all[..i] + ([all[i]] + later);
  }
}
