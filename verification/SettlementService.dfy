/**
 The version 1 service class, written as its source is: look up, check, open a transaction, update rows and
 statuses, and roll back when a row count is not what it should be. Each piece between two awaits is proved to do
 to the tables what its event does in Settlement.
 */
module SettlementService {
  import opened Wrappers
  import opened Text
  import opened Settlement
  import opened SettlementSafety
  import opened Tables

  class TransactionV1Service {
    var txs: map<Hash, Transfer>
    var ops: map<Hash, int>
    var rows: map<nat, Row>
    var nextId: nat
    var cache: seq<Cached>
    var tasks: map<nat, Task>

    ghost function Abs(): State
      reads this
    {
      State(txs, ops, rows, nextId, cache, tasks)
    }

    ghost predicate Valid()
      reads this
    {
      Inv(Abs())
    }

    constructor ()
      ensures Valid() && Abs() == Empty
    {
      txs, ops, rows, nextId, cache, tasks := map[], map[], map[], 1, [], map[];
    }

    // ---------- statements, with the number of rows they changed ----------

    method UpdateRow(id: nat, transfer: Transfer) returns (rowCount: nat)
      modifies `rows
      ensures rowCount == if id in old(rows) && Unsettled(old(rows)[id].status)
                             && transfer.timestamp - 4320 * 60000 < old(rows)[id].sourceTime < transfer.timestamp + 5 * 60000
                          then 1 else 0
      ensures rows == if rowCount == 1 then old(rows)[id := Settle(old(rows)[id], transfer)] else old(rows)
    {
      if id !in rows || !Unsettled(rows[id].status) {
        return 0;
      }
      var row := rows[id];
      if !(transfer.timestamp - 4320 * 60000 < row.sourceTime < transfer.timestamp + 5 * 60000) {
        return 0;
      }
      SaveRow(id, transfer);
      return 1;
    }

    method SaveRow(id: nat, transfer: Transfer)
      requires id in rows
      modifies `rows
      ensures rows == old(rows)[id := Settle(old(rows)[id], transfer)]
    {
      var row := rows[id];
      row := row.(targetId := Some(transfer.hash));
      row := row.(status := if transfer.status == 3 then PAID_CRASH else BRIDGE_SUCCESS);
      rows := rows[id := row];
    }

    method CloseTransfers(h: Hash, g: Hash) returns (rowCount: nat)
      modifies `ops
      ensures ops == CloseBoth(old(ops), h, g)
      ensures rowCount == (if Open(old(ops), h) then 1 else 0) + (if g != h && Open(old(ops), g) then 1 else 0)
    {
      rowCount := 0;
      if h in ops && (ops[h] == 0 || ops[h] == 1) {
        ops := ops[h := BRIDGE_SUCCESS];
        rowCount := 1;
      }
      if g in ops && (ops[g] == 0 || ops[g] == 1) {
        ops := ops[g := BRIDGE_SUCCESS];
        rowCount := rowCount + 1;
      }
    }

    // ---------- the source handler ----------

    method StartSource(t: nat, h: Hash, found: Option<nat>)
      requires Valid() && t !in tasks && h in txs && txs[h].version == V10 && IsRowOf(rows, txs[h], found)
      modifies this
      ensures Valid() && Abs() == Next(old(Abs()), SourceReads(t, h, found))
    {
      hide Inv;
      NextKeeps(Abs(), SourceReads(t, h, found));
      if txs[h].status != 2 {
        return;
      }
      if found.Some? && rows[found.value].status >= 90 {
        return;
      }
      tasks := tasks[t := SourceRead(h, found)];
    }

    // addBridgeTransaction
    method AddBridgeTransaction(entry: Cached, recent: bool)
      modifies `cache
      ensures cache == AddToCache(old(cache), entry, recent)
    {
      if !recent {
        return;
      }
      var i := 0;
      while i < |cache|
        invariant 0 <= i <= |cache| && cache == old(cache)
        invariant forall j :: 0 <= j < i ==> cache[j].sourceId != entry.sourceId
      {
        if cache[i].sourceId == entry.sourceId {
          return;
        }
        i := i + 1;
      }
      cache := cache + [entry];
    }

    // The statements of the transaction when there was no row: row, then cache. A failure after that rolls back the row, but
    // not the cache.
    method InsertRow(h: Hash, target: Target, outcome: Outcome, recent: bool) returns (ok: bool)
      requires h in txs
      modifies `nextId, `rows, `cache
      ensures var row := Row(h, txs[h].chain, txs[h].timestamp, target, 0, None);
        var inserted := outcome != FailsEarly && !Duplicate(old(rows), txs[h]) && old(nextId) !in old(rows);
        && ok == (inserted && outcome == Commits) && nextId == old(nextId) + 1
        && rows == (if ok then old(rows)[old(nextId) := row] else old(rows))
        && cache == if inserted then AddToCache(old(cache), Cached(old(nextId), h, txs[h].timestamp, target), recent) else old(cache)
    {
      hide Duplicate, AddToCache;
      var id := nextId;
      nextId := nextId + 1;
      if outcome == FailsEarly || id in rows || Duplicate(rows, txs[h]) {
        return false;
      }
      var committedRows := rows;
      rows := rows[id := Row(h, txs[h].chain, txs[h].timestamp, target, 0, None)];
      AddBridgeTransaction(Cached(id, h, txs[h].timestamp, target), recent);
      if outcome == FailsLate {
        rows := committedRows;
        return false;
      }
      return true;
    }

    // The transaction; `target` is what the builder made of the transfer this time.
    method FinishSource(t: nat, target: Target, payloadOp: int, outcome: Outcome, recent: bool)
      requires Valid() && t in tasks && tasks[t].SourceRead? && tasks[t].hash in txs && target.chain == txs[tasks[t].hash].targetChain
      modifies this
      ensures Abs() == Next(old(Abs()), SourceCommits(t, target, payloadOp, outcome, recent))
      ensures Valid()
    {
      hide Inv, Duplicate, AddToCache;
      var SourceRead(h, found) := tasks[t];
      tasks := tasks - {t};
      var ok := false;
      if found.Some? {
        if outcome == Commits && found.value in rows {
          var sourceBT := rows[found.value];
          sourceBT := sourceBT.(target := target);
          sourceBT := sourceBT.(sourceTime := txs[h].timestamp);
          rows := rows[found.value := sourceBT];
          ok := true;
        }
      } else {
        ok := InsertRow(h, target, outcome, recent);
      }
      if ok && payloadOp != 1 && h in ops {
        ops := ops[h := 1];
      }
      NextKeeps(old(Abs()), SourceCommits(t, target, payloadOp, outcome, recent));
    }

    // The expiry job.
    method DropExpired(i: nat)
      requires Valid() && i < |cache|
      modifies `cache
      ensures Valid() && Abs() == Next(old(Abs()), CacheDrops(i))
    {
      hide Inv;
      NextKeeps(Abs(), CacheDrops(i));
      cache := cache[..i] + cache[i + 1..];
    }

    // ---------- the payment handler ----------

    // The first transaction: both row counts must be right, or everything it wrote is taken back.
    method MatchFromMemory(transfer: Transfer, memoryBT: Cached, fails: bool) returns (committed: bool)
      requires memoryBT.id in rows ==> rows[memoryBT.id].sourceId == memoryBT.sourceId
      modifies `rows, `ops
      ensures committed == (!fails && MemoryGuards(old(Abs()), transfer, memoryBT.id, memoryBT.sourceId))
      ensures Abs() == if committed then Settled(old(Abs()), transfer, memoryBT.id) else old(Abs())
    {
      hide CloseBoth, Settle, Unsettled;
      var rowsBefore, opsBefore := rows, ops;
      var rowCount := UpdateRow(memoryBT.id, transfer);
      if rowCount != 1 {
        return false;
      }
      var updateTransferRows := CloseTransfers(transfer.hash, memoryBT.sourceId);
      if updateTransferRows != 2 || fails {
        rows, ops := rowsBefore, opsBefore;
        return false;
      }
      return true;
    }

    // matchV1GetBridgeTransactions: the first cached row that fits
    method MatchCache(transfer: Transfer) returns (bt: Option<Cached>)
      ensures bt == FindCached(cache, transfer)
    {
      var i := 0;
      while i < |cache|
        invariant 0 <= i <= |cache|
        invariant FindCached(cache, transfer) == FindCached(cache[i..], transfer)
      {
        if MemoryMatch(cache[i], transfer) {
          return Some(cache[i]);
        }
        i := i + 1;
      }
      return None;
    }

    method HandleTransferByDestTx(t: nat, h: Hash, fails: bool)
      requires Valid() && t !in tasks && h in txs && txs[h].version == V11 && txs[h].status == 2
      modifies this
      ensures Abs() == Next(old(Abs()), PaymentTries(t, h, fails))
      ensures Valid()
    {
      var cached := MatchCache(txs[h]);
      if cached.Some? {
        CachedFact(Abs(), cached.value);
      }
      hide Inv, MemoryMatch, FindCached, MemoryGuards, Settled;
      var committed := false;
      if cached.Some? {
        committed := MatchFromMemory(txs[h], cached.value, fails);
      }
      if !committed {
        tasks := tasks[t := SearchDb(h)];
      }
      NextKeeps(old(Abs()), PaymentTries(t, h, fails));
    }

    // The searches of the second transaction.
    method SearchMatch(t: nat, btTx: Option<nat>)
      requires Valid() && t in tasks && tasks[t].SearchDb? && tasks[t].hash in txs
      requires Finds(Abs(), txs[tasks[t].hash], btTx)
      modifies this
      ensures Valid() && Abs() == Next(old(Abs()), PaymentSearches(t, btTx))
    {
      hide Inv, Finds;
      NextKeeps(Abs(), PaymentSearches(t, btTx));
      if btTx.Some? {
        tasks := tasks[t := Matched(tasks[t].hash, btTx.value)];
      } else {
        tasks := tasks - {t};
      }
    }

    // What the second transaction writes.
    method SettleMatch(h: Hash, id: nat)
      requires h in txs && id in rows
      modifies `rows, `ops
      ensures Abs() == Settled(old(Abs()), txs[h], id)
    {
      hide CloseBoth, Settle;
      var sourceId := rows[id].sourceId;
      SaveRow(id, txs[h]);
      var _ := CloseTransfers(txs[h].hash, sourceId);
    }

    // Its save and commit, or its rollback.
    method SaveMatch(t: nat, fails: bool)
      requires Valid() && t in tasks && tasks[t].Matched?
      modifies this
      ensures Abs() == Next(old(Abs()), PaymentSaves(t, fails))
      ensures Valid()
    {
      TaskFact(Abs(), t);
      hide Inv, Settled;
      var Matched(h, id) := tasks[t];
      tasks := tasks - {t};
      if !fails {
        SettleMatch(h, id);
      }
      NextKeeps(old(Abs()), PaymentSaves(t, fails));
    }
  }
}
