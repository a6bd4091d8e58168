/**
 What every reachable state of the ledger satisfies, whatever the interleaving of claims, bookkeepers,
 rollbacks, redeliveries and restarts: no balance is negative, no cross row is credited twice, and the
 facts about rows, cache and handlers in progress that those two rest on.

 Each part of the invariant names the tables it is about, so that an event has to say something only of the
 parts whose tables it writes.
 */
module LedgerInvariants {
  import opened Wrappers
  import opened Ledger
  import opened Sequences
  import opened Tables
  import opened Text

  type Transfers = map<Hash, Transfer>
  type Statuses = map<Hash, int>
  type Rows = map<nat, Row>
  type Balances = map<Account, real>
  type Keepers = map<Chain, Keeper>

  // ---------- the invariant ----------

  ghost predicate TransfersOk(txs: Transfers, ops: Statuses)
  {
    ops.Keys == txs.Keys && forall h :: h in txs ==> txs[h].hash == h
  }

  // Whom a claim or cross is for: a cross may name someone else.
  function Receiver(tx: Transfer): Address
  {
    if tx.version == CrossV && tx.data.to != "" then Lower(tx.data.to) else tx.sender
  }

  // The row says of its source transfer what the transfer says itself.
  ghost predicate RowFor(txs: Transfers, assets: set<Asset>, r: Row)
  {
    && r.sourceId in txs
    && var tx := txs[r.sourceId];
    && r.version == tx.version && (r.version == ClaimV || r.version == CrossV)
    && r.sourceChain == tx.chain
    && r.sourceAddress == tx.sender
    && r.sourceNonce == tx.nonce && r.sourceTime == tx.timestamp && r.responseMaker == tx.receiver
    && r.targetAddress == Receiver(tx) && r.targetChain != r.sourceChain
    && r.asset == tx.data.AssetOf() && r.asset in assets
    && tx.data.amt.Some? && tx.data.amt.value.Number() == Some(r.targetAmount)
    && r.targetAmount >= 1.0 && r.targetAmount == r.targetAmount.Floor as real
  }

  ghost predicate OneRowPerSource(rows: Rows)
  {
    forall i, j :: i in rows && j in rows && rows[i].sourceId == rows[j].sourceId ==> i == j
  }

  ghost predicate RowsOk(txs: Transfers, assets: set<Asset>, rows: Rows, nextId: nat)
  {
    && (forall id :: id in rows ==> id < nextId && RowFor(txs, assets, rows[id]))
    && OneRowPerSource(rows)
  }

  // A cross row's source is at 1 until a match closes it at 99; a credited row has a target and is closed.
  ghost predicate StatusOk(ops: Statuses, r: Row, credited: nat)
  {
    && (r.version == CrossV ==> r.sourceId in ops && (ops[r.sourceId] == 1 || ops[r.sourceId] == MATCHED))
    && (credited > 0 ==> credited == 1 && r.version == CrossV && ops[r.sourceId] == MATCHED && r.targetId.Some?)
  }

  ghost predicate StatusesOk(ops: Statuses, rows: Rows, credits: multiset<nat>)
  {
    && (forall id :: id in rows ==> StatusOk(ops, rows[id], credits[id]))
    && (forall id :: id in credits ==> id in rows)
  }

  ghost predicate NonNegative(balances: Balances)
  {
    forall k :: k in balances ==> balances[k] >= 0.0
  }

  // A cached row may have been rolled back; if the database has a row under its id, it is that row.
  ghost predicate CachedOk(rows: Rows, nextId: nat, e: Cached)
  {
    e.id < nextId && e.row.version == CrossV && (e.id in rows ==> e.row.Core() == rows[e.id].Core())
  }

  ghost predicate CacheOk(rows: Rows, nextId: nat, cache: seq<Cached>)
  {
    forall e :: e in cache ==> CachedOk(rows, nextId, e)
  }

  ghost predicate TaskOk(txs: Transfers, assets: set<Asset>, rows: Rows, task: ClaimTask)
  {
    && task.hash in txs && txs[task.hash].version == ClaimV && txs[task.hash].data.AssetOf() in assets
    && (task.ClaimReady? ==>
          && task.row.sourceId == task.hash && RowFor(txs, assets, task.row)
          && (task.found.Some? ==> task.found.value in rows && rows[task.found.value].sourceId == task.hash))
  }

  ghost predicate ClaimsOk(txs: Transfers, assets: set<Asset>, rows: Rows, claims: map<nat, ClaimTask>)
  {
    forall t :: t in claims ==> TaskOk(txs, assets, rows, claims[t])
  }

  ghost predicate WaitsIn(txs: Transfers, ops: Statuses, c: Chain, h: Hash)
  {
    h in txs && h in ops && ops[h] == 0 && txs[h].chain == c && KeptVersion(txs[h].version)
  }

  ghost predicate BatchOk(txs: Transfers, ops: Statuses, c: Chain, k: Keeper)
  {
    k.Busy? ==>
      && k.batch != [] && Distinct(k.batch)
      && (forall i :: 0 <= i < |k.batch| ==> WaitsIn(txs, ops, c, k.batch[i]))
      && (k.phase.CrossReady? ==> txs[k.batch[0]].version == CrossV)
      && ((k.phase.MemoryMatched? || k.phase.SearchDb? || k.phase.Found?) ==> txs[k.batch[0]].version == CrossOverV)
  }

  ghost predicate BatchesOk(txs: Transfers, ops: Statuses, keepers: Keepers)
  {
    forall c :: c in keepers ==> BatchOk(txs, ops, c, keepers[c])
  }

  // The row asks for what the crossover pays.
  ghost predicate Fits(r: Row, tx: Transfer)
  {
    && tx.data.amt.Some? && tx.data.amt.value.Number() == Some(r.targetAmount)
    && r.targetAddress == tx.receiver && r.targetChain == tx.chain && r.asset.tick == tx.data.tick
    && r.sourceNonce == tx.value && r.responseMaker == tx.sender
  }

  // Up to case and to the nearest integer, and not too long before.
  ghost predicate Resembles(r: Row, tx: Transfer)
  {
    && tx.data.amt.Some? && tx.data.amt.value.Number().Some?
    && (r.targetAmount + 0.5).Floor == (tx.data.amt.value.Number().value + 0.5).Floor
    && r.targetAddress == tx.receiver && r.targetChain == tx.chain && EqualsIgnoreCase(r.asset.tick, tx.data.tick)
    && r.sourceNonce == tx.value && r.responseMaker == tx.sender && tx.timestamp > r.sourceTime - 60000
  }

  // The accounts and the amount of a transfer.
  ghost predicate Moves(tx: Transfer, c: Chain, from: Account, to: Account, amount: Amount)
  {
    && tx.version == TransferV && tx.data.amt == Some(amount)
    && from == Account(tx.sender, c, tx.data.AssetOf()) && to == Account(Lower(tx.data.to), c, tx.data.AssetOf())
  }

  // The transfer a bookkeeper has in hand.
  ghost predicate InHand(txs: Transfers, k: Keeper, tx: Transfer)
  {
    k.Busy? && k.batch != [] && k.batch[0] in txs && txs[k.batch[0]] == tx
  }

  // What a handler in progress holds agrees with the rows.
  ghost predicate PhaseOk(txs: Transfers, assets: set<Asset>, rows: Rows, nextId: nat, c: Chain, k: Keeper)
  {
    k.Busy? ==>
      match k.phase
      case CrossReady(found, row) =>
        found.None? && k.batch != [] && row.sourceId == k.batch[0] && RowFor(txs, assets, row) && row.version == CrossV
        && row.sourceChain == c
      case MemoryMatched(_, e) =>
        CachedOk(rows, nextId, e) && e.row.targetChain == c && exists tx :: InHand(txs, k, tx) && Resembles(e.row, tx)
      case Found(id, r) =>
        id in rows && rows[id].version == CrossV && rows[id].targetChain == c && r.Core() == rows[id].Core()
        && exists tx :: InHand(txs, k, tx) && Fits(r, tx)
      case TransferReady(from, to, amount) =>
        exists tx :: InHand(txs, k, tx) && Moves(tx, c, from, to, amount)
      case _ => true
  }

  ghost predicate PhasesOk(txs: Transfers, assets: set<Asset>, rows: Rows, nextId: nat, keepers: Keepers)
  {
    forall c :: c in keepers ==> PhaseOk(txs, assets, rows, nextId, c, keepers[c])
  }

  // The amount a debit in progress takes is still there.
  ghost predicate FundOk(balances: Balances, k: Keeper)
  {
    k.Busy? ==>
      match k.phase
      case CrossReady(_, row) =>
        var account := Account(row.sourceAddress, row.sourceChain, row.asset);
        account in balances && balances[account] >= row.targetAmount
      case TransferReady(from, _, amount) => from in balances && !LessThan(balances[from], amount)
      case _ => true
  }

  ghost predicate FundsOk(balances: Balances, keepers: Keepers)
  {
    forall c :: c in keepers ==> FundOk(balances, keepers[c])
  }

  // A row found in the database is not credited before its finder commits.
  ghost predicate FreshOk(credits: multiset<nat>, k: Keeper)
  {
    k.Busy? && k.phase.Found? ==> credits[k.phase.id] == 0
  }

  ghost predicate AllFresh(credits: multiset<nat>, keepers: Keepers)
  {
    forall c :: c in keepers ==> FreshOk(credits, keepers[c])
  }

  ghost predicate Inv(s: State)
  {
    var assets := s.deploys.Keys;
    && TransfersOk(s.txs, s.ops)
    && RowsOk(s.txs, assets, s.rows, s.nextId)
    && StatusesOk(s.ops, s.rows, s.credits)
    && NonNegative(s.balances)
    && CacheOk(s.rows, s.nextId, s.cache)
    && ClaimsOk(s.txs, assets, s.rows, s.claims)
    && BatchesOk(s.txs, s.ops, s.keepers)
    && PhasesOk(s.txs, assets, s.rows, s.nextId, s.keepers)
    && FundsOk(s.balances, s.keepers)
    && AllFresh(s.credits, s.keepers)
  }

  // ---------- one table changes: what survives ----------

  // Transfers and assets are only ever added.
  lemma RegistryGrows(s: State, txs: Transfers, assets: set<Asset>)
    requires Inv(s)
    requires forall h :: h in s.txs ==> h in txs && txs[h] == s.txs[h]
    requires s.deploys.Keys <= assets
    ensures RowsOk(txs, assets, s.rows, s.nextId)
    ensures ClaimsOk(txs, assets, s.rows, s.claims)
    ensures PhasesOk(txs, assets, s.rows, s.nextId, s.keepers)
  {
    forall c | c in s.keepers
      ensures PhaseOk(txs, assets, s.rows, s.nextId, c, s.keepers[c])
    {
      assert PhaseOk(s.txs, s.deploys.Keys, s.rows, s.nextId, c, s.keepers[c]);
    }
    forall t | t in s.claims
      ensures TaskOk(txs, assets, s.rows, s.claims[t])
    {
      assert TaskOk(s.txs, s.deploys.Keys, s.rows, s.claims[t]);
    }
  }

  // A transfer no cross row came from: it is of another kind, or its bookkeeper has not processed it.
  lemma NotACrossSource(s: State, h: Hash)
    requires Inv(s) && h in s.txs
    requires s.txs[h].version != CrossV || s.ops[h] == 0
    ensures forall id :: id in s.rows && s.rows[id].version == CrossV ==> s.rows[id].sourceId != h
  {
    forall id | id in s.rows && s.rows[id].version == CrossV
      ensures s.rows[id].sourceId != h
    {
      assert StatusOk(s.ops, s.rows[id], s.credits[id]) && RowFor(s.txs, s.deploys.Keys, s.rows[id]);
    }
  }

  // The status of such a transfer may change without any row noticing.
  lemma StatusChange(s: State, h: Hash, code: int)
    requires Inv(s) && h in s.txs
    requires s.txs[h].version != CrossV || s.ops[h] == 0
    ensures TransfersOk(s.txs, SetOp(s.ops, h, code))
    ensures StatusesOk(SetOp(s.ops, h, code), s.rows, s.credits)
  {
    NotACrossSource(s, h);
    forall id | id in s.rows
      ensures StatusOk(SetOp(s.ops, h, code), s.rows[id], s.credits[id])
    {
      assert StatusOk(s.ops, s.rows[id], s.credits[id]);
    }
  }

  // Batches survive when the statuses of what they still hold do.
  lemma BatchesSurvive(s: State, ops: Statuses, but: set<Chain>)
    requires BatchesOk(s.txs, s.ops, s.keepers)
    requires forall c, h :: c !in but && WaitsIn(s.txs, s.ops, c, h) ==> WaitsIn(s.txs, ops, c, h)
    ensures forall c :: c in s.keepers && c !in but ==> BatchOk(s.txs, ops, c, s.keepers[c])
  {
    forall c | c in s.keepers && c !in but
      ensures BatchOk(s.txs, ops, c, s.keepers[c])
    {
      assert BatchOk(s.txs, s.ops, c, s.keepers[c]);
    }
  }

  lemma CoreKeepsVersion(a: Row, b: Row)
    requires a.Core() == b.Core()
    ensures a.version == b.version && a.targetChain == b.targetChain && a.sourceId == b.sourceId
    ensures a.targetAmount == b.targetAmount && a.asset == b.asset && a.targetAddress == b.targetAddress
  {
    assert a.Core().version == a.version && a.Core().targetChain == a.targetChain && a.Core().sourceId == a.sourceId;
    assert a.Core().targetAmount == a.targetAmount && a.Core().asset == a.asset && a.Core().targetAddress == a.targetAddress;
  }

  // Rows keep their source, and cross rows all but the two settled columns; new rows get ids not used before.
  ghost predicate RowsGrow(rows: Rows, nextId: nat, rows': Rows, nextId': nat)
  {
    && nextId <= nextId'
    && (forall id :: id in rows ==> id in rows' && rows'[id].sourceId == rows[id].sourceId)
    && (forall id :: id in rows && rows[id].version == CrossV ==> rows'[id].Core() == rows[id].Core())
    && (forall id :: id in rows' ==> id in rows || id >= nextId)
  }

  lemma CachedSurvives(rows: Rows, nextId: nat, rows': Rows, nextId': nat, e: Cached)
    requires RowsGrow(rows, nextId, rows', nextId') && CachedOk(rows, nextId, e)
    ensures CachedOk(rows', nextId', e)
  {
    if e.id in rows {
      CoreKeepsVersion(e.row, rows[e.id]);
    }
  }

  lemma RowsChange(s: State, rows': Rows, nextId': nat)
    requires Inv(s) && RowsGrow(s.rows, s.nextId, rows', nextId')
    ensures CacheOk(rows', nextId', s.cache)
    ensures ClaimsOk(s.txs, s.deploys.Keys, rows', s.claims)
    ensures PhasesOk(s.txs, s.deploys.Keys, rows', nextId', s.keepers)
  {
    forall e | e in s.cache
      ensures CachedOk(rows', nextId', e)
    {
      CachedSurvives(s.rows, s.nextId, rows', nextId', e);
    }
    forall t | t in s.claims
      ensures TaskOk(s.txs, s.deploys.Keys, rows', s.claims[t])
    {
      assert TaskOk(s.txs, s.deploys.Keys, s.rows, s.claims[t]);
    }
    forall c | c in s.keepers
      ensures PhaseOk(s.txs, s.deploys.Keys, rows', nextId', c, s.keepers[c])
    {
      PhaseSurvives(s, rows', nextId', c, s.keepers[c]);
    }
  }

  lemma PhaseSurvives(s: State, rows': Rows, nextId': nat, c: Chain, k: Keeper)
    requires RowsGrow(s.rows, s.nextId, rows', nextId') && PhaseOk(s.txs, s.deploys.Keys, s.rows, s.nextId, c, k)
    ensures PhaseOk(s.txs, s.deploys.Keys, rows', nextId', c, k)
  {
    if k.Busy? && k.phase.MemoryMatched? {
      CachedSurvives(s.rows, s.nextId, rows', nextId', k.phase.entry);
    } else if k.Busy? && k.phase.Found? {
      CoreKeepsVersion(rows'[k.phase.id], s.rows[k.phase.id]);
    }
  }

  // A row inserted under the next id, for a transfer that had none.
  lemma RowInserted(s: State, row: Row)
    requires Inv(s) && RowFor(s.txs, s.deploys.Keys, row) && !Duplicate(s.rows, row)
    ensures RowsGrow(s.rows, s.nextId, s.rows[s.nextId := row], s.nextId + 1)
    ensures RowsOk(s.txs, s.deploys.Keys, s.rows[s.nextId := row], s.nextId + 1)
  {
    hide StatusesOk, ClaimsOk, PhasesOk, BatchesOk, FundsOk, CacheOk, AllFresh, NonNegative;
    forall id | id in s.rows
      ensures s.rows[id].sourceId != row.sourceId
    {
      assert RowFor(s.txs, s.deploys.Keys, s.rows[id]);
    }
    assert s.nextId !in s.rows;
  }

  lemma StatusesAfterInsert(s: State, row: Row, ops: Statuses)
    requires Inv(s) && row.sourceId in s.txs && s.nextId !in s.rows
    requires ops == s.ops || ops == SetOp(s.ops, row.sourceId, VALID)
    requires row.version == CrossV ==> ops == SetOp(s.ops, row.sourceId, VALID)
    requires forall id :: id in s.rows ==> s.rows[id].sourceId != row.sourceId
    ensures TransfersOk(s.txs, ops)
    ensures StatusesOk(ops, s.rows[s.nextId := row], s.credits)
  {
    hide RowsOk, ClaimsOk, PhasesOk, BatchesOk, FundsOk, CacheOk, AllFresh, NonNegative;
    var rows' := s.rows[s.nextId := row];
    forall id | id in rows'
      ensures StatusOk(ops, rows'[id], s.credits[id])
    {
      if id in s.rows {
        assert StatusOk(s.ops, s.rows[id], s.credits[id]);
      }
    }
  }

  // One row settled.
  lemma RowSettled(s: State, tx: Transfer, id: nat)
    requires Inv(s) && id in s.rows
    ensures RowsGrow(s.rows, s.nextId, s.rows[id := Settle(s.rows[id], tx)], s.nextId)
    ensures RowsOk(s.txs, s.deploys.Keys, s.rows[id := Settle(s.rows[id], tx)], s.nextId)
  {
    hide StatusesOk, ClaimsOk, PhasesOk, BatchesOk, FundsOk, CacheOk, AllFresh, NonNegative, SettledStatus;
    assert RowFor(s.txs, s.deploys.Keys, s.rows[id]);
    assert RowFor(s.txs, s.deploys.Keys, Settle(s.rows[id], tx));
  }

  lemma StatusAfterClose(ops: Statuses, r: Row, credited: nat, h: Hash, g: Hash)
    requires StatusOk(ops, r, credited) && r.sourceId in ops
    ensures StatusOk(CloseBoth(ops, h, g), r, credited)
  {
  }

  // The pair of transfers is closed, and the row may have been credited.
  lemma StatusesAfterSettle(s: State, tx: Transfer, id: nat, credits: multiset<nat>)
    requires Inv(s) && id in s.rows
    requires credits == s.credits || (credits == s.credits + multiset{id} && s.credits[id] == 0 && s.rows[id].version == CrossV)
    ensures TransfersOk(s.txs, CloseBoth(s.ops, tx.hash, s.rows[id].sourceId))
    ensures StatusesOk(CloseBoth(s.ops, tx.hash, s.rows[id].sourceId), s.rows[id := Settle(s.rows[id], tx)], credits)
  {
    hide OneRowPerSource, ClaimsOk, PhasesOk, BatchesOk, FundsOk, CacheOk, AllFresh, NonNegative, SettledStatus;
    var g := s.rows[id].sourceId;
    var rows' := s.rows[id := Settle(s.rows[id], tx)];
    forall i | i in rows'
      ensures StatusOk(CloseBoth(s.ops, tx.hash, g), rows'[i], credits[i])
    {
      assert RowFor(s.txs, s.deploys.Keys, s.rows[i]);
      StatusAfterClose(s.ops, s.rows[i], s.credits[i], tx.hash, g);
      if i == id {
        SettledRowOk(s.ops, s.rows[id], tx, s.credits[id], credits[id]);
      }
    }
  }

  lemma SettledRowOk(ops: Statuses, r: Row, tx: Transfer, before: nat, after: nat)
    requires StatusOk(ops, r, before) && r.sourceId in ops
    requires after == before || (before == 0 && after == 1 && r.version == CrossV)
    ensures StatusOk(CloseBoth(ops, tx.hash, r.sourceId), Settle(r, tx), after)
  {
  }

  // Closing a pair disturbs no batch but those that hold the first of the pair.
  lemma CloseDisturbs(s: State, tx: Transfer, id: nat)
    requires Inv(s) && id in s.rows && tx.hash in s.txs && s.txs[tx.hash] == tx
    ensures forall c, h :: WaitsIn(s.txs, s.ops, c, h) && h != tx.hash ==> WaitsIn(s.txs, CloseBoth(s.ops, tx.hash, s.rows[id].sourceId), c, h)
  {
    assert RowFor(s.txs, s.deploys.Keys, s.rows[id]) && StatusOk(s.ops, s.rows[id], s.credits[id]);
  }

  // A balance grows, or shrinks by no more than it holds: only funds of bookkeepers on its chain can be touched.
  lemma BalanceChange(s: State, account: Account, v: real)
    requires Inv(s)
    requires v >= 0.0 || (account in s.balances && s.balances[account] >= -v)
    ensures NonNegative(IncBalance(s.balances, account, v))
    ensures forall c :: c in s.keepers && (v >= 0.0 || c != account.chain) ==> FundOk(IncBalance(s.balances, account, v), s.keepers[c])
  {
    forall c | c in s.keepers && (v >= 0.0 || c != account.chain)
      ensures FundOk(IncBalance(s.balances, account, v), s.keepers[c])
    {
      assert FundOk(s.balances, s.keepers[c]) && PhaseOk(s.txs, s.deploys.Keys, s.rows, s.nextId, c, s.keepers[c]);
    }
  }

  // ---------- one handler changes its place: what survives ----------

  lemma TaskPut(s: State, t: nat, task: ClaimTask)
    requires Inv(s) && TaskOk(s.txs, s.deploys.Keys, s.rows, task)
    ensures Inv(s.(claims := s.claims[t := task]))
  {
    hide TransfersOk, RowsOk, StatusesOk, NonNegative, CacheOk, BatchesOk, PhasesOk, FundsOk, AllFresh, TaskOk;
  }

  lemma TaskDropped(s: State, t: nat)
    requires Inv(s)
    ensures Inv(WithoutClaim(s, t))
  {
    hide TransfersOk, RowsOk, StatusesOk, NonNegative, CacheOk, BatchesOk, PhasesOk, FundsOk, AllFresh, TaskOk;
  }

  ghost predicate KeeperOk(s: State, c: Chain, k: Keeper)
  {
    && BatchOk(s.txs, s.ops, c, k) && PhaseOk(s.txs, s.deploys.Keys, s.rows, s.nextId, c, k)
    && FundOk(s.balances, k) && FreshOk(s.credits, k)
  }

  // All bookkeepers but c are in order, whatever c itself is doing.
  ghost predicate OthersOk(s: State, c: Chain)
  {
    forall d :: d in s.keepers && d != c ==> KeeperOk(s, d, s.keepers[d])
  }

  ghost predicate TablesOk(s: State)
  {
    var assets := s.deploys.Keys;
    && TransfersOk(s.txs, s.ops)
    && RowsOk(s.txs, assets, s.rows, s.nextId)
    && StatusesOk(s.ops, s.rows, s.credits)
    && NonNegative(s.balances)
    && CacheOk(s.rows, s.nextId, s.cache)
    && ClaimsOk(s.txs, assets, s.rows, s.claims)
  }

  lemma InvParts(s: State, c: Chain)
    requires Inv(s)
    ensures TablesOk(s) && OthersOk(s, c) && (c in s.keepers ==> KeeperOk(s, c, s.keepers[c]))
  {
    hide TransfersOk, RowsOk, StatusesOk, NonNegative, CacheOk, ClaimsOk, BatchOk, PhaseOk, FundOk, FreshOk;
  }

  lemma InvFromParts(s: State, c: Chain, k: Keeper)
    requires TablesOk(s) && OthersOk(s, c) && KeeperOk(s, c, k)
    ensures Inv(s.(keepers := s.keepers[c := k]))
  {
    hide TransfersOk, RowsOk, StatusesOk, NonNegative, CacheOk, ClaimsOk, BatchOk, PhaseOk, FundOk, FreshOk;
  }

  lemma KeeperPut(s: State, c: Chain, k: Keeper)
    requires Inv(s) && KeeperOk(s, c, k)
    ensures Inv(s.(keepers := s.keepers[c := k]))
  {
    hide Inv, KeeperOk, TablesOk, OthersOk;
    InvParts(s, c);
    InvFromParts(s, c, k);
  }

  // The rest of a batch, in a state where all but its first transfer still wait.
  lemma RestOk(s: State, c: Chain, k: Keeper, n: State)
    requires k.Busy? && BatchOk(s.txs, s.ops, c, k)
    requires forall h :: WaitsIn(s.txs, s.ops, c, h) && h != k.batch[0] ==> WaitsIn(n.txs, n.ops, c, h)
    ensures KeeperOk(n, c, Rest(k.batch))
  {
    var rest := k.batch[1..];
    forall i | 0 <= i < |rest|
      ensures WaitsIn(n.txs, n.ops, c, rest[i])
    {
      assert WaitsIn(s.txs, s.ops, c, k.batch[i + 1]) && k.batch[0] != k.batch[i + 1];
    }
  }

  // ---------- every event keeps the invariant ----------

  lemma ArriveKeeps(s: State, tx: Transfer, opStatus: int)
    requires Inv(s)
    ensures Inv(Arrive(s, tx, opStatus))
  {
    if tx.hash !in s.txs {
      RegistryGrows(s, s.txs[tx.hash := tx], s.deploys.Keys);
      StatusesAfterArrival(s, tx, opStatus);
      hide TransfersOk, RowsOk, StatusesOk, NonNegative, CacheOk, ClaimsOk, BatchesOk, PhasesOk, FundsOk, AllFresh;
    }
  }

  lemma StatusesAfterArrival(s: State, tx: Transfer, opStatus: int)
    requires Inv(s) && tx.hash !in s.txs
    ensures TransfersOk(s.txs[tx.hash := tx], s.ops[tx.hash := opStatus])
    ensures StatusesOk(s.ops[tx.hash := opStatus], s.rows, s.credits)
    ensures BatchesOk(s.txs[tx.hash := tx], s.ops[tx.hash := opStatus], s.keepers)
  {
    forall id | id in s.rows
      ensures StatusOk(s.ops[tx.hash := opStatus], s.rows[id], s.credits[id])
    {
      assert StatusOk(s.ops, s.rows[id], s.credits[id]) && RowFor(s.txs, s.deploys.Keys, s.rows[id]);
    }
    forall c | c in s.keepers
      ensures BatchOk(s.txs[tx.hash := tx], s.ops[tx.hash := opStatus], c, s.keepers[c])
    {
      assert BatchOk(s.txs, s.ops, c, s.keepers[c]);
    }
  }

  // A transfer no bookkeeper handles gets a new status.
  lemma StatusKeeps(s: State, h: Hash, code: int)
    requires Inv(s) && h in s.txs && !KeptVersion(s.txs[h].version)
    ensures Inv(s.(ops := SetOp(s.ops, h, code)))
  {
    StatusChange(s, h, code);
    BatchesSurvive(s, SetOp(s.ops, h, code), {});
    assert BatchesOk(s.txs, SetOp(s.ops, h, code), s.keepers);
    hide TransfersOk, RowsOk, StatusesOk, NonNegative, CacheOk, ClaimsOk, BatchesOk, PhasesOk, FundsOk, AllFresh;
  }

  lemma DeployKeeps(s: State, h: Hash, cfg: Config)
    requires Inv(s)
    ensures Inv(DeployTransfer(s, h, cfg))
  {
    hide Inv;
    if h in s.txs && s.txs[h].version == DeployV {
      var d := s.txs[h].data;
      StatusKeeps(s, h, INVALID_OP_PARAMS);
      StatusKeeps(s, h, INVALID_DEPLOY_MAKER);
      StatusKeeps(s, h, MATCHED);
      if d.max.Some? && d.lim.Some? {
        AssetAdded(s.(ops := SetOp(s.ops, h, MATCHED)), d.AssetOf(), Deploy(s.txs[h].receiver, d.max.value, d.lim.value, 0.0, 0));
      }
    }
  }

  lemma AssetAdded(s: State, a: Asset, d: Deploy)
    requires Inv(s)
    ensures Inv(s.(deploys := s.deploys[a := d]))
  {
    RegistryGrows(s, s.txs, s.deploys.Keys + {a});
    assert s.deploys[a := d].Keys == s.deploys.Keys + {a};
    hide TransfersOk, RowsOk, StatusesOk, NonNegative, CacheOk, ClaimsOk, BatchesOk, PhasesOk, FundsOk, AllFresh;
  }

  lemma ClaimReadKeeps(s: State, t: nat, h: Hash, payloadOp: int)
    requires Inv(s)
    ensures Inv(ClaimRead(s, t, h, payloadOp))
  {
    hide Inv;
    if h in s.txs && s.txs[h].version == ClaimV {
      StatusKeeps(s, h, INVALID_OP_PARAMS);
      StatusKeeps(s, h, INVALID_OP);
      StatusKeeps(s, h, DEPLOY_RECORD_NOT_FOUND);
      var a := s.txs[h].data.AssetOf();
      if a in s.deploys {
        TaskPut(s, t, ReadDeploy(h, payloadOp, s.deploys[a]));
      }
    }
  }

  lemma TaskFact(s: State, t: nat)
    requires Inv(s) && t in s.claims
    ensures TransfersOk(s.txs, s.ops) && TaskOk(s.txs, s.deploys.Keys, s.rows, s.claims[t])
  {
  }

  lemma BuiltRow(s: State, tx: Transfer, deploy: Deploy, cfg: Config)
    requires TransfersOk(s.txs, s.ops) && tx.hash in s.txs && s.txs[tx.hash] == tx && tx.version == ClaimV
    requires tx.data.AssetOf() in s.deploys && Build(tx, deploy, cfg).Ok?
    ensures RowFor(s.txs, s.deploys.Keys, Build(tx, deploy, cfg).value) && Build(tx, deploy, cfg).value.sourceId == tx.hash
  {
  }

  lemma ClaimCheckKeeps(s: State, t: nat, found: Option<nat>, cfg: Config)
    requires Inv(s)
    ensures Inv(ClaimCheck(s, t, found, cfg))
  {
    hide Inv, Build, RowFor;
    if t in s.claims && s.claims[t].ReadDeploy? && s.claims[t].hash in s.txs && IsRowOf(s.rows, s.txs[s.claims[t].hash], found) {
      var ReadDeploy(h, payloadOp, deploy) := s.claims[t];
      TaskFact(s, t);
      TaskDropped(s, t);
      match Build(s.txs[h], deploy, cfg)
      case Err(code) =>
        StatusKeeps(WithoutClaim(s, t), h, code);
      case Ok(row) =>
        BuiltRow(s, s.txs[h], deploy, cfg);
        TaskPut(s, t, ClaimReady(h, payloadOp, found, row));
    }
  }

  lemma ClaimFinishKeeps(s: State, t: nat, fails: bool)
    requires Inv(s)
    ensures Inv(ClaimFinish(s, t, fails))
  {
    hide Inv, RowFor, IncMinted, IncBalance, SetOp, Duplicate;
    if t in s.claims && s.claims[t].ClaimReady? {
      var ClaimReady(h, payloadOp, found, row) := s.claims[t];
      TaskFact(s, t);
      TaskDropped(s, t);
      var base := WithoutClaim(s, t);
      if found.Some? {
        if !fails && found.value in s.rows {
          ClaimRefreshKeeps(base, h, payloadOp, found.value, row);
        }
      } else if fails || Duplicate(s.rows, row) || s.nextId in s.rows {
        SkipIdKeeps(base);
      } else {
        ClaimInsertKeeps(base, h, payloadOp, row);
      }
    }
  }

  // A failed insert has used up an id.
  lemma SkipIdKeeps(s: State)
    requires Inv(s)
    ensures Inv(s.(nextId := s.nextId + 1))
  {
    RowsChange(s, s.rows, s.nextId + 1);
    assert RowsOk(s.txs, s.deploys.Keys, s.rows, s.nextId + 1);
    hide TransfersOk, RowsOk, StatusesOk, NonNegative, CacheOk, ClaimsOk, BatchesOk, PhasesOk, FundsOk, AllFresh;
  }

  lemma Refreshed(s: State, id: nat, row: Row)
    requires Inv(s) && RowFor(s.txs, s.deploys.Keys, row) && row.version == ClaimV
    requires id in s.rows && s.rows[id].sourceId == row.sourceId
    ensures RowsGrow(s.rows, s.nextId, s.rows[id := row], s.nextId)
    ensures RowsOk(s.txs, s.deploys.Keys, s.rows[id := row], s.nextId)
  {
    hide StatusesOk, ClaimsOk, PhasesOk, BatchesOk, FundsOk, CacheOk, AllFresh, NonNegative, TransfersOk, RowFor;
    VersionOf(s.txs, s.deploys.Keys, s.rows[id], row);
  }

  lemma StatusesAfterRefresh(s: State, id: nat, row: Row)
    requires Inv(s) && RowFor(s.txs, s.deploys.Keys, row) && row.version == ClaimV
    requires id in s.rows && s.rows[id].sourceId == row.sourceId
    ensures StatusesOk(s.ops, s.rows[id := row], s.credits)
  {
    hide OneRowPerSource, ClaimsOk, PhasesOk, BatchesOk, FundsOk, CacheOk, AllFresh, NonNegative, TransfersOk, RowFor, StatusOk;
    VersionOf(s.txs, s.deploys.Keys, s.rows[id], row);
    NotCredited(s, id);
    ClaimRowStatus(s.ops, row);
  }

  lemma NotCredited(s: State, id: nat)
    requires Inv(s) && id in s.rows && s.rows[id].sourceId in s.txs && s.txs[s.rows[id].sourceId].version == ClaimV
    ensures s.credits[id] == 0
  {
    assert RowFor(s.txs, s.deploys.Keys, s.rows[id]) && StatusOk(s.ops, s.rows[id], s.credits[id]);
  }

  lemma ClaimRowStatus(ops: Statuses, r: Row)
    requires r.version == ClaimV
    ensures StatusOk(ops, r, 0)
  {
  }

  lemma VersionOf(txs: Transfers, assets: set<Asset>, r: Row, row: Row)
    requires RowFor(txs, assets, r) && RowFor(txs, assets, row) && r.sourceId == row.sourceId
    ensures row.sourceId in txs && r.version == row.version == txs[row.sourceId].version
  {
  }

  lemma ClaimRefreshKeeps(s: State, h: Hash, payloadOp: int, id: nat, row: Row)
    requires Inv(s) && h in s.txs && s.txs[h].version == ClaimV && row.sourceId == h && RowFor(s.txs, s.deploys.Keys, row)
    requires id in s.rows && s.rows[id].sourceId == h
    ensures Inv(s.(rows := s.rows[id := row.(status := s.rows[id].status, targetId := s.rows[id].targetId)],
                   ops := if payloadOp != 1 then SetOp(s.ops, h, VALID) else s.ops))
  {
    var r := row.(status := s.rows[id].status, targetId := s.rows[id].targetId);
    RowRefreshed(s, id, r);
    hide Inv, RowFor;
    StatusKeepsIf(s.(rows := s.rows[id := r]), h, payloadOp);
  }

  lemma RowRefreshed(s: State, id: nat, row: Row)
    requires Inv(s) && RowFor(s.txs, s.deploys.Keys, row) && row.version == ClaimV
    requires id in s.rows && s.rows[id].sourceId == row.sourceId
    ensures Inv(s.(rows := s.rows[id := row]))
  {
    hide TransfersOk, RowsOk, StatusesOk, NonNegative, CacheOk, ClaimsOk, BatchesOk, PhasesOk, FundsOk, AllFresh, RowFor;
    Refreshed(s, id, row);
    StatusesAfterRefresh(s, id, row);
    RowsChange(s, s.rows[id := row], s.nextId);
  }

  lemma StatusKeepsIf(s: State, h: Hash, payloadOp: int)
    requires h in s.txs && !KeptVersion(s.txs[h].version)
    ensures Inv(s) ==> Inv(s.(ops := if payloadOp != 1 then SetOp(s.ops, h, VALID) else s.ops))
  {
    hide Inv;
    if payloadOp != 1 && Inv(s) {
      StatusKeeps(s, h, VALID);
    }
  }

  lemma ClaimInsertKeeps(s: State, h: Hash, payloadOp: int, row: Row)
    requires Inv(s) && h in s.txs && s.txs[h].version == ClaimV && row.sourceId == h && RowFor(s.txs, s.deploys.Keys, row)
    requires !Duplicate(s.rows, row) && s.nextId !in s.rows
    ensures Inv(s.(rows := s.rows[s.nextId := row],
                   nextId := s.nextId + 1,
                   deploys := IncMinted(s.deploys, row.asset, row.targetAmount),
                   balances := IncBalance(s.balances, Account(row.sourceAddress, row.targetChain, row.asset), row.targetAmount),
                   ops := if payloadOp != 1 then SetOp(s.ops, h, VALID) else s.ops))
  {
    var account := Account(row.sourceAddress, row.targetChain, row.asset);
    var m := s.(rows := s.rows[s.nextId := row],
                nextId := s.nextId + 1,
                deploys := IncMinted(s.deploys, row.asset, row.targetAmount),
                balances := IncBalance(s.balances, account, row.targetAmount));
    assert m.deploys.Keys == s.deploys.Keys;
    RowInserted(s, row);
    NoRowYet(s, row);
    StatusesAfterInsert(s, row, s.ops);
    RowsChange(s, m.rows, m.nextId);
    assert row.targetAmount >= 0.0;
    BalanceChange(s, account, row.targetAmount);
    assert FundsOk(m.balances, s.keepers);
    StatusKeepsIf(m, h, payloadOp);
    hide TransfersOk, RowsOk, StatusesOk, NonNegative, CacheOk, ClaimsOk, BatchesOk, PhasesOk, FundsOk, AllFresh;
  }

  lemma NoRowYet(s: State, row: Row)
    requires Inv(s) && RowFor(s.txs, s.deploys.Keys, row) && !Duplicate(s.rows, row)
    ensures forall id :: id in s.rows ==> s.rows[id].sourceId != row.sourceId
  {
    forall id | id in s.rows
      ensures s.rows[id].sourceId != row.sourceId
    {
      assert RowFor(s.txs, s.deploys.Keys, s.rows[id]);
    }
  }

  lemma MintSaveKeeps(s: State, h: Hash, id: nat)
    requires Inv(s)
    ensures Inv(MintSave(s, h, id))
  {
    if h in s.txs && s.txs[h].version == MintV && id in s.rows {
      var tx := s.txs[h];
      assert tx.hash == h;
      RowSettled(s, tx, id);
      StatusesAfterSettle(s, tx, id, s.credits);
      RowsChange(s, s.rows[id := Settle(s.rows[id], tx)], s.nextId);
      CloseDisturbs(s, tx, id);
      var ops := CloseBoth(s.ops, h, s.rows[id].sourceId);
      BatchesSurvive(s, ops, {});
      assert BatchesOk(s.txs, ops, s.keepers);
      hide TransfersOk, RowsOk, StatusesOk, NonNegative, CacheOk, ClaimsOk, BatchesOk, PhasesOk, FundsOk, AllFresh;
    }
  }

  // The invariant says nothing of mints in progress.
  lemma MintsApart(s: State, mints: map<nat, MintTask>)
    requires Inv(s)
    ensures Inv(s.(mints := mints))
  {
  }

  lemma MintTryKeeps(s: State, t: nat, h: Hash, cfg: Config, cached: Option<Cached>, fails: bool)
    requires Inv(s)
    ensures Inv(MintTry(s, t, h, cfg, cached, fails))
  {
    hide Inv, MintSave, MintCached, MemoryGuards, SetOp;
    if h in s.txs && s.txs[h].version == MintV {
      StatusKeeps(s, h, INVALID_OP_PARAMS);
      StatusKeeps(s, h, INCORRECT_FC);
      var d := s.txs[h].data;
      if d.fc.Some? && d.fc.value in cfg.byInternalId {
        MintsApart(s, s.mints[t := MintSearch(h, cfg.byInternalId[d.fc.value])]);
      }
      if cached.Some? {
        MintSaveKeeps(s, h, cached.value.id);
      }
    }
  }

  lemma MintFindKeeps(s: State, t: nat, pick: Option<nat>)
    requires Inv(s)
    ensures Inv(MintFind(s, t, pick))
  {
    hide Inv, ByTarget, AnyMatch;
    MintsApart(s, s.mints - {t});
    if t in s.mints && pick.Some? {
      MintsApart(s, s.mints[t := MintFound(s.mints[t].hash, pick.value)]);
    }
  }

  lemma MintFinishKeeps(s: State, t: nat, fails: bool)
    requires Inv(s)
    ensures Inv(MintFinish(s, t, fails))
  {
    hide Inv, MintSave;
    if t in s.mints && s.mints[t].MintFound? {
      MintsApart(s, s.mints - {t});
      MintSaveKeeps(s.(mints := s.mints - {t}), s.mints[t].hash, s.mints[t].id);
    }
  }

  // ---------- events of a bookkeeper ----------

  lemma KeeperFact(s: State, c: Chain)
    requires Inv(s) && s.KeeperOf(c).Busy?
    ensures c in s.keepers && KeeperOk(s, c, s.keepers[c]) && AtPhase(s, c)
    ensures WaitsIn(s.txs, s.ops, c, s.KeeperOf(c).batch[0]) && CurrentTx(s, c).hash == s.KeeperOf(c).batch[0] && CurrentTx(s, c).chain == c
  {
    InvParts(s, c);
    assert WaitsIn(s.txs, s.ops, c, s.KeeperOf(c).batch[0]);
  }

  lemma AbortKeeps(s: State, c: Chain)
    requires Inv(s)
    ensures Inv(AbortPass(s, c))
  {
    KeeperPut(s, c, Idle);
  }

  lemma AdvanceKeeps(s: State, c: Chain)
    requires Inv(s)
    ensures Inv(Advance(s, c))
  {
    hide Inv, KeeperOk;
    if s.KeeperOf(c).Busy? {
      KeeperFact(s, c);
      RestOkHere(s, c);
      KeeperPut(s, c, Rest(s.KeeperOf(c).batch));
    }
  }

  lemma RestOkHere(s: State, c: Chain)
    requires s.KeeperOf(c).Busy? && KeeperOk(s, c, s.KeeperOf(c))
    ensures KeeperOk(s, c, Rest(s.KeeperOf(c).batch))
  {
    RestOk(s, c, s.KeeperOf(c), s);
  }

  // The bookkeepers of other chains do not hold the transfer chain c has in hand.
  lemma OthersAfterStatus(s: State, c: Chain, code: int)
    requires Inv(s) && s.KeeperOf(c).Busy? && s.KeeperOf(c).batch != [] && WaitsIn(s.txs, s.ops, c, s.KeeperOf(c).batch[0])
    ensures OthersOk(s.(ops := SetOp(s.ops, s.KeeperOf(c).batch[0], code)), c)
  {
    InvParts(s, c);
    BatchesSurvive(s, SetOp(s.ops, s.KeeperOf(c).batch[0], code), {c});
  }

  lemma RejectKeeps(s: State, c: Chain, code: int)
    requires Inv(s) && s.KeeperOf(c).Busy?
    ensures AtPhase(s, c) && Inv(Reject(s, c, s.KeeperOf(c).batch[0], code))
  {
    KeeperFact(s, c);
    var k := s.KeeperOf(c);
    var m := s.(ops := SetOp(s.ops, k.batch[0], code));
    OthersAfterStatus(s, c, code);
    RestOk(s, c, k, m);
    StatusChange(s, k.batch[0], code);
    assert TablesOk(m) by { TablesAfterStatus(s, m); }
    hide Inv, KeeperOk, TablesOk, OthersOk;
    InvFromParts(m, c, Rest(k.batch));
  }

  lemma TablesAfterStatus(s: State, m: State)
    requires Inv(s) && m == s.(ops := m.ops) && TransfersOk(s.txs, m.ops) && StatusesOk(m.ops, s.rows, s.credits)
    ensures TablesOk(m)
  {
    hide TransfersOk, RowsOk, StatusesOk, NonNegative, CacheOk, ClaimsOk, BatchesOk, PhasesOk, FundsOk, AllFresh;
  }

  lemma LoadedOk(s: State, c: Chain, hs: seq<Hash>)
    requires hs != [] && Distinct(hs) && forall i :: 0 <= i < |hs| ==> Waiting(s, c, hs[i])
    ensures KeeperOk(s, c, Busy(hs, Start))
  {
    assert forall i :: 0 <= i < |hs| ==> Waiting(s, c, hs[i]) && WaitsIn(s.txs, s.ops, c, hs[i]);
  }

  lemma LoadKeeps(s: State, c: Chain, hs: seq<Hash>)
    requires Inv(s)
    ensures Inv(LoadBatch(s, c, hs))
  {
    hide Inv, KeeperOk, Distinct, Waiting;
    if s.KeeperOf(c).Idle? && 0 < |hs| <= 1000 && Distinct(hs) && (forall i :: 0 <= i < |hs| ==> Waiting(s, c, hs[i])) {
      LoadedOk(s, c, hs);
      KeeperPut(s, c, Busy(hs, Start));
    }
  }

  // A handler moves on within its transfer.
  lemma PhaseKeeps(s: State, c: Chain, p: Phase)
    requires Inv(s) && s.KeeperOf(c).Busy? && KeeperOk(s, c, Busy(s.KeeperOf(c).batch, p))
    ensures Inv(WithPhase(s, c, p))
  {
    hide Inv, KeeperOk;
    KeeperPut(s, c, Busy(s.KeeperOf(c).batch, p));
  }

  lemma BuiltCrossRow(s: State, c: Chain, found: Option<nat>, cfg: Config)
    requires Inv(s) && s.KeeperOf(c).Busy? && s.KeeperOf(c).phase.Start? && AtPhase(s, c)
    requires CurrentTx(s, c).version == CrossV && CurrentTx(s, c).data.AssetOf() in s.deploys
    requires IsRowOf(s.rows, CurrentTx(s, c), found) && BuildCross(s, CurrentTx(s, c), cfg).Ok?
    ensures KeeperOk(s, c, Busy(s.KeeperOf(c).batch, CrossReady(found, BuildCross(s, CurrentTx(s, c), cfg).value)))
  {
    KeeperFact(s, c);
    NotACrossSource(s, CurrentTx(s, c).hash);
    RowVersions(s);
  }

  lemma RowVersions(s: State)
    requires Inv(s)
    ensures forall id :: id in s.rows ==> s.rows[id].sourceId in s.txs && s.rows[id].version == s.txs[s.rows[id].sourceId].version
  {
    forall id | id in s.rows
      ensures s.rows[id].sourceId in s.txs && s.rows[id].version == s.txs[s.rows[id].sourceId].version
    {
      assert RowFor(s.txs, s.deploys.Keys, s.rows[id]);
    }
  }

  lemma CrossCheckKeeps(s: State, c: Chain, found: Option<nat>, cfg: Config)
    requires Inv(s)
    ensures Inv(CrossCheck(s, c, found, cfg))
  {
    hide Inv, KeeperOk, BuildCross, Reject, Advance, CrossWellFormed;
    if AtPhase(s, c) && s.KeeperOf(c).phase.Start? && CurrentTx(s, c).version == CrossV {
      AdvanceKeeps(s, c);
      RejectKeeps(s, c, INVALID_OP_PARAMS);
      RejectKeeps(s, c, DEPLOY_RECORD_NOT_FOUND);
      var tx := CurrentTx(s, c);
      match BuildCross(s, tx, cfg)
      case Err(code) => RejectKeeps(s, c, code);
      case Ok(row) =>
        if tx.data.AssetOf() in s.deploys && IsRowOf(s.rows, tx, found) {
          BuiltCrossRow(s, c, found, cfg);
          PhaseKeeps(s, c, CrossReady(found, row));
        }
    }
  }

  lemma CachedFact(s: State, tx: Transfer, fromChain: Chain)
    requires Inv(s)
    ensures FindCached(s.cache, tx, fromChain).Some? ==>
      CachedOk(s.rows, s.nextId, FindCached(s.cache, tx, fromChain).value) && Resembles(FindCached(s.cache, tx, fromChain).value.row, tx)
  {
  }

  // A crossover holds on to what it found.
  lemma CrossOverPhase(s: State, c: Chain, p: Phase)
    requires Inv(s) && s.KeeperOf(c).Busy? && AtPhase(s, c) && CurrentTx(s, c).version == CrossOverV
    requires p.SearchDb? || p.FoundByTarget?
      || (p.MemoryMatched? && CachedOk(s.rows, s.nextId, p.entry) && Resembles(p.entry.row, CurrentTx(s, c)))
      || (p.Found? && p.id in s.rows && p.bt == s.rows[p.id] && p.bt.version == CrossV && Fits(p.bt, CurrentTx(s, c)) && s.credits[p.id] == 0)
    ensures Inv(WithPhase(s, c, p))
  {
    KeeperFact(s, c);
    assert InHand(s.txs, Busy(s.KeeperOf(c).batch, p), CurrentTx(s, c));
    PhaseKeeps(s, c, p);
  }

  lemma CrossOverMatchKeeps(s: State, c: Chain, cfg: Config)
    requires Inv(s)
    ensures Inv(CrossOverMatch(s, c, cfg))
  {
    hide Inv, KeeperOk, Reject, WithPhase, CachedOk, FindCached;
    if AtPhase(s, c) && s.KeeperOf(c).phase.Start? && CurrentTx(s, c).version == CrossOverV {
      KeeperFact(s, c);
      RejectKeeps(s, c, INVALID_OP_PARAMS);
      RejectKeeps(s, c, DEPLOY_RECORD_NOT_FOUND);
      RejectKeeps(s, c, INCORRECT_FC);
      var tx := CurrentTx(s, c);
      if tx.data.fc.Some? && tx.data.fc.value in cfg.byInternalId {
        var fromChain := cfg.byInternalId[tx.data.fc.value];
        CachedFact(s, tx, fromChain);
        CrossOverPhase(s, c, match FindCached(s.cache, tx, fromChain) case Some(e) => MemoryMatched(fromChain, e) case None => SearchDb(fromChain));
      }
    }
  }

  lemma Uncredited(s: State, id: nat)
    requires Inv(s) && id in s.rows && s.rows[id].targetId.None?
    ensures s.credits[id] == 0
  {
    assert StatusOk(s.ops, s.rows[id], s.credits[id]);
  }

  lemma DbFindKeeps(s: State, c: Chain, pick: Option<nat>)
    requires Inv(s)
    ensures Inv(DbFind(s, c, pick))
  {
    hide Inv, KeeperOk, Advance, WithPhase, ByTarget;
    if AtPhase(s, c) && s.KeeperOf(c).phase.SearchDb? {
      KeeperFact(s, c);
      SearchingCrossOver(s, c);
      AdvanceKeeps(s, c);
      if pick.Some? {
        CrossOverPhase(s, c, FoundByTarget(pick.value));
        if pick.value in s.rows && DbMatch(s.rows[pick.value], CurrentTx(s, c), s.KeeperOf(c).phase.fromChain) {
          Uncredited(s, pick.value);
          CrossOverPhase(s, c, Found(pick.value, s.rows[pick.value]));
        }
      }
    }
  }

  lemma SearchingCrossOver(s: State, c: Chain)
    requires s.KeeperOf(c).Busy? && KeeperOk(s, c, s.KeeperOf(c)) && AtPhase(s, c)
    ensures (s.KeeperOf(c).phase.SearchDb? || s.KeeperOf(c).phase.MemoryMatched? || s.KeeperOf(c).phase.Found?) ==> CurrentTx(s, c).version == CrossOverV
  {
  }

  lemma TransferFunded(s: State, c: Chain, from: Account, to: Account, amount: Amount)
    requires Inv(s) && s.KeeperOf(c).Busy? && AtPhase(s, c) && Moves(CurrentTx(s, c), c, from, to, amount)
    requires from in s.balances && !LessThan(s.balances[from], amount)
    ensures Inv(WithPhase(s, c, TransferReady(from, to, amount)))
  {
    KeeperFact(s, c);
    assert InHand(s.txs, Busy(s.KeeperOf(c).batch, TransferReady(from, to, amount)), CurrentTx(s, c));
    PhaseKeeps(s, c, TransferReady(from, to, amount));
  }

  lemma TransferCheckKeeps(s: State, c: Chain)
    requires Inv(s)
    ensures Inv(TransferCheck(s, c))
  {
    hide Inv, KeeperOk, Reject, Advance, WithPhase, Lower, LessThan;
    if AtPhase(s, c) && s.KeeperOf(c).phase.Start? && CurrentTx(s, c).version == TransferV {
      AdvanceKeeps(s, c);
      RejectKeeps(s, c, INVALID_OP_PARAMS);
      RejectKeeps(s, c, DEPLOY_RECORD_NOT_FOUND);
      RejectKeeps(s, c, NOT_SUFFICIENT_FUNDS);
      var tx := CurrentTx(s, c);
      var d := tx.data;
      var from := Account(tx.sender, c, d.AssetOf());
      if d.amt.Some? && from in s.balances && !LessThan(s.balances[from], d.amt.value) {
        TransferFunded(s, c, from, Account(Lower(d.to), c, d.AssetOf()), d.amt.value);
      }
    }
  }

  // ---------- the commits of a bookkeeper ----------

  lemma KeeperCommit(m: State, c: Chain, batch: seq<Hash>)
    requires m.KeeperOf(c).Busy? && m.KeeperOf(c).batch == batch
    requires TablesOk(m) && OthersOk(m, c) && KeeperOk(m, c, Rest(batch))
    ensures Inv(Advance(m, c))
  {
    hide Inv, KeeperOk, TablesOk, OthersOk;
    InvFromParts(m, c, Rest(batch));
  }

  // Balances of chain c change, and nothing else the other bookkeepers count on.
  lemma OthersAfterTransfer(s: State, m: State, c: Chain)
    requires Inv(s) && s.KeeperOf(c).Busy? && s.KeeperOf(c).batch != [] && WaitsIn(s.txs, s.ops, c, s.KeeperOf(c).batch[0])
    requires m == s.(balances := m.balances, ops := m.ops) && m.ops == SetOp(s.ops, s.KeeperOf(c).batch[0], MATCHED)
    requires forall d :: d in s.keepers && d != c ==> FundOk(m.balances, s.keepers[d])
    ensures OthersOk(m, c)
  {
    InvParts(s, c);
    BatchesSurvive(s, m.ops, {c});
    hide BatchesOk, PhasesOk, FundsOk, AllFresh, TransfersOk, RowsOk, StatusesOk, NonNegative, CacheOk, ClaimsOk, BatchOk, PhaseOk, FundOk, FreshOk;
  }

  lemma MovedBalances(s: State, c: Chain, from: Account, to: Account, v: real)
    requires Inv(s) && from.chain == c && to.chain == c && v >= 0.0 && from in s.balances && s.balances[from] >= v
    ensures NonNegative(IncBalance(IncBalance(s.balances, from, -v), to, v))
    ensures forall d :: d in s.keepers && d != c ==> FundOk(IncBalance(IncBalance(s.balances, from, -v), to, v), s.keepers[d])
  {
    BalanceChange(s, from, -v);
    var b := IncBalance(s.balances, from, -v);
    forall d | d in s.keepers && d != c
      ensures FundOk(IncBalance(b, to, v), s.keepers[d])
    {
      assert FundOk(b, s.keepers[d]);
    }
  }

  lemma TransferFinishKeeps(s: State, c: Chain, fails: bool)
    requires Inv(s)
    ensures Inv(TransferFinish(s, c, fails))
  {
    hide Inv, IncBalance, SetOp, Advance, Writable;
    if AtPhase(s, c) && s.KeeperOf(c).phase.TransferReady? {
      var TransferReady(from, to, amount) := s.KeeperOf(c).phase;
      AdvanceKeeps(s, c);
      if Writable(amount) {
        WritableNumber(amount);
        TransferCommitKeeps(s, c, from, to, amount.Number().value);
      }
    }
  }

  lemma WritableNumber(amount: Amount)
    ensures Writable(amount) ==> amount.Number().Some? && amount.Number().value >= 0.0
  {
  }

  lemma TransferCommitKeeps(s: State, c: Chain, from: Account, to: Account, v: real)
    requires Inv(s) && AtPhase(s, c) && s.KeeperOf(c).phase.TransferReady?
    requires s.KeeperOf(c).phase.from == from && s.KeeperOf(c).phase.to == to && s.KeeperOf(c).phase.amount.Number() == Some(v) && v >= 0.0
    ensures Inv(Advance(s.(balances := IncBalance(IncBalance(s.balances, from, -v), to, v),
                           ops := SetOp(s.ops, s.KeeperOf(c).batch[0], MATCHED)), c))
  {
    KeeperFact(s, c);
    var k := s.KeeperOf(c);
    var m := s.(balances := IncBalance(IncBalance(s.balances, from, -v), to, v), ops := SetOp(s.ops, k.batch[0], MATCHED));
    MovedBalances(s, c, from, to, v);
    OthersAfterTransfer(s, m, c);
    RestOk(s, c, k, m);
    StatusChange(s, k.batch[0], MATCHED);
    assert TablesOk(m) by {
      hide TransfersOk, RowsOk, StatusesOk, NonNegative, CacheOk, ClaimsOk, BatchesOk, PhasesOk, FundsOk, AllFresh;
    }
    hide Inv, KeeperOk, TablesOk, OthersOk;
    KeeperCommit(m, c, k.batch);
  }

  lemma OpenNotCredited(s: State, id: nat)
    requires Inv(s) && id in s.rows && Open(s.ops, s.rows[id].sourceId)
    ensures s.credits[id] == 0
  {
    assert StatusOk(s.ops, s.rows[id], s.credits[id]);
  }

  // Another chain's bookkeeper that found a row found one that pays out on its own chain.
  lemma FreshElsewhere(s: State, c: Chain, id: nat)
    requires Inv(s) && id in s.rows && s.rows[id].targetChain == c
    ensures forall d :: d in s.keepers && d != c ==> FreshOk(s.credits + multiset{id}, s.keepers[d])
  {
    forall d | d in s.keepers && d != c
      ensures FreshOk(s.credits + multiset{id}, s.keepers[d])
    {
      assert FreshOk(s.credits, s.keepers[d]) && PhaseOk(s.txs, s.deploys.Keys, s.rows, s.nextId, d, s.keepers[d]);
    }
  }

  // All a crossover may credit: a cross row paying out on its chain, not credited, seen as it is stored.
  ghost predicate Creditable(s: State, c: Chain, id: nat, r: Row)
  {
    && AtPhase(s, c) && CurrentTx(s, c).version == CrossOverV
    && id in s.rows && s.rows[id].version == CrossV && s.rows[id].targetChain == c && s.credits[id] == 0
    && r.Core() == s.rows[id].Core()
  }

  function Credited(s: State, tx: Transfer, id: nat, r: Row): State
    requires id in s.rows
  {
    s.(rows := s.rows[id := Settle(s.rows[id], tx)],
       ops := CloseBoth(s.ops, tx.hash, r.sourceId),
       balances := IncBalance(s.balances, CreditAccount(tx, r), r.targetAmount),
       credits := s.credits + multiset{id})
  }

  lemma CreditedTables(s: State, c: Chain, id: nat, r: Row)
    requires Inv(s) && Creditable(s, c, id, r)
    ensures TablesOk(Credited(s, CurrentTx(s, c), id, r))
    ensures forall d :: d in s.keepers && d != c ==> FundOk(Credited(s, CurrentTx(s, c), id, r).balances, s.keepers[d])
    ensures PhasesOk(s.txs, s.deploys.Keys, Credited(s, CurrentTx(s, c), id, r).rows, s.nextId, s.keepers)
  {
    var tx := CurrentTx(s, c);
    CoreKeepsVersion(r, s.rows[id]);
    RowSettled(s, tx, id);
    StatusesAfterSettle(s, tx, id, s.credits + multiset{id});
    RowsChange(s, s.rows[id := Settle(s.rows[id], tx)], s.nextId);
    PositiveAmount(s, id);
    BalanceChange(s, CreditAccount(tx, r), r.targetAmount);
    hide TransfersOk, RowsOk, StatusesOk, NonNegative, CacheOk, ClaimsOk, BatchesOk, PhasesOk, FundsOk, AllFresh;
  }

  lemma PositiveAmount(s: State, id: nat)
    requires Inv(s) && id in s.rows
    ensures s.rows[id].targetAmount >= 1.0
  {
    assert RowFor(s.txs, s.deploys.Keys, s.rows[id]);
  }

  lemma CreditedKeepers(s: State, c: Chain, id: nat, r: Row)
    requires Inv(s) && Creditable(s, c, id, r)
    ensures OthersOk(Credited(s, CurrentTx(s, c), id, r), c)
    ensures KeeperOk(Credited(s, CurrentTx(s, c), id, r), c, Rest(s.KeeperOf(c).batch))
  {
    KeeperFact(s, c);
    var tx := CurrentTx(s, c);
    var m := Credited(s, tx, id, r);
    CoreKeepsVersion(r, s.rows[id]);
    CloseDisturbs(s, tx, id);
    RestOk(s, c, s.KeeperOf(c), m);
    BatchesSurvive(s, m.ops, {c});
    FreshElsewhere(s, c, id);
    CreditedTables(s, c, id, r);
    hide BatchesOk, FundsOk, AllFresh, TransfersOk, RowsOk, StatusesOk, NonNegative, CacheOk, ClaimsOk, BatchOk, PhaseOk, FundOk, FreshOk, TablesOk, IncBalance, CloseBoth, Settle;
  }

  lemma CreditKeeps(s: State, c: Chain, id: nat, r: Row)
    requires Inv(s) && Creditable(s, c, id, r)
    ensures Inv(Credit(s, c, CurrentTx(s, c), id, r))
  {
    hide Inv, KeeperOk, TablesOk, OthersOk, IncBalance, CloseBoth, Settle;
    KeeperFact(s, c);
    CreditedTables(s, c, id, r);
    CreditedKeepers(s, c, id, r);
    KeeperCommit(Credited(s, CurrentTx(s, c), id, r), c, s.KeeperOf(c).batch);
  }

  // The two guards let a cached row through only if the database has that row, and it is not credited yet.
  lemma MemoryCreditable(s: State, c: Chain)
    requires Inv(s) && AtPhase(s, c) && s.KeeperOf(c).phase.MemoryMatched?
    requires MemoryGuards(s, CurrentTx(s, c), s.KeeperOf(c).phase.entry)
    ensures Creditable(s, c, s.KeeperOf(c).phase.entry.id, s.KeeperOf(c).phase.entry.row)
  {
    KeeperFact(s, c);
    SearchingCrossOver(s, c);
    var e := s.KeeperOf(c).phase.entry;
    CoreKeepsVersion(e.row, s.rows[e.id]);
    OpenNotCredited(s, e.id);
  }

  lemma MemoryFinishKeeps(s: State, c: Chain, fails: bool)
    requires Inv(s)
    ensures Inv(MemoryFinish(s, c, fails))
  {
    hide Inv, KeeperOk, Credit, WithPhase, Creditable, MemoryGuards;
    if AtPhase(s, c) && s.KeeperOf(c).phase.MemoryMatched? {
      var MemoryMatched(fromChain, e) := s.KeeperOf(c).phase;
      KeeperFact(s, c);
      SearchingCrossOver(s, c);
      CrossOverPhase(s, c, SearchDb(fromChain));
      if MemoryGuards(s, CurrentTx(s, c), e) {
        MemoryCreditable(s, c);
        CreditKeeps(s, c, e.id, e.row);
      }
    }
  }

  lemma FoundCreditable(s: State, c: Chain)
    requires Inv(s) && AtPhase(s, c) && s.KeeperOf(c).phase.Found?
    ensures Creditable(s, c, s.KeeperOf(c).phase.id, s.KeeperOf(c).phase.bt)
  {
    KeeperFact(s, c);
    SearchingCrossOver(s, c);
  }

  lemma DbFinishKeeps(s: State, c: Chain, fails: bool)
    requires Inv(s)
    ensures Inv(DbFinish(s, c, fails))
  {
    hide Inv, KeeperOk, Credit, Creditable, AbortPass;
    if AtPhase(s, c) {
      AbortKeeps(s, c);
      if s.KeeperOf(c).phase.Found? {
        FoundCreditable(s, c);
        CreditKeeps(s, c, s.KeeperOf(c).phase.id, s.KeeperOf(c).phase.bt);
      }
    }
  }

  // ---------- the commit of a cross ----------

  lemma CrossInserted(s: State, c: Chain, row: Row, recent: bool)
    requires Inv(s) && s.nextId !in s.rows && !Duplicate(s.rows, row)
    requires AtPhase(s, c) && s.KeeperOf(c).phase == CrossReady(None, row)
    ensures var m := s.(rows := s.rows[s.nextId := row],
                        nextId := s.nextId + 1,
                        balances := IncBalance(s.balances, Account(row.sourceAddress, row.sourceChain, row.asset), -row.targetAmount),
                        cache := AddToCache(s.cache, Cached(s.nextId, row), recent),
                        ops := SetOp(s.ops, s.KeeperOf(c).batch[0], VALID));
            Inv(Advance(m, c))
  {
    KeeperFact(s, c);
    var k := s.KeeperOf(c);
    var account := Account(row.sourceAddress, row.sourceChain, row.asset);
    var m := s.(rows := s.rows[s.nextId := row],
                nextId := s.nextId + 1,
                balances := IncBalance(s.balances, account, -row.targetAmount),
                cache := AddToCache(s.cache, Cached(s.nextId, row), recent),
                ops := SetOp(s.ops, k.batch[0], VALID));
    RowInserted(s, row);
    NoRowYet(s, row);
    StatusesAfterInsert(s, row, m.ops);
    RowsChange(s, m.rows, m.nextId);
    BalanceChange(s, account, -row.targetAmount);
    BatchesSurvive(s, m.ops, {c});
    RestOk(s, c, k, m);
    InvParts(s, c);
    assert CacheOk(m.rows, m.nextId, m.cache);
    assert TablesOk(m) by {
      hide TransfersOk, RowsOk, StatusesOk, NonNegative, CacheOk, ClaimsOk, BatchesOk, PhasesOk, FundsOk, AllFresh;
    }
    assert OthersOk(m, c) by {
      hide BatchesOk, FundsOk, AllFresh, TransfersOk, RowsOk, StatusesOk, NonNegative, CacheOk, ClaimsOk, BatchOk, PhaseOk, FundOk, FreshOk, TablesOk, IncBalance, SetOp, AddToCache;
    }
    hide Inv, KeeperOk, TablesOk, OthersOk;
    KeeperCommit(m, c, k.batch);
  }

  lemma CacheOnly(s: State, cache': seq<Cached>, nextId': nat)
    requires Inv(s) && nextId' >= s.nextId
    requires forall e :: e in cache' ==> e in s.cache || CachedOk(s.rows, nextId', e)
    ensures Inv(s.(cache := cache', nextId := nextId'))
  {
    RowsChange(s, s.rows, nextId');
    assert RowsOk(s.txs, s.deploys.Keys, s.rows, nextId');
    assert CacheOk(s.rows, nextId', cache');
    hide TransfersOk, RowsOk, StatusesOk, NonNegative, CacheOk, ClaimsOk, BatchesOk, PhasesOk, FundsOk, AllFresh;
  }

  lemma NextIdFree(s: State)
    requires Inv(s)
    ensures s.nextId !in s.rows
  {
  }

  lemma CrossFact(s: State, c: Chain)
    requires Inv(s) && AtPhase(s, c) && s.KeeperOf(c).phase.CrossReady?
    ensures s.KeeperOf(c).phase.found.None? && s.KeeperOf(c).phase.row.version == CrossV
  {
    KeeperFact(s, c);
  }

  // The insert did not go through: an id is used up, and the cache may hold the row under it.
  lemma FailedCrossKeeps(s: State, c: Chain, row: Row, recent: bool)
    requires Inv(s) && row.version == CrossV
    ensures Inv(AbortPass(s.(nextId := s.nextId + 1), c))
    ensures Inv(AbortPass(s.(nextId := s.nextId + 1, cache := AddToCache(s.cache, Cached(s.nextId, row), recent)), c))
  {
    NextIdFree(s);
    var cache' := AddToCache(s.cache, Cached(s.nextId, row), recent);
    CacheOnly(s, s.cache, s.nextId + 1);
    CacheOnly(s, cache', s.nextId + 1);
    hide Inv, AddToCache;
    AbortKeeps(s.(cache := s.cache, nextId := s.nextId + 1), c);
    AbortKeeps(s.(cache := cache', nextId := s.nextId + 1), c);
  }

  lemma CrossFinishKeeps(s: State, c: Chain, outcome: Outcome, recent: bool)
    requires Inv(s)
    ensures Inv(CrossFinish(s, c, outcome, recent))
  {
    hide Inv, Advance, AbortPass, AddToCache, SetOp, IncBalance, Duplicate;
    if AtPhase(s, c) && s.KeeperOf(c).phase.CrossReady? {
      var row := s.KeeperOf(c).phase.row;
      CrossFact(s, c);
      NextIdFree(s);
      FailedCrossKeeps(s, c, row, recent);
      if !Duplicate(s.rows, row) {
        CrossInserted(s, c, row, recent);
      }
    }
  }

  lemma RowPaid(s: State, id: nat, r: Row)
    requires Inv(s) && id in s.rows && r == s.rows[id].(status := r.status, targetId := r.targetId)
    ensures RowsGrow(s.rows, s.nextId, s.rows[id := r], s.nextId)
    ensures RowsOk(s.txs, s.deploys.Keys, s.rows[id := r], s.nextId)
  {
    hide StatusesOk, ClaimsOk, PhasesOk, BatchesOk, FundsOk, CacheOk, AllFresh, NonNegative;
    assert RowFor(s.txs, s.deploys.Keys, s.rows[id]);
    assert RowFor(s.txs, s.deploys.Keys, r);
    hide RowFor;
  }

  lemma StatusesAfterPayment(s: State, id: nat, r: Row)
    requires Inv(s) && id in s.rows && s.rows[id].targetId.None? && r == s.rows[id].(status := r.status, targetId := r.targetId)
    ensures StatusesOk(s.ops, s.rows[id := r], s.credits)
  {
    hide RowsOk, ClaimsOk, PhasesOk, BatchesOk, FundsOk, CacheOk, AllFresh, NonNegative;
    assert StatusOk(s.ops, s.rows[id], s.credits[id]);
    assert StatusOk(s.ops, r, s.credits[id]);
    hide StatusOk;
  }

  lemma MakerPayKeeps(s: State, id: nat, status: int, payment: Option<Hash>)
    requires Inv(s)
    ensures Inv(MakerPay(s, id, status, payment))
  {
    hide TransfersOk, RowsOk, StatusesOk, NonNegative, CacheOk, ClaimsOk, BatchesOk, PhasesOk, FundsOk, AllFresh;
    if id in s.rows && s.rows[id].targetId.None? {
      var r := s.rows[id].(status := status, targetId := payment);
      RowPaid(s, id, r);
      StatusesAfterPayment(s, id, r);
      RowsChange(s, s.rows[id := r], s.nextId);
    }
  }

  lemma RestartKeeps(s: State)
    requires Inv(s)
    ensures Inv(s.(cache := [], claims := map[], mints := map[], keepers := map[]))
  {
  }

  // ---------- every run ----------

  lemma NextKeeps(s: State, e: Event)
    requires Inv(s)
    ensures Inv(Next(s, e))
  {
    hide Inv, Arrive, DeployTransfer, ClaimRead, ClaimCheck, ClaimFinish, MintTry, MintFind, MintFinish, LoadBatch, CrossCheck,
         CrossFinish, CrossOverMatch, MemoryFinish, DbFind, DbFinish, TransferCheck, TransferFinish, AbortPass, MakerPay;
    match e
    case Arrives(tx, opStatus) => ArriveKeeps(s, tx, opStatus);
    case Deploys(h, cfg) => DeployKeeps(s, h, cfg);
    case ClaimReads(t, h, payloadOp) => ClaimReadKeeps(s, t, h, payloadOp);
    case ClaimChecks(t, found, cfg) => ClaimCheckKeeps(s, t, found, cfg);
    case ClaimFinishes(t, fails) => ClaimFinishKeeps(s, t, fails);
    case MintTries(t, h, cfg, cached, fails) => MintTryKeeps(s, t, h, cfg, cached, fails);
    case MintFinds(t, pick) => MintFindKeeps(s, t, pick);
    case MintFinishes(t, fails) => MintFinishKeeps(s, t, fails);
    case LoadsBatch(c, hs) => LoadKeeps(s, c, hs);
    case CrossChecks(c, found, cfg) => CrossCheckKeeps(s, c, found, cfg);
    case CrossFinishes(c, outcome, recent) => CrossFinishKeeps(s, c, outcome, recent);
    case CacheDrops(i) =>
      if i < |s.cache| {
        CacheOnly(s, s.cache[..i] + s.cache[i + 1..], s.nextId);
      }
    case CrossOverMatches(c, cfg) => CrossOverMatchKeeps(s, c, cfg);
    case MemoryFinishes(c, fails) => MemoryFinishKeeps(s, c, fails);
    case DbFinds(c, pick) => DbFindKeeps(s, c, pick);
    case DbFinishes(c, fails) => DbFinishKeeps(s, c, fails);
    case TransferChecks(c) => TransferCheckKeeps(s, c);
    case TransferFinishes(c, fails) => TransferFinishKeeps(s, c, fails);
    case PassThrows(c) => AbortKeeps(s, c);
    case MakerPays(id, status, payment) => MakerPayKeeps(s, id, status, payment);
    case Restarts => RestartKeeps(s);
  }

  lemma {:induction false} RunKeeps(events: seq<Event>)
    ensures Inv(Run(events))
  {
    if events != [] {
      RunKeeps(events[..|events| - 1]);
      NextKeeps(Run(events[..|events| - 1]), events[|events| - 1]);
    }
  }

  /** No run ever leaves a balance below zero, although every debit is decided on a balance read before its
      transaction: claims and the bookkeepers of other chains only add to the balances of a chain. */
  lemma {:induction false} NoNegativeBalance(events: seq<Event>)
    ensures forall account :: account in Run(events).balances ==> Run(events).balances[account] >= 0.0
  {
    RunKeeps(events);
  }

  /** No run credits a row twice, or credits anything but a cross row of the database: whatever stale or rolled
      back rows the cache holds, and however often transfers are handled again. */
  lemma {:induction false} CreditedAtMostOnce(events: seq<Event>, id: nat)
    ensures var s := Run(events);
      && s.credits[id] <= 1
      && (s.credits[id] == 1 ==>
            && id in s.rows && s.rows[id].version == CrossV && s.rows[id].targetId.Some?
            && s.rows[id].sourceId in s.ops && s.ops[s.rows[id].sourceId] == MATCHED)
  {
    RunKeeps(events);
    var s := Run(events);
    if id in s.credits {
      assert StatusOk(s.ops, s.rows[id], s.credits[id]);
    }
  }

  // ---------- a debit the database refuses ----------

  /** A checked transfer whose transaction does not fail otherwise is matched if and only if its amount is a number that is
      not negative. If it is not matched, nothing is written and it stays at 0, to be loaded again. */
  lemma DebitIff(s: State, c: Chain)
    requires Inv(s) && AtPhase(s, c) && s.KeeperOf(c).phase.TransferReady?
    ensures var h, n, amount := s.KeeperOf(c).batch[0], Next(s, TransferFinishes(c, false)), s.KeeperOf(c).phase.amount;
      && h in n.ops
      && (n.ops[h] == MATCHED <==> amount.Number().Some? && amount.Number().value >= 0.0)
      && (n.ops[h] != MATCHED ==> n == Advance(s, c) && n.ops[h] == 0)
  {
    hide Inv, KeeperOk, IncBalance, Advance;
    KeeperFact(s, c);
    AdvanceOps(c);
  }

  lemma AdvanceOps(c: Chain)
    ensures forall m: State :: Advance(m, c).ops == m.ops
  {
  }

  /** The checks let a transfer of any negative amount through to that transaction, if its sender has a balance at all. */
  lemma NegativePasses(s: State, c: Chain, v: real)
    requires Inv(s) && AtPhase(s, c) && s.KeeperOf(c).phase.Start? && CurrentTx(s, c).version == TransferV && CurrentTx(s, c).status == 2
    requires var tx := CurrentTx(s, c);
      && TransferWellFormed(tx.data) && tx.data.amt == Some(OtherNumber(v)) && v < 0.0
      && tx.data.AssetOf() in s.deploys && s.deploys[tx.data.AssetOf()].to == tx.receiver
      && Account(tx.sender, c, tx.data.AssetOf()) in s.balances
    ensures var tx := CurrentTx(s, c);
      var ready := Next(s, TransferChecks(c));
      && ready == WithPhase(s, c, TransferReady(Account(tx.sender, c, tx.data.AssetOf()), Account(Lower(tx.data.to), c, tx.data.AssetOf()), OtherNumber(v)))
      && Next(ready, TransferFinishes(c, false)) == Advance(s, c)
  {
    var from := Account(CurrentTx(s, c).sender, c, CurrentTx(s, c).data.AssetOf());
    assert NonNegative(s.balances) && s.balances[from] >= 0.0;
    hide Inv, Lower, Rest, TransferWellFormed, WithPhase, Advance;
    Refused(s, c, from, Account(Lower(CurrentTx(s, c).data.to), c, CurrentTx(s, c).data.AssetOf()), v);
  }

  lemma Refused(s: State, c: Chain, from: Account, to: Account, v: real)
    requires AtPhase(s, c) && v < 0.0
    ensures Next(WithPhase(s, c, TransferReady(from, to, OtherNumber(v))), TransferFinishes(c, false)) == Advance(s, c)
  {
    var ready := WithPhase(s, c, TransferReady(from, to, OtherNumber(v)));
    AdvanceForgets(s, c, TransferReady(from, to, OtherNumber(v)));
    assert AtPhase(ready, c) && ready.KeeperOf(c).phase == TransferReady(from, to, OtherNumber(v));
    assert !Writable(OtherNumber(v));
    hide WithPhase, Advance, AtPhase, Writable, IncBalance, SetOp;
  }

  lemma AdvanceForgets(s: State, c: Chain, p: Phase)
    ensures Advance(WithPhase(s, c, p), c) == Advance(s, c)
  {
    hide Rest;
    if s.KeeperOf(c).Busy? {
      var rest := Rest(s.KeeperOf(c).batch);
      assert s.keepers[c := Busy(s.KeeperOf(c).batch, p)][c := rest] == s.keepers[c := rest];
    }
  }

  // ---------- events that write neither balances, rows, credits nor deploy records ----------

  // The tables the sums are over, and those claims in progress are about.
  predicate SameBooks(s: State, n: State)
  {
    n.balances == s.balances && n.rows == s.rows && n.credits == s.credits && n.deploys == s.deploys
  }

  predicate SameClaims(s: State, n: State)
  {
    n.claims == s.claims && n.deploys == s.deploys && n.txs == s.txs
  }

  predicate Quiet(s: State, n: State)
  {
    SameBooks(s, n) && SameClaims(s, n)
  }

  lemma QuietMoves(s: State, c: Chain)
    ensures Quiet(s, s) && Quiet(s, Advance(s, c)) && Quiet(s, AbortPass(s, c))
    ensures forall p :: Quiet(s, WithPhase(s, c, p))
  {
  }

  lemma QuietReject(s: State, c: Chain, h: Hash, code: int)
    ensures Quiet(s, Reject(s, c, h, code)) && Quiet(s, s.(ops := SetOp(s.ops, h, code)))
  {
  }

  lemma ClaimReadsOnly(s: State, t: nat, h: Hash, payloadOp: int)
    ensures SameBooks(s, ClaimRead(s, t, h, payloadOp))
  {
    BooksApart(s, s.claims, SetOp(s.ops, h, INVALID_OP_PARAMS));
    BooksApart(s, s.claims, SetOp(s.ops, h, INVALID_OP));
    BooksApart(s, s.claims, SetOp(s.ops, h, DEPLOY_RECORD_NOT_FOUND));
    BooksApart(s, s.claims, s.ops);
    if h in s.txs && s.txs[h].data.AssetOf() in s.deploys {
      BooksApart(s, s.claims[t := ReadDeploy(h, payloadOp, s.deploys[s.txs[h].data.AssetOf()])], s.ops);
    }
    hide SetOp, ClaimWellFormed, SameBooks;
  }

  lemma BooksApart(s: State, claims: map<nat, ClaimTask>, ops: Statuses)
    ensures SameBooks(s, s.(claims := claims, ops := ops))
  {
  }

  lemma ClaimChecksOnly(s: State, t: nat, found: Option<nat>, cfg: Config)
    ensures SameBooks(s, ClaimCheck(s, t, found, cfg))
  {
    hide Build, IsRowOf, SetOp, SameBooks;
    BooksApart(s, s.claims, s.ops);
    BooksApart(s, s.claims - {t}, s.ops);
    if t in s.claims && s.claims[t].ReadDeploy? && s.claims[t].hash in s.txs {
      var task := s.claims[t];
      match Build(s.txs[task.hash], task.deploy, cfg)
      case Err(code) => BooksApart(s, s.claims - {t}, SetOp(s.ops, task.hash, code));
      case Ok(row) => BooksApart(s, s.claims[t := ClaimReady(task.hash, task.payloadOp, found, row)], s.ops);
    }
  }

  lemma CrossReadsOnly(s: State, c: Chain, found: Option<nat>, cfg: Config)
    ensures Quiet(s, CrossCheck(s, c, found, cfg))
  {
    QuietMoves(s, c);
    hide Quiet, BuildCross, CrossWellFormed, IsRowOf, Advance, Reject, WithPhase;
    if AtPhase(s, c) {
      var h := s.KeeperOf(c).batch[0];
      QuietReject(s, c, h, INVALID_OP_PARAMS);
      QuietReject(s, c, h, DEPLOY_RECORD_NOT_FOUND);
      match BuildCross(s, CurrentTx(s, c), cfg)
      case Err(code) => QuietReject(s, c, h, code);
      case Ok(_) =>
    }
  }

  lemma CrossOverReadsOnly(s: State, c: Chain, cfg: Config)
    ensures Quiet(s, CrossOverMatch(s, c, cfg))
  {
    QuietMoves(s, c);
    hide Quiet, FindCached, CrossOverWellFormed, Advance, Reject, WithPhase;
    if AtPhase(s, c) {
      var h := s.KeeperOf(c).batch[0];
      QuietReject(s, c, h, INVALID_OP_PARAMS);
      QuietReject(s, c, h, DEPLOY_RECORD_NOT_FOUND);
      QuietReject(s, c, h, INCORRECT_FC);
    }
  }

  lemma TransferReadsOnly(s: State, c: Chain)
    ensures Quiet(s, TransferCheck(s, c))
  {
    hide Quiet, Advance, Reject, WithPhase, LessThan, Lower;
    QuietMoves(s, c);
    if AtPhase(s, c) {
      var h := s.KeeperOf(c).batch[0];
      QuietReject(s, c, h, INVALID_OP_PARAMS);
      QuietReject(s, c, h, DEPLOY_RECORD_NOT_FOUND);
      QuietReject(s, c, h, NOT_SUFFICIENT_FUNDS);
    }
  }

  lemma DbReadsOnly(s: State, c: Chain, pick: Option<nat>)
    ensures Quiet(s, DbFind(s, c, pick))
  {
    QuietMoves(s, c);
    hide Quiet, DbMatch, ByTarget, Advance, WithPhase;
  }

  lemma LoadsOnly(s: State, c: Chain, hs: seq<Hash>)
    ensures Quiet(s, LoadBatch(s, c, hs))
  {
    QuietMoves(s, c);
    assert Quiet(s, s.(keepers := s.keepers[c := Busy(hs, Start)]));
    hide Quiet, Distinct, Waiting;
  }

  // Commits that write the books leave the claims in progress alone.
  lemma ClaimsApart(s: State, rows: Rows, nextId: nat, balances: Balances, cache: seq<Cached>, ops: Statuses, keepers: Keepers, credits: multiset<nat>)
    ensures SameClaims(s, s.(rows := rows, nextId := nextId, balances := balances, cache := cache, ops := ops, keepers := keepers, credits := credits))
  {
  }

  lemma AdvancedApart(s: State, m: State, c: Chain)
    ensures SameClaims(s, m) ==> SameClaims(s, Advance(m, c)) && SameClaims(s, AbortPass(m, c))
  {
  }

  lemma CrossCommitsOnly(s: State, c: Chain, outcome: Outcome, recent: bool)
    ensures SameClaims(s, CrossFinish(s, c, outcome, recent))
  {
    hide SameClaims, SetOp, IncBalance, AddToCache, Duplicate, Advance, AbortPass;
    if AtPhase(s, c) && s.KeeperOf(c).phase.CrossReady? {
      var CrossReady(found, row) := s.KeeperOf(c).phase;
      var ops := SetOp(s.ops, s.KeeperOf(c).batch[0], VALID);
      var cache' := AddToCache(s.cache, Cached(s.nextId, row), recent);
      AdvancedApart(s, s.(nextId := s.nextId + 1), c);
      AdvancedApart(s, s.(nextId := s.nextId + 1, cache := cache'), c);
      AdvancedApart(s, s.(rows := s.rows[s.nextId := row], nextId := s.nextId + 1,
        balances := IncBalance(s.balances, Account(row.sourceAddress, row.sourceChain, row.asset), -row.targetAmount), cache := cache', ops := ops), c);
      ClaimsApart(s, s.rows, s.nextId + 1, s.balances, s.cache, s.ops, s.keepers, s.credits);
      ClaimsApart(s, s.rows, s.nextId + 1, s.balances, cache', s.ops, s.keepers, s.credits);
      ClaimsApart(s, s.rows[s.nextId := row], s.nextId + 1,
        IncBalance(s.balances, Account(row.sourceAddress, row.sourceChain, row.asset), -row.targetAmount), cache', ops, s.keepers, s.credits);
      if found.Some? && found.value in s.rows {
        var r := row.(status := s.rows[found.value].status, targetId := s.rows[found.value].targetId);
        AdvancedApart(s, s.(rows := s.rows[found.value := r], ops := ops), c);
        ClaimsApart(s, s.rows[found.value := r], s.nextId, s.balances, s.cache, ops, s.keepers, s.credits);
      }
      AdvancedApart(s, s, c);
    }
    ClaimsApart(s, s.rows, s.nextId, s.balances, s.cache, s.ops, s.keepers, s.credits);
  }

  lemma CreditOnly(s: State, c: Chain, tx: Transfer, id: nat, r: Row)
    requires id in s.rows
    ensures SameClaims(s, Credit(s, c, tx, id, r))
  {
    hide CloseBoth, IncBalance, Settle, Rest;
  }

  lemma MintCommitsOnly(s: State, h: Hash, id: nat)
    ensures SameClaims(s, MintSave(s, h, id))
  {
    hide CloseBoth, Settle;
  }

  // A mint writes statuses and its place in progress, or saves the row it matched.
  predicate ApartFromMints(s: State, n: State)
  {
    n == s.(ops := n.ops, mints := n.mints)
  }

  lemma PutApart(s: State, ops: Statuses, mints: map<nat, MintTask>)
    ensures ApartFromMints(s, s) && ApartFromMints(s, s.(ops := ops)) && ApartFromMints(s, s.(mints := mints))
  {
  }

  // It leaves the statuses alone, or rejects the mint.
  predicate MintRejects(s: State, n: State, h: Hash)
  {
    n.ops == s.ops || (h in s.txs && s.txs[h].version == MintV
      && (n.ops == SetOp(s.ops, h, INVALID_OP_PARAMS) || n.ops == SetOp(s.ops, h, INCORRECT_FC)))
  }

  lemma MintTryIs(s: State, t: nat, h: Hash, cfg: Config, cached: Option<Cached>, fails: bool)
    ensures var n := MintTry(s, t, h, cfg, cached, fails);
      || (ApartFromMints(s, n) && MintRejects(s, n, h))
      || (cached.Some? && n == MintSave(s, h, cached.value.id) && IsClaim(s, cached.value.id))
  {
    hide MintSave, MintCached, MemoryGuards, SetOp, ApartFromMints, IsClaim;
    PutApart(s, s.ops, s.mints);
    PutApart(s, SetOp(s.ops, h, INVALID_OP_PARAMS), s.mints);
    PutApart(s, SetOp(s.ops, h, INCORRECT_FC), s.mints);
    if h in s.txs && s.txs[h].data.fc.Some? && s.txs[h].data.fc.value in cfg.byInternalId {
      var fromChain := cfg.byInternalId[s.txs[h].data.fc.value];
      PutApart(s, s.ops, s.mints[t := MintSearch(h, fromChain)]);
      if cached.Some? && MintCached(s, s.txs[h], fromChain, cached.value) {
        CachedClaim(s, s.txs[h], fromChain, cached.value);
      }
    }
  }

  predicate IsClaim(s: State, id: nat)
  {
    id in s.rows ==> s.rows[id].version == ClaimV
  }

  lemma CachedClaim(s: State, tx: Transfer, fromChain: Chain, e: Cached)
    requires MintCached(s, tx, fromChain, e)
    ensures IsClaim(s, e.id)
  {
  }

  lemma MintFindIs(s: State, t: nat, pick: Option<nat>)
    ensures ApartFromMints(s, MintFind(s, t, pick)) && MintFind(s, t, pick).ops == s.ops
  {
    hide ByTarget, AnyMatch, ApartFromMints;
    PutApart(s, s.ops, s.mints);
    PutApart(s, s.ops, s.mints - {t});
    if t in s.mints && pick.Some? {
      PutApart(s, s.ops, s.mints[t := MintFound(s.mints[t].hash, pick.value)]);
    }
  }

  function MintBase(s: State, t: nat): State
  {
    s.(mints := s.mints - {t})
  }

  lemma MintFinishIs(s: State, t: nat, fails: bool)
    ensures var n := MintFinish(s, t, fails);
            n == s || n == MintBase(s, t) || (t in s.mints && s.mints[t].MintFound? && n == MintSave(MintBase(s, t), s.mints[t].hash, s.mints[t].id))
  {
    hide MintSave;
  }

  lemma ApartIsQuiet(s: State, n: State)
    ensures ApartFromMints(s, n) ==> Quiet(s, n)
    ensures forall t :: Quiet(s, MintBase(s, t))
  {
  }

  lemma MintTriesOnly(s: State, t: nat, h: Hash, cfg: Config, cached: Option<Cached>, fails: bool)
    ensures SameClaims(s, MintTry(s, t, h, cfg, cached, fails))
  {
    MintTryIs(s, t, h, cfg, cached, fails);
    ApartIsQuiet(s, MintTry(s, t, h, cfg, cached, fails));
    hide MintTry, ApartFromMints, SameClaims, SameBooks, MintSave;
    if cached.Some? { MintCommitsOnly(s, h, cached.value.id); }
  }

  lemma MintFindsOnly(s: State, t: nat, pick: Option<nat>)
    ensures Quiet(s, MintFind(s, t, pick))
  {
    hide *;
    MintFindIs(s, t, pick);
    ApartIsQuiet(s, MintFind(s, t, pick));
  }

  lemma MintFinishesOnly(s: State, t: nat, fails: bool)
    ensures SameClaims(s, MintFinish(s, t, fails))
  {
    MintFinishIs(s, t, fails);
    hide MintFinish, MintSave;
    if t in s.mints && s.mints[t].MintFound? { MintCommitsOnly(MintBase(s, t), s.mints[t].hash, s.mints[t].id); }
  }

  lemma CreditsOnly(s: State, c: Chain, fails: bool)
    ensures SameClaims(s, MemoryFinish(s, c, fails)) && SameClaims(s, DbFinish(s, c, fails))
  {
    QuietMoves(s, c);
    assert SameClaims(s, s) && SameClaims(s, AbortPass(s, c)) && forall p :: SameClaims(s, WithPhase(s, c, p));
    hide SameClaims, Quiet, Credit, AbortPass, MemoryGuards, WithPhase;
    if AtPhase(s, c) {
      match s.KeeperOf(c).phase
      case MemoryMatched(_, e) =>
        if MemoryGuards(s, CurrentTx(s, c), e) {
          GuardedRow(s, c, e);
          CreditOnly(s, c, CurrentTx(s, c), e.id, e.row);
        }
      case Found(id, r) => if id in s.rows { CreditOnly(s, c, CurrentTx(s, c), id, r); }
      case _ =>
    }
  }

  lemma GuardedRow(s: State, c: Chain, e: Cached)
    requires AtPhase(s, c) && MemoryGuards(s, CurrentTx(s, c), e)
    ensures e.id in s.rows
  {
  }

  lemma TransfersOnly(s: State, c: Chain, fails: bool)
    ensures SameClaims(s, TransferFinish(s, c, fails))
  {
    hide SetOp, IncBalance, Rest, Writable;
    WritableNumbers();
  }

  lemma WritableNumbers()
    ensures forall amount :: Writable(amount) ==> amount.Number().Some?
  {
  }

  lemma DropsOnly(s: State, i: nat)
    ensures Quiet(s, DropCached(s, i))
  {
    hide Quiet;
    CacheApart(s, s.cache);
    if i < |s.cache| {
      CacheApart(s, s.cache[..i] + s.cache[i + 1..]);
    }
  }

  lemma CacheApart(s: State, cache: seq<Cached>)
    ensures Quiet(s, s) && Quiet(s, s.(cache := cache))
  {
  }

  lemma MakerPaysOnly(s: State, id: nat, status: int, payment: Option<Hash>)
    ensures SameClaims(s, MakerPay(s, id, status, payment))
  {
  }

  lemma ArrivesOnly(s: State, tx: Transfer, opStatus: int)
    ensures SameBooks(s, Arrive(s, tx, opStatus))
  {
  }

  lemma RestartsOnly(s: State)
    ensures SameBooks(s, s.(cache := [], claims := map[], mints := map[], keepers := map[]))
  {
  }

  lemma ClaimsUntouched(s: State, e: Event)
    ensures e.Arrives? || e.Deploys? || e.ClaimReads? || e.ClaimChecks? || e.ClaimFinishes? || e.Restarts? || SameClaims(s, Next(s, e))
  {
    hide Arrive, ClaimRead, ClaimCheck, CrossCheck, CrossOverMatch, DbFind, TransferCheck, LoadBatch,
         DeployTransfer, ClaimFinish, MintTry, MintFind, MintFinish, CrossFinish, MemoryFinish, DbFinish, TransferFinish, SameBooks, SameClaims, AbortPass, MakerPay, DropCached;
    match e
    case CrossChecks(c, found, cfg) => CrossReadsOnly(s, c, found, cfg);
    case CrossOverMatches(c, cfg) => CrossOverReadsOnly(s, c, cfg);
    case DbFinds(c, pick) => DbReadsOnly(s, c, pick);
    case TransferChecks(c) => TransferReadsOnly(s, c);
    case LoadsBatch(c, hs) => LoadsOnly(s, c, hs);
    case CrossFinishes(c, outcome, recent) => CrossCommitsOnly(s, c, outcome, recent);
    case MintTries(t, h, cfg, cached, fails) => MintTriesOnly(s, t, h, cfg, cached, fails);
    case MintFinds(t, pick) => MintFindsOnly(s, t, pick);
    case MintFinishes(t, fails) => MintFinishesOnly(s, t, fails);
    case MemoryFinishes(c, fails) => CreditsOnly(s, c, fails);
    case DbFinishes(c, fails) => CreditsOnly(s, c, fails);
    case TransferFinishes(c, fails) => TransfersOnly(s, c, fails);
    case CacheDrops(i) => DropsOnly(s, i);
    case PassThrows(c) => QuietMoves(s, c);
    case MakerPays(id, status, payment) => MakerPaysOnly(s, id, status, payment);
    case _ =>
  }

  lemma QuietEvent(s: State, e: Event)
    ensures e.Deploys? || e.ClaimFinishes? || e.MintTries? || e.MintFinishes? || e.MakerPays? || e.CrossFinishes? || e.MemoryFinishes? || e.DbFinishes? || e.TransferFinishes?
         || SameBooks(s, Next(s, e))
  {
    hide ClaimRead, ClaimCheck, CrossCheck, CrossOverMatch, DbFind, TransferCheck, LoadBatch,
         DeployTransfer, ClaimFinish, MintTry, MintFind, MintFinish, CrossFinish, MemoryFinish, DbFinish, TransferFinish, SameBooks, SameClaims, Arrive, AbortPass, MakerPay, DropCached;
    match e
    case Arrives(tx, opStatus) => ArrivesOnly(s, tx, opStatus);
    case Restarts => RestartsOnly(s);
    case ClaimReads(t, h, payloadOp) => ClaimReadsOnly(s, t, h, payloadOp);
    case ClaimChecks(t, found, cfg) => ClaimChecksOnly(s, t, found, cfg);
    case CrossChecks(c, found, cfg) => CrossReadsOnly(s, c, found, cfg);
    case CrossOverMatches(c, cfg) => CrossOverReadsOnly(s, c, cfg);
    case DbFinds(c, pick) => DbReadsOnly(s, c, pick);
    case TransferChecks(c) => TransferReadsOnly(s, c);
    case LoadsBatch(c, hs) => LoadsOnly(s, c, hs);
    case MintFinds(t, pick) => MintFindsOnly(s, t, pick);
    case CacheDrops(i) => DropsOnly(s, i);
    case PassThrows(c) => QuietMoves(s, c);
    case _ =>
  }
}
