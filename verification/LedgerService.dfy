/**
 The service class of the ledger, written as its source is: handlers that check, throw, update rows one column
 at a time and either commit or leave the tables alone. A handler is cut at the awaits where other handlers may
 run; each piece is proved to do to the tables exactly what its event does in Ledger. `Resume` is the event loop, which
 runs one piece after another: it is proved to take every step of Ledger that is not another process's, and to keep the
 invariant. A query answers with any of the rows that satisfy its conditions, or with none if there are none.
 */
module LedgerService {
  import opened Wrappers
  import opened Ledger
  import opened Sequences
  import opened Tables
  import opened Text
  import opened LedgerInvariants

  // ---------- InscriptionBuilder ----------

  // The checks of `build` in their order; an error code stands for the ValidSourceTxError thrown.
  method BuildClaim(transfer: Transfer, deployRecord: Deploy, cfg: Config) returns (result: Result<Row, int>)
    ensures result == Build(transfer, deployRecord, cfg)
  {
    var createdData := Row(transfer.version, transfer.hash, transfer.chain, transfer.sender, transfer.nonce,
                           transfer.timestamp, "", 0, 0.0, transfer.data.AssetOf(), "", 0, None);
    if transfer.nonce >= 10000000000000 {
      return Err(NONCE_EXCEED_MAXIMUM);
    }
    if transfer.chain !in cfg.chains {
      return Err(SOURCE_NOT_FOUND);
    }
    if CapReached(deployRecord) {
      return Err(CLAIM_EXCEED_MAXIMUM);
    }
    var targetChain := TargetChain(transfer, cfg);
    if targetChain == None {
      return Err(TARGET_NOT_FOUND);
    }
    if targetChain.value == transfer.chain {
      return Err(CLAIM_MUST_CROSS_CHAIN);
    }
    if transfer.data.amt == None || transfer.data.amt.value.Number() == None {
      return Err(AMOUNT_MUST_BE_INTEGER);
    }
    var targetAmount := transfer.data.amt.value.Number().value;
    if OverLimit(targetAmount, deployRecord.limit) {
      return Err(CLAIM_AMOUNT_EXCEED_LIMIT);
    }
    if !transfer.data.amt.value.IsInteger() || targetAmount < 1.0 {
      return Err(AMOUNT_MUST_BE_INTEGER);
    }
    if cfg.claimFee == None {
      return Err(CHARING_RULE_NOT_FOUND);
    }
    if cfg.claimFee.value > transfer.fee {
      return Err(CHARING_TOO_LOW);
    }
    createdData := createdData.(targetAddress := transfer.sender);
    createdData := createdData.(targetAmount := targetAmount);
    createdData := createdData.(targetChain := targetChain.value);
    createdData := createdData.(responseMaker := transfer.receiver);
    return Ok(createdData);
  }

  // What a query for one row may answer when these rows satisfy its conditions.
  ghost predicate Answers(found: Option<nat>, matching: set<nat>)
  {
    if found.Some? then found.value in matching else matching == {}
  }

  // The rows that satisfy the conditions of the three queries.
  ghost function NamedRows(s: State, c: Chain, tx: Transfer): (ids: set<nat>)
    ensures forall id :: id in ids <==> ByTarget(s, c, tx, id)
  {
    set id | id in s.rows && ByTarget(s, c, tx, id)
  }

  ghost function CrossRows(s: State, tx: Transfer, fromChain: Chain): (ids: set<nat>)
    ensures forall id :: id in ids <==> id in s.rows && DbMatch(s.rows[id], tx, fromChain)
  {
    set id | id in s.rows && DbMatch(s.rows[id], tx, fromChain)
  }

  ghost function AnyRows(s: State, tx: Transfer, fromChain: Chain): (ids: set<nat>)
    ensures forall id :: id in ids <==> id in s.rows && AnyMatch(s.rows[id], tx, fromChain)
  {
    set id | id in s.rows && AnyMatch(s.rows[id], tx, fromChain)
  }

  ghost predicate CacheMayAnswer(s: State, transfer: Transfer, cfg: Config, entry: Cached)
  {
    transfer.data.fc.Some? && transfer.data.fc.value in cfg.byInternalId ==>
      MintCached(s, transfer, cfg.byInternalId[transfer.data.fc.value], entry)
  }

  // The piece an event stands for can run now, and its queries may answer what the event says.
  ghost predicate Ready(s: State, e: Event)
  {
    match e
    case Deploys(h, _) => h in s.txs && s.txs[h].status == 2 && s.txs[h].version == DeployV
    case ClaimReads(t, h, _) => t !in s.claims && h in s.txs && s.txs[h].status == 2 && s.txs[h].version == ClaimV
    case ClaimChecks(t, found, _) =>
      t in s.claims && s.claims[t].ReadDeploy? && s.claims[t].hash in s.txs && IsRowOf(s.rows, s.txs[s.claims[t].hash], found)
    case ClaimFinishes(t, _) => t in s.claims && s.claims[t].ClaimReady?
    case MintTries(t, h, cfg, cached, _) =>
      t !in s.mints && h in s.txs && s.txs[h].version == MintV && (cached.Some? ==> CacheMayAnswer(s, s.txs[h], cfg, cached.value))
    case MintFinds(t, pick) =>
      && t in s.mints && s.mints[t].MintSearch? && s.mints[t].hash in s.txs
      && var tx := s.txs[s.mints[t].hash];
      && Finds(pick, NamedRows(s, tx.chain, tx), AnyRows(s, tx, s.mints[t].fromChain))
    case MintFinishes(t, _) =>
      t in s.mints && s.mints[t].MintFound? && s.mints[t].hash in s.txs && s.txs[s.mints[t].hash].version == MintV && s.mints[t].id in s.rows
    case LoadsBatch(c, hs) =>
      s.KeeperOf(c).Idle? && |hs| <= 1000 && Distinct(hs) && forall i :: 0 <= i < |hs| ==> Waiting(s, c, hs[i])
    case CrossChecks(c, found, _) =>
      AtPhase(s, c) && s.KeeperOf(c).phase.Start? && CurrentTx(s, c).version == CrossV && IsRowOf(s.rows, CurrentTx(s, c), found)
    case CrossFinishes(c, _, _) => AtPhase(s, c) && s.KeeperOf(c).phase.CrossReady?
    case CacheDrops(i) => i < |s.cache|
    case CrossOverMatches(c, _) => AtPhase(s, c) && s.KeeperOf(c).phase.Start? && CurrentTx(s, c).version == CrossOverV
    case MemoryFinishes(c, _) => AtPhase(s, c) && s.KeeperOf(c).phase.MemoryMatched?
    case DbFinds(c, pick) =>
      && AtPhase(s, c) && s.KeeperOf(c).phase.SearchDb?
      && Finds(pick, NamedRows(s, c, CurrentTx(s, c)), CrossRows(s, CurrentTx(s, c), s.KeeperOf(c).phase.fromChain))
    case DbFinishes(c, _) => AtPhase(s, c) && (s.KeeperOf(c).phase.FoundByTarget? || s.KeeperOf(c).phase.Found?)
    case TransferChecks(c) => AtPhase(s, c) && s.KeeperOf(c).phase.Start? && CurrentTx(s, c).version == TransferV
    case TransferFinishes(c, _) => AtPhase(s, c) && s.KeeperOf(c).phase.TransferReady?
    case PassThrows(_) => true
    case Restarts => true
    case Arrives(_, _) => false     // of another process
    case MakerPays(_, _, _) => false
  }

  // Two queries one after the other, the second only if the first finds nothing.
  ghost predicate Finds(pick: Option<nat>, first: set<nat>, second: set<nat>)
  {
    if first != {} then Answers(pick, first) else Answers(pick, second)
  }

  // The database takes the row under this id.
  ghost predicate Insertable(rows: map<nat, Row>, id: nat, row: Row)
  {
    id !in rows && !Duplicate(rows, row)
  }

  // The event column by column.
  lemma NewCross(s: State, n: State, c: Chain, outcome: Outcome, recent: bool)
    requires AtPhase(s, c) && s.KeeperOf(c).phase.CrossReady? && s.KeeperOf(c).phase.found.None?
    requires var row := s.KeeperOf(c).phase.row;
      var inserted := outcome != FailsEarly && Insertable(s.rows, s.nextId, row);
      && n.nextId == s.nextId + 1
      && n.cache == if inserted then AddToCache(s.cache, Cached(s.nextId, row), recent) else s.cache
    requires var row := s.KeeperOf(c).phase.row;
      if outcome == Commits && Insertable(s.rows, s.nextId, row) then
        && n.rows == s.rows[s.nextId := row]
        && n.balances == IncBalance(s.balances, Account(row.sourceAddress, row.sourceChain, row.asset), -row.targetAmount)
        && n.ops == SetOp(s.ops, s.KeeperOf(c).batch[0], VALID)
        && n.keepers == s.keepers[c := Rest(s.KeeperOf(c).batch)]
      else
        n.rows == s.rows && n.balances == s.balances && n.ops == s.ops && n.keepers == s.keepers[c := Idle]
    requires n.txs == s.txs && n.deploys == s.deploys && n.claims == s.claims && n.mints == s.mints && n.credits == s.credits
    ensures n == CrossFinish(s, c, outcome, recent)
  {
    hide SetOp, IncBalance, Duplicate, AddToCache, Rest;
  }

  class TransactionV3Service {
    var txs: map<Hash, Transfer>
    var ops: map<Hash, int>
    var deploys: map<Asset, Deploy>
    var balances: map<Account, real>
    var rows: map<nat, Row>
    var nextId: nat
    var cache: seq<Cached>
    var claims: map<nat, ClaimTask>
    var mints: map<nat, MintTask>
    var keepers: map<Chain, Keeper>
    ghost var credits: multiset<nat>

    ghost function Abs(): State
      reads this
    {
      State(txs, ops, deploys, balances, rows, nextId, cache, claims, mints, keepers, credits)
    }

    ghost predicate Valid()
      reads this
    {
      Inv(Abs())
    }

    constructor ()
      ensures Abs() == Empty
    {
      txs, ops, deploys, balances, rows := map[], map[], map[], map[], map[];
      nextId, cache, claims, mints, keepers := 1, [], map[], map[], map[];
      credits := multiset{};
    }

    // ---------- statements ----------

    method UpdateOpStatus(h: Hash, opStatus: int)
      modifies `ops
      ensures ops == SetOp(old(ops), h, opStatus)
    {
      if h in ops {
        ops := ops[h := opStatus];
      }
    }

    method IncUserBalance(account: Account, value: real)
      modifies `balances
      ensures balances == IncBalance(old(balances), account, value)
    {
      if account in balances {
        balances := balances[account := balances[account] + value];
      } else {
        balances := balances[account := 0.0 + value];
      }
    }

    method IncMintedAmount(asset: Asset, value: real)
      modifies `deploys
      ensures deploys == IncMinted(old(deploys), asset, value)
    {
      if asset in deploys {
        var record := deploys[asset];
        record := record.(minted := record.minted + value);
        record := record.(mintedTx := record.mintedTx + 1);
        deploys := deploys[asset := record];
      }
    }

    // UPDATE bridge_transaction SET targetId = ..., status = ... WHERE id = id
    method SettleRow(id: nat, transfer: Transfer)
      requires id in rows
      modifies `rows
      ensures rows == old(rows)[id := Settle(old(rows)[id], transfer)]
    {
      var row := rows[id];
      row := row.(targetId := Some(transfer.hash));
      row := row.(status := if transfer.status == 3 then PAID_CRASH else BRIDGE_SUCCESS);
      rows := rows[id := row];
    }

    // Everything but status and payment is written over.
    method RewriteRow(id: nat, createdData: Row)
      requires id in rows
      modifies `rows
      ensures rows == old(rows)[id := createdData.(status := old(rows)[id].status, targetId := old(rows)[id].targetId)]
    {
      var sourceBT := rows[id];
      rows := rows[id := createdData.(status := sourceBT.status, targetId := sourceBT.targetId)];
    }

    method CloseTransfers(h: Hash, g: Hash)
      modifies `ops
      ensures ops == CloseBoth(old(ops), h, g)
    {
      if h in ops && (ops[h] == 0 || ops[h] == 1) {
        ops := ops[h := BRIDGE_SUCCESS];
      }
      if g in ops && (ops[g] == 0 || ops[g] == 1) {
        ops := ops[g := BRIDGE_SUCCESS];
      }
    }

    // addBridgeTransaction of the cross cache
    method AddBridgeTransaction(entry: Cached, recent: bool)
      modifies `cache
      ensures cache == AddToCache(old(cache), entry, recent)
    {
      if !recent {
        return;
      }
      var i := 0;
      while i < |cache|
        invariant 0 <= i <= |cache| && cache == old(cache)
        invariant forall j :: 0 <= j < i ==> !(cache[j].row.version == entry.row.version && cache[j].row.sourceId == entry.row.sourceId)
      {
        if cache[i].row.version == entry.row.version && cache[i].row.sourceId == entry.row.sourceId {
          return;
        }
        i := i + 1;
      }
      cache := cache + [entry];
    }

    // ---------- the bookkeeper of a chain ----------

    // bookKeepingByChain under the free mutex: the transfers the query returned, in its order.
    method LoadTransfers(c: Chain, allTransfers: seq<Hash>)
      requires Abs().KeeperOf(c).Idle? && |allTransfers| <= 1000 && Distinct(allTransfers)
      requires forall i :: 0 <= i < |allTransfers| ==> Waiting(Abs(), c, allTransfers[i])
      modifies `keepers
      ensures Abs() == LoadBatch(old(Abs()), c, allTransfers)
    {
      if |allTransfers| > 0 {
        keepers := keepers[c := Busy(allTransfers, Start)];
      }
    }

    method NextTransfer(c: Chain)
      requires c in keepers && keepers[c].Busy? && keepers[c].batch != []
      modifies `keepers
      ensures keepers == old(keepers)[c := Rest(old(keepers)[c].batch)]
    {
      var batch := keepers[c].batch[1..];
      keepers := keepers[c := if |batch| == 0 then Idle else Busy(batch, Start)];
    }

    method ReleaseMutex(c: Chain)
      modifies `keepers
      ensures keepers == old(keepers)[c := Idle]
    {
      keepers := keepers[c := Idle];
    }

    method SetPhase(c: Chain, phase: Phase)
      requires c in keepers && keepers[c].Busy?
      modifies `keepers
      ensures keepers == old(keepers)[c := Busy(old(keepers)[c].batch, phase)]
    {
      keepers := keepers[c := keepers[c].(phase := phase)];
    }

    method RejectTransfer(c: Chain, h: Hash, opStatus: int)
      requires AtPhase(Abs(), c)
      modifies `ops, `keepers
      ensures Abs() == Reject(old(Abs()), c, h, opStatus)
    {
      UpdateOpStatus(h, opStatus);
      NextTransfer(c);
    }

    // ---------- deploy ----------

    method HandleDeployTransfer(h: Hash, cfg: Config)
      requires h in txs && txs[h].status == 2 && txs[h].version == DeployV
      modifies `ops, `deploys
      ensures Abs() == DeployTransfer(old(Abs()), h, cfg)
    {
      var transfer := txs[h];
      var callData := transfer.data;
      if callData.protocol == "" || callData.lim == None || callData.lim.value <= 0
         || callData.max == None || callData.max.value <= 0 || callData.op != DeployOp {
        UpdateOpStatus(h, INVALID_OP_PARAMS);
        return;
      }
      if transfer.receiver !in cfg.makers {
        UpdateOpStatus(h, INVALID_DEPLOY_MAKER);
        return;
      }
      if callData.AssetOf() in deploys {
        return;
      }
      deploys := deploys[callData.AssetOf() := Deploy(transfer.receiver, callData.max.value, callData.lim.value, 0.0, 0)];
      UpdateOpStatus(h, MATCHED);
    }

    // ---------- claim ----------

    // Up to the lookup of an existing row.
    method StartClaimTransfer(t: nat, h: Hash, payloadOp: int)
      requires t !in claims && h in txs && txs[h].status == 2 && txs[h].version == ClaimV
      modifies `ops, `claims
      ensures Abs() == ClaimRead(old(Abs()), t, h, payloadOp)
    {
      var transfer := txs[h];
      var callData := transfer.data;
      if callData.op == NoOp || callData.protocol == "" || callData.tick == "" || callData.amt == None
         || !callData.amt.value.IsInteger() {
        UpdateOpStatus(h, INVALID_OP_PARAMS);
        return;
      }
      if callData.op != ClaimOp {
        UpdateOpStatus(h, INVALID_OP);
        return;
      }
      var asset := callData.AssetOf();
      if asset !in deploys || deploys[asset].to != transfer.receiver {
        UpdateOpStatus(h, DEPLOY_RECORD_NOT_FOUND);
        return;
      }
      claims := claims[t := ReadDeploy(h, payloadOp, deploys[asset])];
    }

    // From the lookup to the transaction.
    method BuildClaimRow(t: nat, found: Option<nat>, cfg: Config)
      requires t in claims && claims[t].ReadDeploy? && claims[t].hash in txs
      requires IsRowOf(rows, txs[claims[t].hash], found)
      modifies `ops, `claims
      ensures Abs() == ClaimCheck(old(Abs()), t, found, cfg)
    {
      var ReadDeploy(h, payloadOp, deployTick) := claims[t];
      if found.Some? && rows[found.value].status >= 90 {
        claims := claims - {t};
        return;
      }
      var createdData := BuildClaim(txs[h], deployTick, cfg);
      if createdData.Err? {
        UpdateOpStatus(h, createdData.error);
        claims := claims - {t};
        return;
      }
      if |createdData.value.targetAddress| >= 100 {
        claims := claims - {t};
        return;
      }
      claims := claims[t := ClaimReady(h, payloadOp, found, createdData.value)];
    }

    // The statements of the transaction when there was no row.
    method InsertClaim(createdData: Row, fails: bool) returns (ok: bool)
      modifies `nextId, `rows, `deploys, `balances
      ensures ok == (!fails && !Duplicate(old(rows), createdData) && old(nextId) !in old(rows))
      ensures nextId == old(nextId) + 1
      ensures rows == if ok then old(rows)[old(nextId) := createdData] else old(rows)
      ensures deploys == if ok then IncMinted(old(deploys), createdData.asset, createdData.targetAmount) else old(deploys)
      ensures balances == if ok
                then IncBalance(old(balances), Account(createdData.sourceAddress, createdData.targetChain, createdData.asset), createdData.targetAmount)
                else old(balances)
    {
      hide IncBalance, IncMinted, Duplicate;
      var id := nextId;
      nextId := nextId + 1;
      if fails || id in rows || Duplicate(rows, createdData) {
        return false;
      }
      rows := rows[id := createdData];
      IncMintedAmount(createdData.asset, createdData.targetAmount);
      IncUserBalance(Account(createdData.sourceAddress, createdData.targetChain, createdData.asset), createdData.targetAmount);
      return true;
    }

    // An existing row is written over.
    method UpdateClaim(t: nat, id: nat, fails: bool)
      requires t in claims && claims[t].ClaimReady? && claims[t].found == Some(id)
      modifies `claims, `rows, `ops
      ensures Abs() == ClaimFinish(old(Abs()), t, fails)
    {
      hide SetOp;
      var ClaimReady(h, payloadOp, _, createdData) := claims[t];
      claims := claims - {t};
      if fails || id !in rows {
        return;
      }
      RewriteRow(id, createdData);
      if payloadOp != 1 {
        UpdateOpStatus(h, VALID);
      }
    }

    method CreateClaim(t: nat, fails: bool)
      requires t in claims && claims[t].ClaimReady? && claims[t].found == None
      modifies `claims, `rows, `deploys, `balances, `nextId, `ops
      ensures Abs() == ClaimFinish(old(Abs()), t, fails)
    {
      hide SetOp, IncBalance, IncMinted, Duplicate;
      var ClaimReady(h, payloadOp, _, createdData) := claims[t];
      claims := claims - {t};
      var ok := InsertClaim(createdData, fails);
      if ok && payloadOp != 1 {
        UpdateOpStatus(h, VALID);
      }
    }

    // The transaction: whatever makes it fail leaves the tables as they were.
    method CommitClaim(t: nat, fails: bool)
      requires t in claims && claims[t].ClaimReady?
      modifies `claims, `rows, `deploys, `balances, `nextId, `ops
      ensures Abs() == ClaimFinish(old(Abs()), t, fails)
    {
      hide ClaimFinish;
      var found := claims[t].found;
      if found.Some? {
        UpdateClaim(t, found.value, fails);
      } else {
        CreateClaim(t, fails);
      }
    }

    // ---------- cross ----------

    // InscriptionBuilder.buildCross
    method BuildCrossRow(transfer: Transfer, cfg: Config) returns (result: Result<Row, int>)
      ensures result == BuildCross(Abs(), transfer, cfg)
    {
      var createdData := Row(transfer.version, transfer.hash, transfer.chain, transfer.sender, transfer.nonce,
                             transfer.timestamp, "", 0, 0.0, transfer.data.AssetOf(), "", 0, None);
      if transfer.nonce >= 100000000000000 {
        return Err(NONCE_EXCEED_MAXIMUM);
      }
      if transfer.chain !in cfg.chains {
        return Err(SOURCE_NOT_FOUND);
      }
      var targetChain := TargetChain(transfer, cfg);
      if targetChain == None {
        return Err(TARGET_NOT_FOUND);
      }
      if targetChain.value == transfer.chain {
        return Err(CLAIM_MUST_CROSS_CHAIN);
      }
      if transfer.data.amt == None || !transfer.data.amt.value.IsInteger() {
        return Err(AMOUNT_MUST_BE_INTEGER);
      }
      var targetAmount := transfer.data.amt.value.Number().value;
      if targetAmount < 1.0 {
        return Err(AMOUNT_MUST_BE_INTEGER);
      }
      if cfg.crossFee == None {
        return Err(CHARING_RULE_NOT_FOUND);
      }
      var account := Account(transfer.sender, transfer.chain, transfer.data.AssetOf());
      if account !in balances || balances[account] < targetAmount {
        return Err(NOT_SUFFICIENT_FUNDS);
      }
      if cfg.crossFee.value > transfer.fee {
        return Err(CHARING_TOO_LOW);
      }
      var targetAddress := transfer.sender;
      if transfer.data.to != "" {
        targetAddress := Lower(transfer.data.to);
      }
      if !("0x" <= targetAddress) && |targetAddress| != 42 {
        return Err(CROSS_INVALID_TARGET_ADDRESS);
      }
      createdData := createdData.(targetAddress := targetAddress);
      createdData := createdData.(targetAmount := targetAmount);
      createdData := createdData.(targetChain := targetChain.value);
      createdData := createdData.(responseMaker := transfer.receiver);
      return Ok(createdData);
    }

    method CheckCrossTransfer(c: Chain, found: Option<nat>, cfg: Config)
      requires AtPhase(Abs(), c) && keepers[c].phase.Start? && CurrentTx(Abs(), c).version == CrossV
      requires IsRowOf(rows, CurrentTx(Abs(), c), found)
      modifies `ops, `keepers
      ensures Abs() == CrossCheck(old(Abs()), c, found, cfg)
    {
      hide Reject, BuildCross, Rest;
      var h := keepers[c].batch[0];
      var transfer := txs[h];
      var callData := transfer.data;
      if transfer.status != 2 {
        NextTransfer(c);
        return;
      }
      if callData.op != CrossOp || callData.protocol == "" || callData.tick == "" || callData.amt == None
         || !callData.amt.value.Plain? || !callData.amt.value.IsInteger() {
        RejectTransfer(c, h, INVALID_OP_PARAMS);
        return;
      }
      var asset := callData.AssetOf();
      if asset !in deploys || deploys[asset].to != transfer.receiver {
        RejectTransfer(c, h, DEPLOY_RECORD_NOT_FOUND);
        return;
      }
      if found.Some? && rows[found.value].status >= 90 {
        NextTransfer(c);
        return;
      }
      var createdData := BuildCrossRow(transfer, cfg);
      if createdData.Err? {
        RejectTransfer(c, h, createdData.error);
        return;
      }
      SetPhase(c, CrossReady(found, createdData.value));
    }

    // The statements of the transaction when there was no row: row, balance, cache. A failure after that rolls back the
    // tables, but not the cache.
    method InsertCross(createdData: Row, outcome: Outcome, recent: bool) returns (ok: bool)
      modifies `nextId, `cache, `rows, `balances
      ensures ok == (outcome == Commits && Insertable(old(rows), old(nextId), createdData))
      ensures nextId == old(nextId) + 1
      ensures rows == if ok then old(rows)[old(nextId) := createdData] else old(rows)
      ensures balances == if ok
                then IncBalance(old(balances), Account(createdData.sourceAddress, createdData.sourceChain, createdData.asset), -createdData.targetAmount)
                else old(balances)
      ensures cache == if outcome != FailsEarly && Insertable(old(rows), old(nextId), createdData)
                then AddToCache(old(cache), Cached(old(nextId), createdData), recent) else old(cache)
    {
      hide IncBalance, Duplicate, AddToCache;
      var id := nextId;
      nextId := nextId + 1;
      if outcome == FailsEarly || id in rows || Duplicate(rows, createdData) {
        return false;
      }
      var committedRows, committedBalances := rows, balances;
      rows := rows[id := createdData];
      IncUserBalance(Account(createdData.sourceAddress, createdData.sourceChain, createdData.asset), -createdData.targetAmount);
      AddBridgeTransaction(Cached(id, createdData), recent);
      if outcome == FailsLate {
        rows, balances := committedRows, committedBalances;
        return false;
      }
      return true;
    }

    // An existing row is written over.
    method UpdateCross(c: Chain, id: nat, outcome: Outcome)
      requires AtPhase(Abs(), c) && keepers[c].phase.CrossReady? && keepers[c].phase.found == Some(id)
      modifies `rows, `ops, `keepers
      ensures forall recent :: Abs() == CrossFinish(old(Abs()), c, outcome, recent)
    {
      hide SetOp, Rest;
      if outcome != Commits || id !in rows {
        ReleaseMutex(c);
        return;
      }
      var h := keepers[c].batch[0];
      RewriteRow(id, keepers[c].phase.row);
      UpdateOpStatus(h, VALID);
      NextTransfer(c);
    }

    method CreateCross(c: Chain, outcome: Outcome, recent: bool)
      requires AtPhase(Abs(), c) && keepers[c].phase.CrossReady? && keepers[c].phase.found == None
      modifies `nextId, `cache, `rows, `balances, `ops, `keepers
      ensures Abs() == CrossFinish(old(Abs()), c, outcome, recent)
    {
      hide CrossFinish, SetOp, IncBalance, Duplicate, Insertable, AddToCache, Rest;
      var h := keepers[c].batch[0];
      var ok := InsertCross(keepers[c].phase.row, outcome, recent);
      if ok {
        UpdateOpStatus(h, VALID);
        NextTransfer(c);
      } else {
        ReleaseMutex(c);
      }
      NewCross(old(Abs()), Abs(), c, outcome, recent);
    }

    // The transaction; its failure ends the pass.
    method CommitCross(c: Chain, outcome: Outcome, recent: bool)
      requires AtPhase(Abs(), c) && keepers[c].phase.CrossReady?
      modifies `nextId, `cache, `rows, `balances, `ops, `keepers
      ensures Abs() == CrossFinish(old(Abs()), c, outcome, recent)
    {
      hide CrossFinish;
      var found := keepers[c].phase.found;
      if found.Some? {
        UpdateCross(c, found.value, outcome);
      } else {
        CreateCross(c, outcome, recent);
      }
    }

    // ---------- crossover ----------

    // matchV3GetBridgeTransactions: the first cached row that fits
    method MatchCache(transfer: Transfer, fromChain: Chain) returns (bt: Option<Cached>)
      ensures bt == FindCached(cache, transfer, fromChain)
    {
      var i := 0;
      while i < |cache|
        invariant 0 <= i <= |cache|
        invariant FindCached(cache, transfer, fromChain) == FindCached(cache[i..], transfer, fromChain)
      {
        if MemoryMatch(cache[i].row, transfer, fromChain, CrossV) {
          return Some(cache[i]);
        }
        i := i + 1;
      }
      return None;
    }

    method MatchCrossOverTransfer(c: Chain, cfg: Config)
      requires AtPhase(Abs(), c) && keepers[c].phase.Start? && CurrentTx(Abs(), c).version == CrossOverV
      modifies `ops, `keepers
      ensures Abs() == CrossOverMatch(old(Abs()), c, cfg)
    {
      hide Reject, MemoryMatch, FindCached;
      var h := keepers[c].batch[0];
      var transfer := txs[h];
      var callData := transfer.data;
      if callData.op != CrossOverOp || callData.protocol == "" || callData.tick == "" || callData.amt == None
         || !callData.amt.value.Plain? || callData.fc == None {
        RejectTransfer(c, h, INVALID_OP_PARAMS);
        return;
      }
      var asset := callData.AssetOf();
      if asset !in deploys || deploys[asset].to != transfer.sender {
        RejectTransfer(c, h, DEPLOY_RECORD_NOT_FOUND);
        return;
      }
      if callData.fc.value !in cfg.byInternalId {
        RejectTransfer(c, h, INCORRECT_FC);
        return;
      }
      var fromChain := cfg.byInternalId[callData.fc.value];
      var memoryBT := MatchCache(transfer, fromChain);
      if memoryBT.Some? {
        SetPhase(c, MemoryMatched(fromChain, memoryBT.value));
      } else {
        SetPhase(c, SearchDb(fromChain));
      }
    }

    // What both transactions of a crossover write.
    method PayOut(c: Chain, transfer: Transfer, id: nat, bt: Row)
      requires id in rows && c in keepers && keepers[c].Busy? && keepers[c].batch != []
      modifies `rows, `ops, `balances, `credits, `keepers
      ensures Abs() == Credit(old(Abs()), c, transfer, id, bt)
    {
      hide CloseBoth, Settle, IncBalance, Rest;
      SettleRow(id, transfer);
      CloseTransfers(transfer.hash, bt.sourceId);
      IncUserBalance(Account(bt.targetAddress, bt.targetChain, transfer.data.AssetOf()), bt.targetAmount);
      credits := credits + multiset{id};
      NextTransfer(c);
    }

    method CommitMemoryMatch(c: Chain, fails: bool)
      requires AtPhase(Abs(), c) && keepers[c].phase.MemoryMatched?
      modifies `rows, `ops, `balances, `credits, `keepers
      ensures Abs() == MemoryFinish(old(Abs()), c, fails)
    {
      var transfer := txs[keepers[c].batch[0]];
      var MemoryMatched(fromChain, memoryBT) := keepers[c].phase;
      var oneRow := memoryBT.id in rows && Unsettled(rows[memoryBT.id].status)
        && transfer.timestamp - 120 * 60000 < rows[memoryBT.id].sourceTime < transfer.timestamp + 5 * 60000;
      var twoTransfers := transfer.hash != memoryBT.row.sourceId && Open(ops, transfer.hash) && Open(ops, memoryBT.row.sourceId);
      if fails || !oneRow || !twoTransfers {
        SetPhase(c, SearchDb(fromChain));
        return;
      }
      PayOut(c, transfer, memoryBT.id, memoryBT.row);
    }

    // The search of the second transaction: by target, and only if that finds nothing by what the row asks for.
    method SearchDbMatch(c: Chain, byTarget: Option<nat>, byMatch: Option<nat>)
      requires AtPhase(Abs(), c) && keepers[c].phase.SearchDb?
      requires Answers(byTarget, NamedRows(Abs(), c, CurrentTx(Abs(), c)))
      requires byTarget.None? ==> Answers(byMatch, CrossRows(Abs(), CurrentTx(Abs(), c), keepers[c].phase.fromChain))
      modifies `keepers
      ensures Abs() == DbFind(old(Abs()), c, if byTarget.Some? then byTarget else byMatch)
    {
      hide DbMatch, ByTarget, Rest;
      if byTarget.Some? {
        SetPhase(c, FoundByTarget(byTarget.value));
      } else if byMatch.Some? {
        SetPhase(c, Found(byMatch.value, rows[byMatch.value]));
      } else {
        NextTransfer(c);
      }
    }

    method CommitDbMatch(c: Chain, fails: bool)
      requires AtPhase(Abs(), c) && (keepers[c].phase.FoundByTarget? || keepers[c].phase.Found?)
      modifies `rows, `ops, `balances, `credits, `keepers
      ensures Abs() == DbFinish(old(Abs()), c, fails)
    {
      var phase := keepers[c].phase;
      if phase.FoundByTarget? || fails || phase.id !in rows {
        ReleaseMutex(c);
        return;
      }
      PayOut(c, txs[keepers[c].batch[0]], phase.id, phase.bt);
    }

    // ---------- mint ----------

    // Both transactions of a mint write this, and no balance.
    method SettleMint(h: Hash, id: nat)
      requires h in txs && txs[h].version == MintV && id in rows
      modifies `rows, `ops
      ensures Abs() == MintSave(old(Abs()), h, id)
    {
      hide CloseBoth, Settle;
      var sourceId := rows[id].sourceId;
      SettleRow(id, txs[h]);
      CloseTransfers(h, sourceId);
    }

    // The checks and the memory transaction; memoryBT is what the search of the cache of claims returned.
    method HandleMintTransfer(t: nat, h: Hash, cfg: Config, memoryBT: Option<Cached>, fails: bool)
      requires t !in mints && h in txs && txs[h].version == MintV
      requires memoryBT.Some? ==> CacheMayAnswer(Abs(), txs[h], cfg, memoryBT.value)
      modifies `rows, `ops, `mints
      ensures Abs() == MintTry(old(Abs()), t, h, cfg, memoryBT, fails)
    {
      hide MintSave, MintCached;
      var transfer := txs[h];
      var callData := transfer.data;
      if callData.protocol == "" || callData.tick == "" || callData.amt == None || !callData.amt.value.Plain? || callData.fc == None {
        UpdateOpStatus(h, INVALID_OP_PARAMS);
        return;
      }
      if callData.op != MintOp {
        return;
      }
      if callData.fc.value !in cfg.byInternalId {
        UpdateOpStatus(h, INCORRECT_FC);
        return;
      }
      if memoryBT.Some? && !fails {
        var id := memoryBT.value.id;
        var oneRow := id in rows && Unsettled(rows[id].status)
          && transfer.timestamp - 120 * 60000 < rows[id].sourceTime < transfer.timestamp + 5 * 60000;
        var twoTransfers := transfer.hash != memoryBT.value.row.sourceId
          && Open(ops, transfer.hash) && Open(ops, memoryBT.value.row.sourceId);
        if oneRow && twoTransfers {
          SettleMint(h, id);
          return;
        }
      }
      mints := mints[t := MintSearch(h, cfg.byInternalId[callData.fc.value])];
    }

    // The search of the second transaction: by target, and only if that finds nothing by what the row asks for.
    method SearchMint(t: nat, byTarget: Option<nat>, byMatch: Option<nat>)
      requires t in mints && mints[t].MintSearch? && mints[t].hash in txs
      requires var transfer := txs[mints[t].hash];
        && Answers(byTarget, NamedRows(Abs(), transfer.chain, transfer))
        && (byTarget.None? ==> Answers(byMatch, AnyRows(Abs(), transfer, mints[t].fromChain)))
      modifies `mints
      ensures Abs() == MintFind(old(Abs()), t, if byTarget.Some? then byTarget else byMatch)
    {
      hide AnyMatch, ByTarget;
      var MintSearch(h, fromChain) := mints[t];
      var btTx := byTarget;
      if btTx == None {
        btTx := byMatch;
      }
      if btTx.Some? {
        mints := mints[t := MintFound(h, btTx.value)];
      } else {
        mints := mints - {t};
      }
    }

    // Its save and commit.
    method CommitMint(t: nat, fails: bool)
      requires t in mints && mints[t].MintFound? && mints[t].hash in txs && txs[mints[t].hash].version == MintV && mints[t].id in rows
      modifies `rows, `ops, `mints
      ensures Abs() == MintFinish(old(Abs()), t, fails)
    {
      hide MintSave;
      var MintFound(h, id) := mints[t];
      mints := mints - {t};
      if !fails {
        SettleMint(h, id);
      }
    }

    // ---------- transfer ----------

    method CheckTransferTransfer(c: Chain)
      requires AtPhase(Abs(), c) && keepers[c].phase.Start? && CurrentTx(Abs(), c).version == TransferV
      modifies `ops, `keepers
      ensures Abs() == TransferCheck(old(Abs()), c)
    {
      var h := keepers[c].batch[0];
      var transfer := txs[h];
      var calldata := transfer.data;
      if transfer.status != 2 {
        NextTransfer(c);
        return;
      }
      if calldata.op != TransferOp || calldata.tick == "" || calldata.protocol == "" || calldata.amt == None
         || !("0x" <= calldata.to) || |calldata.to| != 42 {
        RejectTransfer(c, h, INVALID_OP_PARAMS);
        return;
      }
      var asset := calldata.AssetOf();
      if asset !in deploys || deploys[asset].to != transfer.receiver {
        RejectTransfer(c, h, DEPLOY_RECORD_NOT_FOUND);
        return;
      }
      var source := Account(transfer.sender, c, asset);
      if source !in balances || LessThan(balances[source], calldata.amt.value) {
        RejectTransfer(c, h, NOT_SUFFICIENT_FUNDS);
        return;
      }
      SetPhase(c, TransferReady(source, Account(Lower(calldata.to), c, asset), calldata.amt.value));
    }

    method CommitTransfer(c: Chain, fails: bool)
      requires AtPhase(Abs(), c) && keepers[c].phase.TransferReady?
      modifies `ops, `balances, `keepers
      ensures Abs() == TransferFinish(old(Abs()), c, fails)
    {
      hide SetOp, IncBalance, Rest;
      var h := keepers[c].batch[0];
      var TransferReady(source, target, amount) := keepers[c].phase;
      if !fails && Writable(amount) {
        var value := amount.Number().value;
        IncUserBalance(source, -value);
        IncUserBalance(target, value);
        UpdateOpStatus(h, MATCHED);
      }
      NextTransfer(c);
    }

    // ---------- the event loop ----------

    // The expiry job.
    method DropExpired(i: nat)
      requires i < |cache|
      modifies `cache
      ensures Abs() == DropCached(old(Abs()), i)
    {
      cache := cache[..i] + cache[i + 1..];
    }

    method Restart()
      modifies `cache, `claims, `mints, `keepers
      ensures Abs() == old(Abs()).(cache := [], claims := map[], mints := map[], keepers := map[])
    {
      cache, claims, mints, keepers := [], map[], map[], map[];
    }

    // A piece of a handler that is next to run, with what its queries may answer.
    method Resume(e: Event)
      requires Valid() && Ready(Abs(), e)
      modifies this
      ensures Abs() == Next(old(Abs()), e)
      ensures Valid()
    {
      hide Inv, DeployTransfer, ClaimRead, ClaimCheck, ClaimFinish, MintTry, MintFind, MintFinish, LoadBatch, CrossCheck, CrossFinish,
           CrossOverMatch, MemoryFinish, DbFind, DbFinish, TransferCheck, TransferFinish, DropCached,
           IsRowOf, Waiting, Distinct, CacheMayAnswer;
      match e {
      case Deploys(h, cfg) => HandleDeployTransfer(h, cfg);
      case ClaimReads(t, h, payloadOp) => StartClaimTransfer(t, h, payloadOp);
      case ClaimChecks(t, found, cfg) => BuildClaimRow(t, found, cfg);
      case ClaimFinishes(t, fails) => CommitClaim(t, fails);
      case MintTries(t, h, cfg, cached, fails) => HandleMintTransfer(t, h, cfg, cached, fails);
      case MintFinds(t, pick) =>
        var transfer := txs[mints[t].hash];
        var byTarget := if pick.Some? && NamedBy(rows[pick.value], transfer.chain, transfer) then pick else None;
        SearchMint(t, byTarget, pick);
      case MintFinishes(t, fails) => CommitMint(t, fails);
      case LoadsBatch(c, hs) => LoadTransfers(c, hs);
      case CrossChecks(c, found, cfg) => CheckCrossTransfer(c, found, cfg);
      case CrossFinishes(c, outcome, recent) => CommitCross(c, outcome, recent);
      case CacheDrops(i) => DropExpired(i);
      case CrossOverMatches(c, cfg) => MatchCrossOverTransfer(c, cfg);
      case MemoryFinishes(c, fails) => CommitMemoryMatch(c, fails);
      case DbFinds(c, pick) =>
        var byTarget := if pick.Some? && NamedBy(rows[pick.value], c, txs[keepers[c].batch[0]]) then pick else None;
        SearchDbMatch(c, byTarget, pick);
      case DbFinishes(c, fails) => CommitDbMatch(c, fails);
      case TransferChecks(c) => CheckTransferTransfer(c);
      case TransferFinishes(c, fails) => CommitTransfer(c, fails);
      case PassThrows(c) => ReleaseMutex(c);
      case Restarts => Restart();
      }
      NextKeeps(old(Abs()), e);
    }
  }
}
