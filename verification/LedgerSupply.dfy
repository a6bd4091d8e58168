/**
 Minting: a claim counts once however often it is delivered, and the cap is overshot by no more than what the
 claims past the cap check at one moment can bring.
 */
module LedgerSupply {
  import opened Wrappers
  import opened Ledger
  import opened Tables
  import opened LedgerInvariants
  import opened MapSums
  import JsNumber

  // ---------- minted amounts and counts are those of the claim rows ----------

  ghost predicate ClaimRowOf(r: Row, a: Asset)
  {
    r.version == ClaimV && r.asset == a
  }

  ghost function ClaimIds(rows: Rows, a: Asset): set<nat>
  {
    set id | id in rows && ClaimRowOf(rows[id], a)
  }

  ghost function ClaimTable(rows: Rows, a: Asset): map<nat, real>
  {
    map id | id in rows :: if ClaimRowOf(rows[id], a) then rows[id].targetAmount else 0.0
  }

  ghost predicate CountedOnce(rows: Rows, a: Asset, d: Deploy)
  {
    d.mintedTx == |ClaimIds(rows, a)| && d.minted == Sum(ClaimTable(rows, a)) && d.minted == d.minted.Floor as real
  }

  ghost predicate AllCounted(rows: Rows, deploys: map<Asset, Deploy>)
  {
    forall a :: a in deploys ==> CountedOnce(rows, a, deploys[a])
  }

  // A row written in place of one that says the same of its claim.
  lemma CountsRewritten(rows: Rows, deploys: map<Asset, Deploy>, id: nat, r: Row)
    requires AllCounted(rows, deploys) && id in rows
    requires r.version == rows[id].version && r.asset == rows[id].asset && r.targetAmount == rows[id].targetAmount
    ensures AllCounted(rows[id := r], deploys)
  {
    forall a | a in deploys
      ensures CountedOnce(rows[id := r], a, deploys[a])
    {
      assert CountedOnce(rows, a, deploys[a]);
      SameClaimRows(rows, id, r, a);
    }
  }

  lemma SameClaimRows(rows: Rows, id: nat, r: Row, a: Asset)
    requires id in rows
    requires r.version == rows[id].version && r.asset == rows[id].asset && r.targetAmount == rows[id].targetAmount
    ensures ClaimIds(rows[id := r], a) == ClaimIds(rows, a) && ClaimTable(rows[id := r], a) == ClaimTable(rows, a)
  {
  }

  // A new cross row counts for nothing.
  lemma CountsAfterCross(rows: Rows, deploys: map<Asset, Deploy>, id: nat, r: Row)
    requires AllCounted(rows, deploys) && id !in rows && r.version == CrossV
    ensures AllCounted(rows[id := r], deploys)
  {
    forall a | a in deploys
      ensures CountedOnce(rows[id := r], a, deploys[a])
    {
      assert CountedOnce(rows, a, deploys[a]);
      assert ClaimIds(rows[id := r], a) == ClaimIds(rows, a);
      assert ClaimTable(rows[id := r], a) == ClaimTable(rows, a)[id := 0.0];
      SumUpdate(ClaimTable(rows, a), id, 0.0);
    }
  }

  // A new claim row counts once for its asset.
  lemma CountsAfterClaim(rows: Rows, deploys: map<Asset, Deploy>, id: nat, r: Row)
    requires AllCounted(rows, deploys) && id !in rows && r.version == ClaimV && r.asset in deploys
    requires r.targetAmount == r.targetAmount.Floor as real
    ensures AllCounted(rows[id := r], IncMinted(deploys, r.asset, r.targetAmount))
  {
    var deploys' := IncMinted(deploys, r.asset, r.targetAmount);
    forall a | a in deploys'
      ensures CountedOnce(rows[id := r], a, deploys'[a])
    {
      ClaimCounts(rows, a, deploys[a], id, r);
    }
  }

  lemma ClaimCounts(rows: Rows, a: Asset, d: Deploy, id: nat, r: Row)
    requires CountedOnce(rows, a, d) && id !in rows && r.version == ClaimV && r.targetAmount == r.targetAmount.Floor as real
    ensures CountedOnce(rows[id := r], a, if r.asset == a then d.(minted := d.minted + r.targetAmount, mintedTx := d.mintedTx + 1) else d)
  {
    var v := if r.asset == a then r.targetAmount else 0.0;
    assert ClaimTable(rows[id := r], a) == ClaimTable(rows, a)[id := v];
    SumUpdate(ClaimTable(rows, a), id, v);
    assert ClaimIds(rows[id := r], a) == ClaimIds(rows, a) + (if r.asset == a then {id} else {});
    assert id !in ClaimIds(rows, a);
    FloorAdds(d.minted, r.targetAmount);
  }

  lemma FloorAdds(x: real, y: real)
    requires x == x.Floor as real && y == y.Floor as real
    ensures x + y == (x + y).Floor as real
  {
    assert x + y == (x.Floor + y.Floor) as real;
  }

  lemma NothingClaimedYet(s: State, a: Asset)
    requires Inv(s) && a !in s.deploys
    ensures ClaimIds(s.rows, a) == {} && Sum(ClaimTable(s.rows, a)) == 0.0
  {
    forall id | id in s.rows
      ensures s.rows[id].asset != a
    {
      assert RowFor(s.txs, s.deploys.Keys, s.rows[id]);
    }
    hide Inv;
    SumAtMost(ClaimTable(s.rows, a), {}, 0.0);
    SumAtLeast(ClaimTable(s.rows, a));
  }

  lemma CountsAfterDeploy(s: State, a: Asset, d: Deploy)
    requires Inv(s) && AllCounted(s.rows, s.deploys) && a !in s.deploys && d.minted == 0.0 && d.mintedTx == 0
    ensures AllCounted(s.rows, s.deploys[a := d])
  {
    hide Inv, ClaimIds, ClaimTable;
    NothingClaimedYet(s, a);
  }

  lemma ClaimFinishCounts(s: State, t: nat, fails: bool)
    requires Inv(s) && AllCounted(s.rows, s.deploys)
    ensures AllCounted(ClaimFinish(s, t, fails).rows, ClaimFinish(s, t, fails).deploys)
  {
    hide Inv, AllCounted, SetOp, IncBalance, Duplicate, IncMinted;
    if t in s.claims && s.claims[t].ClaimReady? {
      TaskFact(s, t);
      var row := s.claims[t].row;
      var found := s.claims[t].found;
      if found.Some? {
        if found.value in s.rows {
          SameClaim(s, found.value, row);
          CountsRewritten(s.rows, s.deploys, found.value, row.(status := s.rows[found.value].status, targetId := s.rows[found.value].targetId));
        }
      } else if s.nextId !in s.rows {
        CountsAfterClaim(s.rows, s.deploys, s.nextId, row);
      }
    }
  }

  // Two rows of one transfer say the same of it.
  lemma SameClaim(s: State, id: nat, row: Row)
    requires Inv(s) && RowFor(s.txs, s.deploys.Keys, row) && id in s.rows && s.rows[id].sourceId == row.sourceId
    ensures row.version == s.rows[id].version && row.asset == s.rows[id].asset && row.targetAmount == s.rows[id].targetAmount
  {
    assert RowFor(s.txs, s.deploys.Keys, s.rows[id]);
  }

  lemma DeployCounts(s: State, h: Hash, cfg: Config)
    requires Inv(s) && AllCounted(s.rows, s.deploys)
    ensures AllCounted(DeployTransfer(s, h, cfg).rows, DeployTransfer(s, h, cfg).deploys)
  {
    hide Inv, AllCounted, SetOp;
    if h in s.txs && s.txs[h].data.max.Some? && s.txs[h].data.lim.Some? {
      var d := s.txs[h].data;
      if d.AssetOf() !in s.deploys {
        CountsAfterDeploy(s, d.AssetOf(), Deploy(s.txs[h].receiver, d.max.value, d.lim.value, 0.0, 0));
      }
    }
  }

  lemma MintSaveCounts(s: State, h: Hash, id: nat)
    requires AllCounted(s.rows, s.deploys)
    ensures AllCounted(MintSave(s, h, id).rows, MintSave(s, h, id).deploys)
  {
    hide AllCounted, CloseBoth;
    if h in s.txs && id in s.rows {
      CountsRewritten(s.rows, s.deploys, id, Settle(s.rows[id], s.txs[h]));
    }
  }

  lemma MintTryCounts(s: State, t: nat, h: Hash, cfg: Config, cached: Option<Cached>, fails: bool)
    requires AllCounted(s.rows, s.deploys)
    ensures AllCounted(MintTry(s, t, h, cfg, cached, fails).rows, MintTry(s, t, h, cfg, cached, fails).deploys)
  {
    hide AllCounted, MintTry, MintSave;
    MintTryIs(s, t, h, cfg, cached, fails);
    if cached.Some? { MintSaveCounts(s, h, cached.value.id); }
  }

  lemma MintFinishCounts(s: State, t: nat, fails: bool)
    requires AllCounted(s.rows, s.deploys)
    ensures AllCounted(MintFinish(s, t, fails).rows, MintFinish(s, t, fails).deploys)
  {
    hide AllCounted, MintFinish, MintSave;
    MintFinishIs(s, t, fails);
    if t in s.mints && s.mints[t].MintFound? { MintSaveCounts(MintBase(s, t), s.mints[t].hash, s.mints[t].id); }
  }

  lemma MakerPayCounts(s: State, id: nat, status: int, payment: Option<Hash>)
    requires AllCounted(s.rows, s.deploys)
    ensures AllCounted(MakerPay(s, id, status, payment).rows, MakerPay(s, id, status, payment).deploys)
  {
    hide AllCounted;
    if id in s.rows {
      CountsRewritten(s.rows, s.deploys, id, s.rows[id].(status := status, targetId := payment));
    }
  }

  lemma CrossFinishCounts(s: State, c: Chain, outcome: Outcome, recent: bool)
    requires Inv(s) && AllCounted(s.rows, s.deploys)
    ensures AllCounted(CrossFinish(s, c, outcome, recent).rows, CrossFinish(s, c, outcome, recent).deploys)
  {
    hide Inv, AllCounted, SetOp, IncBalance, Duplicate, AddToCache;
    if AtPhase(s, c) && s.KeeperOf(c).phase.CrossReady? {
      CrossFact(s, c);
      NextIdFree(s);
      CountsAfterCross(s.rows, s.deploys, s.nextId, s.KeeperOf(c).phase.row);
    }
  }

  lemma CreditCounts(s: State, c: Chain, tx: Transfer, id: nat, r: Row)
    requires AllCounted(s.rows, s.deploys) && id in s.rows
    ensures AllCounted(Credit(s, c, tx, id, r).rows, Credit(s, c, tx, id, r).deploys)
  {
    hide AllCounted, CloseBoth, IncBalance;
    CountsRewritten(s.rows, s.deploys, id, Settle(s.rows[id], tx));
  }

  lemma MemoryCounts(s: State, c: Chain, fails: bool)
    requires AllCounted(s.rows, s.deploys)
    ensures AllCounted(MemoryFinish(s, c, fails).rows, MemoryFinish(s, c, fails).deploys)
  {
    hide AllCounted, Credit, MemoryGuards;
    if AtPhase(s, c) && s.KeeperOf(c).phase.MemoryMatched? {
      var e := s.KeeperOf(c).phase.entry;
      if MemoryGuards(s, CurrentTx(s, c), e) {
        GuardedRow(s, c, e);
        CreditCounts(s, c, CurrentTx(s, c), e.id, e.row);
      }
    }
  }

  lemma DbCounts(s: State, c: Chain, fails: bool)
    requires AllCounted(s.rows, s.deploys)
    ensures AllCounted(DbFinish(s, c, fails).rows, DbFinish(s, c, fails).deploys)
  {
    hide AllCounted, Credit;
    if AtPhase(s, c) && s.KeeperOf(c).phase.Found? && s.KeeperOf(c).phase.id in s.rows {
      CreditCounts(s, c, CurrentTx(s, c), s.KeeperOf(c).phase.id, s.KeeperOf(c).phase.bt);
    }
  }

  lemma TransferCounts(s: State, c: Chain, fails: bool)
    requires AllCounted(s.rows, s.deploys)
    ensures AllCounted(TransferFinish(s, c, fails).rows, TransferFinish(s, c, fails).deploys)
  {
    hide AllCounted, SetOp, IncBalance, Writable, Rest;
    WritableNumbers();
  }

  lemma NextCounts(s: State, e: Event)
    requires Inv(s) && AllCounted(s.rows, s.deploys)
    ensures AllCounted(Next(s, e).rows, Next(s, e).deploys)
  {
    hide Inv, AllCounted, Quiet, ClaimRead, ClaimCheck, CrossCheck, CrossOverMatch, DbFind, TransferCheck, LoadBatch,
         DeployTransfer, ClaimFinish, MintTry, MintFind, MintFinish, CrossFinish, MemoryFinish, DbFinish, TransferFinish;
    match e
    case Deploys(h, cfg) => DeployCounts(s, h, cfg);
    case ClaimFinishes(t, fails) => ClaimFinishCounts(s, t, fails);
    case MintTries(t, h, cfg, cached, fails) => MintTryCounts(s, t, h, cfg, cached, fails);
    case MintFinishes(t, fails) => MintFinishCounts(s, t, fails);
    case MakerPays(id, status, payment) => MakerPayCounts(s, id, status, payment);
    case CrossFinishes(c, outcome, recent) => CrossFinishCounts(s, c, outcome, recent);
    case MemoryFinishes(c, fails) => MemoryCounts(s, c, fails);
    case DbFinishes(c, fails) => DbCounts(s, c, fails);
    case TransferFinishes(c, fails) => TransferCounts(s, c, fails);
    case _ => QuietEvent(s, e);
  }

  lemma {:induction false} RunCounts(events: seq<Event>)
    ensures AllCounted(Run(events).rows, Run(events).deploys)
  {
    if events != [] {
      var before := events[..|events| - 1];
      RunCounts(before);
      RunKeeps(before);
      NextCounts(Run(before), events[|events| - 1]);
    }
  }

  /** However often and however concurrently claims are delivered, the minted count of an asset is the number of
      its claim rows, the minted amount is the sum of their amounts, and no transfer has two rows. */
  lemma {:induction false} ClaimsCountOnce(events: seq<Event>, a: Asset)
    requires a in Run(events).deploys
    ensures var s := Run(events);
      && s.deploys[a].mintedTx == |ClaimIds(s.rows, a)|
      && s.deploys[a].minted == Sum(ClaimTable(s.rows, a))
      && forall i, j :: i in s.rows && j in s.rows && s.rows[i].sourceId == s.rows[j].sourceId ==> i == j
  {
    RunCounts(events);
    RunKeeps(events);
    var s := Run(events);
    assert CountedOnce(s.rows, a, s.deploys[a]);
  }

  // ---------- the cap ----------

  // No amount above `most` passes the comparison with the limit.
  ghost predicate Accepts(limit: nat, most: nat)
  {
    forall n: nat :: !JsNumber.Greater(n, limit) ==> n <= most
  }

  ghost predicate Acceptable(v: real, limit: nat)
  {
    v >= 1.0 && v == v.Floor as real && !OverLimit(v, limit)
  }

  // What a claim in progress may still add to its asset's minted amount.
  ghost function TaskAsset(txs: Transfers, task: ClaimTask): Option<Asset>
  {
    if task.hash in txs then Some(txs[task.hash].data.AssetOf()) else None
  }

  ghost function Expected(txs: Transfers, task: ClaimTask): real
  {
    if task.hash !in txs then 0.0 else
      match task
      case ReadDeploy(h, _, d) =>
        var amt := txs[h].data.amt;
        if amt.Some? && amt.value.Number().Some? && !CapReached(d) && Acceptable(amt.value.Number().value, d.limit)
        then amt.value.Number().value else 0.0
      case ClaimReady(_, _, found, row) => if found.None? then row.targetAmount else 0.0
  }

  ghost function PendingTable(txs: Transfers, claims: map<nat, ClaimTask>, a: Asset): map<nat, real>
  {
    map t | t in claims :: if TaskAsset(txs, claims[t]) == Some(a) then Expected(txs, claims[t]) else 0.0
  }

  // The claims of an asset that have read its deploy record and not finished.
  ghost function PastCheck(s: State, a: Asset): set<nat>
  {
    set t | t in s.claims && TaskAsset(s.txs, s.claims[t]) == Some(a)
  }

  ghost function Pending(s: State, a: Asset): real
  {
    Sum(PendingTable(s.txs, s.claims, a))
  }

  // A claim in progress works with the terms its asset was deployed under.
  ghost predicate DealOk(txs: Transfers, deploys: map<Asset, Deploy>, task: ClaimTask)
  {
    && task.hash in txs && txs[task.hash].data.AssetOf() in deploys
    && var now := deploys[txs[task.hash].data.AssetOf()];
    && (task.ReadDeploy? ==> task.deploy.limit == now.limit && task.deploy.max == now.max)
    && (task.ClaimReady? ==> Acceptable(task.row.targetAmount, now.limit) && task.row.asset == txs[task.hash].data.AssetOf())
  }

  ghost predicate AllDeals(txs: Transfers, deploys: map<Asset, Deploy>, claims: map<nat, ClaimTask>)
  {
    && (forall t :: t in claims ==> DealOk(txs, deploys, claims[t]))
    && (forall a :: a in deploys ==> deploys[a].max >= 1)
  }

  ghost predicate DealsOk(s: State)
  {
    AllDeals(s.txs, s.deploys, s.claims)
  }

  ghost predicate WithinCap(s: State, a: Asset, k: nat, most: nat)
  {
    a in s.deploys && Accepts(s.deploys[a].limit, most) ==>
      s.deploys[a].minted + Pending(s, a) <= s.deploys[a].max as real - 1.0 + Times(k, most as real)
  }

  // A claim in progress can bring no more than what the limit lets through.
  lemma ExpectedBounds(s: State, t: nat, a: Asset, most: nat)
    requires Inv(s) && DealsOk(s) && t in s.claims && TaskAsset(s.txs, s.claims[t]) == Some(a)
    requires a in s.deploys && Accepts(s.deploys[a].limit, most)
    ensures 0.0 <= Expected(s.txs, s.claims[t]) <= most as real
  {
    hide Inv, JsNumber.Greater;
    var task := s.claims[t];
    assert DealOk(s.txs, s.deploys, task);
    var v := Expected(s.txs, task);
    if v != 0.0 {
      assert Acceptable(v, s.deploys[a].limit);
      assert !JsNumber.Greater(v.Floor, s.deploys[a].limit);
    }
  }

  lemma PendingAtMost(s: State, a: Asset, most: nat)
    requires Inv(s) && DealsOk(s) && a in s.deploys && Accepts(s.deploys[a].limit, most)
    ensures 0.0 <= Pending(s, a) <= Times(|PastCheck(s, a)|, most as real)
  {
    forall t | t in s.claims && TaskAsset(s.txs, s.claims[t]) == Some(a)
      ensures 0.0 <= Expected(s.txs, s.claims[t]) <= most as real
    {
      ExpectedBounds(s, t, a, most);
    }
    hide Inv, DealsOk, Expected, Accepts, TaskAsset;
    SumAtMost(PendingTable(s.txs, s.claims, a), PastCheck(s, a), most as real);
    SumAtLeast(PendingTable(s.txs, s.claims, a));
  }

  // One claim enters, changes or leaves.
  lemma PendingMoves(txs: Transfers, claims: map<nat, ClaimTask>, t: nat, task: ClaimTask, a: Asset)
    ensures Sum(PendingTable(txs, claims[t := task], a))
         == Sum(PendingTable(txs, claims, a)) + ExpectedFor(txs, task, a) - (if t in claims then ExpectedFor(txs, claims[t], a) else 0.0)
  {
    hide Expected, TaskAsset;
    var v := ExpectedFor(txs, task, a);
    assert PendingTable(txs, claims[t := task], a) == PendingTable(txs, claims, a)[t := v];
    SumUpdate(PendingTable(txs, claims, a), t, v);
  }

  lemma PendingLeaves(txs: Transfers, claims: map<nat, ClaimTask>, t: nat, a: Asset)
    requires t in claims
    ensures Sum(PendingTable(txs, claims - {t}, a)) == Sum(PendingTable(txs, claims, a)) - ExpectedFor(txs, claims[t], a)
  {
    hide Expected, TaskAsset;
    assert PendingTable(txs, claims - {t}, a) == PendingTable(txs, claims, a) - {t};
    SumRemove(PendingTable(txs, claims, a), t);
  }

  ghost function ExpectedFor(txs: Transfers, task: ClaimTask, a: Asset): real
  {
    if TaskAsset(txs, task) == Some(a) then Expected(txs, task) else 0.0
  }

  // Minted and expected amounts together did not grow, and the terms are the same.
  lemma CapStays(s: State, n: State, a: Asset, k: nat, most: nat)
    requires WithinCap(s, a, k, most) && (a in n.deploys ==> a in s.deploys)
    requires a in n.deploys ==> n.deploys[a].limit == s.deploys[a].limit && n.deploys[a].max == s.deploys[a].max
    requires a in n.deploys ==> n.deploys[a].minted + Pending(n, a) <= s.deploys[a].minted + Pending(s, a)
    ensures WithinCap(n, a, k, most)
  {
    hide Accepts, Pending;
  }

  // The claims of an asset past the cap check when the cap was not reached.
  lemma CapHolds(n: State, a: Asset, k: nat, most: nat)
    requires Inv(n) && DealsOk(n) && a in n.deploys && Accepts(n.deploys[a].limit, most)
    requires CountedOnce(n.rows, a, n.deploys[a]) && !CapReached(n.deploys[a]) && |PastCheck(n, a)| <= k
    ensures WithinCap(n, a, k, most)
  {
    hide Inv, DealsOk, Accepts;
    PendingAtMost(n, a, most);
    TimesMonotone(|PastCheck(n, a)|, k, most as real);
    assert n.deploys[a].minted.Floor <= n.deploys[a].max - 1;
  }

  lemma DealsPut(s: State, t: nat, task: ClaimTask)
    requires DealsOk(s) && DealOk(s.txs, s.deploys, task)
    ensures AllDeals(s.txs, s.deploys, s.claims[t := task])
  {
    hide DealOk;
  }

  lemma DealsDrop(s: State, t: nat)
    requires DealsOk(s)
    ensures AllDeals(s.txs, s.deploys, s.claims - {t})
  {
    hide DealOk;
  }

  // A claim starts on the deploy record as it is now: either it can add nothing, or the cap is not reached now.
  lemma StartedCap(s: State, n: State, t: nat, h: Hash, payloadOp: int, a: Asset, k: nat, most: nat)
    requires Inv(s) && AllCounted(s.rows, s.deploys) && CapOk(s, a, k, most) && t !in s.claims
    requires h in s.txs && s.txs[h].data.AssetOf() in s.deploys
    requires n == s.(claims := s.claims[t := ReadDeploy(h, payloadOp, s.deploys[s.txs[h].data.AssetOf()])])
    requires Inv(n) && |PastCheck(n, a)| <= k
    ensures CapOk(n, a, k, most)
  {
    DealsPut(s, t, n.claims[t]);
    PendingMoves(s.txs, s.claims, t, n.claims[t], a);
    hide Inv, Accepts, Acceptable, AllDeals, PendingTable, PastCheck;
    if ExpectedFor(s.txs, n.claims[t], a) == 0.0 {
      CapStays(s, n, a, k, most);
    } else if Accepts(n.deploys[a].limit, most) {
      assert CountedOnce(s.rows, a, s.deploys[a]);
      CapHolds(n, a, k, most);
    }
  }

  // The invariant of the cap: its bound, and the terms of the claims in progress.
  ghost predicate CapOk(s: State, a: Asset, k: nat, most: nat)
  {
    DealsOk(s) && WithinCap(s, a, k, most)
  }

  lemma UnmovedCap(s: State, n: State, a: Asset, k: nat, most: nat)
    requires CapOk(s, a, k, most) && SameClaims(s, n)
    ensures CapOk(n, a, k, most)
  {
    hide AllDeals, PendingTable, Accepts;
  }

  lemma OpsCap(s: State, ops: Statuses, a: Asset, k: nat, most: nat)
    requires CapOk(s, a, k, most)
    ensures CapOk(s.(ops := ops), a, k, most)
  {
    UnmovedCap(s, s.(ops := ops), a, k, most);
  }

  lemma ClaimReadCap(s: State, t: nat, h: Hash, payloadOp: int, a: Asset, k: nat, most: nat)
    requires Inv(s) && AllCounted(s.rows, s.deploys) && CapOk(s, a, k, most)
    requires Inv(ClaimRead(s, t, h, payloadOp)) && |PastCheck(ClaimRead(s, t, h, payloadOp), a)| <= k
    ensures CapOk(ClaimRead(s, t, h, payloadOp), a, k, most)
  {
    hide Inv, CapOk, AllCounted, SetOp, PastCheck, ClaimWellFormed;
    OpsCap(s, SetOp(s.ops, h, INVALID_OP_PARAMS), a, k, most);
    OpsCap(s, SetOp(s.ops, h, INVALID_OP), a, k, most);
    OpsCap(s, SetOp(s.ops, h, DEPLOY_RECORD_NOT_FOUND), a, k, most);
    if t !in s.claims && h in s.txs && s.txs[h].version == ClaimV && s.txs[h].status == 2
       && ClaimWellFormed(s.txs[h].data) && s.txs[h].data.op == ClaimOp
       && s.txs[h].data.AssetOf() in s.deploys && s.deploys[s.txs[h].data.AssetOf()].to == s.txs[h].receiver {
      StartedCap(s, ClaimRead(s, t, h, payloadOp), t, h, payloadOp, a, k, most);
    }
  }

  // A claim that passes the checks carries the amount it was expected to.
  lemma BuiltAsExpected(txs: Transfers, task: ClaimTask, found: Option<nat>, cfg: Config, a: Asset)
    requires task.ReadDeploy? && task.hash in txs && txs[task.hash].hash == task.hash && Build(txs[task.hash], task.deploy, cfg).Ok?
    ensures var row := Build(txs[task.hash], task.deploy, cfg).value;
      && Acceptable(row.targetAmount, task.deploy.limit) && row.asset == txs[task.hash].data.AssetOf()
      && ExpectedFor(txs, ClaimReady(task.hash, task.payloadOp, found, row), a) <= ExpectedFor(txs, task, a)
  {
    hide JsNumber.Greater;
  }

  lemma ExpectedNonNegative(s: State, t: nat, a: Asset)
    requires Inv(s) && t in s.claims
    ensures ExpectedFor(s.txs, s.claims[t], a) >= 0.0
  {
    TaskFact(s, t);
  }

  lemma DroppedCap(s: State, t: nat, a: Asset, k: nat, most: nat)
    requires Inv(s) && CapOk(s, a, k, most) && t in s.claims
    ensures CapOk(WithoutClaim(s, t), a, k, most)
  {
    ExpectedNonNegative(s, t, a);
    PendingLeaves(s.txs, s.claims, t, a);
    DealsDrop(s, t);
    hide Inv, WithinCap, PendingTable, AllDeals;
    CapStays(s, WithoutClaim(s, t), a, k, most);
  }

  lemma CheckedCap(s: State, n: State, t: nat, found: Option<nat>, cfg: Config, a: Asset, k: nat, most: nat)
    requires Inv(s) && CapOk(s, a, k, most) && t in s.claims && s.claims[t].ReadDeploy? && s.claims[t].hash in s.txs
    requires Build(s.txs[s.claims[t].hash], s.claims[t].deploy, cfg).Ok?
    requires n == s.(claims := s.claims[t := ClaimReady(s.claims[t].hash, s.claims[t].payloadOp, found, Build(s.txs[s.claims[t].hash], s.claims[t].deploy, cfg).value)])
    ensures CapOk(n, a, k, most)
  {
    var task := s.claims[t];
    TaskFact(s, t);
    assert DealOk(s.txs, s.deploys, task);
    BuiltAsExpected(s.txs, task, found, cfg, a);
    PendingMoves(s.txs, s.claims, t, n.claims[t], a);
    hide Inv, WithinCap, PendingTable, AllDeals, Build, Acceptable, ExpectedFor;
    DealsPut(s, t, n.claims[t]);
    CapStays(s, n, a, k, most);
  }

  lemma ClaimCheckCap(s: State, t: nat, found: Option<nat>, cfg: Config, a: Asset, k: nat, most: nat)
    requires Inv(s) && CapOk(s, a, k, most)
    ensures CapOk(ClaimCheck(s, t, found, cfg), a, k, most)
  {
    hide Inv, CapOk, SetOp, Build, IsRowOf, WithoutClaim;
    if t in s.claims && s.claims[t].ReadDeploy? && s.claims[t].hash in s.txs {
      var task := s.claims[t];
      DroppedCap(s, t, a, k, most);
      match Build(s.txs[task.hash], task.deploy, cfg)
      case Err(code) =>
        OpsCap(WithoutClaim(s, t), SetOp(s.ops, task.hash, code), a, k, most);
      case Ok(row) =>
        CheckedCap(s, s.(claims := s.claims[t := ClaimReady(task.hash, task.payloadOp, found, row)]), t, found, cfg, a, k, most);
    }
  }

  lemma CommittedCap(s: State, n: State, t: nat, a: Asset, k: nat, most: nat)
    requires Inv(s) && CapOk(s, a, k, most) && t in s.claims && s.claims[t].ClaimReady? && s.claims[t].found.None?
    requires n == WithoutClaim(s, t).(deploys := IncMinted(s.deploys, s.claims[t].row.asset, s.claims[t].row.targetAmount))
    ensures CapOk(n, a, k, most)
  {
    var task := s.claims[t];
    TaskFact(s, t);
    assert DealOk(s.txs, s.deploys, task);
    PendingLeaves(s.txs, s.claims, t, a);
    DealsAfterMint(s, n, t);
    hide Inv, WithinCap, PendingTable, AllDeals;
    CapStays(s, n, a, k, most);
  }

  lemma DealsAfterMint(s: State, n: State, t: nat)
    requires DealsOk(s) && t in s.claims && s.claims[t].ClaimReady?
    requires n.claims == s.claims - {t} && n.deploys == IncMinted(s.deploys, s.claims[t].row.asset, s.claims[t].row.targetAmount) && n.txs == s.txs
    ensures DealsOk(n)
  {
    forall u | u in n.claims
      ensures DealOk(n.txs, n.deploys, n.claims[u])
    {
      assert DealOk(s.txs, s.deploys, s.claims[u]);
    }
  }

  lemma ClaimFinishCap(s: State, t: nat, fails: bool, a: Asset, k: nat, most: nat)
    requires Inv(s) && CapOk(s, a, k, most)
    ensures CapOk(ClaimFinish(s, t, fails), a, k, most)
  {
    hide Inv, CapOk, SameClaims;
    if t in s.claims && s.claims[t].ClaimReady? {
      var n := ClaimFinish(s, t, fails);
      var base := WithoutClaim(s, t);
      FinishedClaim(s, t, fails);
      DroppedCap(s, t, a, k, most);
      if Inserts(s, t, fails) {
        var m := base.(deploys := IncMinted(s.deploys, s.claims[t].row.asset, s.claims[t].row.targetAmount));
        CommittedCap(s, m, t, a, k, most);
        UnmovedCap(m, n, a, k, most);
      } else {
        UnmovedCap(base, n, a, k, most);
      }
    }
  }

  predicate Inserts(s: State, t: nat, fails: bool)
    requires t in s.claims && s.claims[t].ClaimReady?
  {
    s.claims[t].found.None? && !fails && !Duplicate(s.rows, s.claims[t].row) && s.nextId !in s.rows
  }

  // A claim that ends leaves the claims in progress, and adds to the minted amount if it inserts its row.
  lemma FinishedClaim(s: State, t: nat, fails: bool)
    requires t in s.claims && s.claims[t].ClaimReady?
    ensures var base := WithoutClaim(s, t);
            SameClaims(if Inserts(s, t, fails)
                       then base.(deploys := IncMinted(s.deploys, s.claims[t].row.asset, s.claims[t].row.targetAmount))
                       else base, ClaimFinish(s, t, fails))
  {
    hide IncMinted, IncBalance, SetOp, Duplicate;
  }

  lemma ArriveCap(s: State, tx: Transfer, opStatus: int, a: Asset, k: nat, most: nat)
    requires CapOk(s, a, k, most)
    ensures CapOk(Arrive(s, tx, opStatus), a, k, most)
  {
    if tx.hash !in s.txs {
      var n := Arrive(s, tx, opStatus);
      DealsAfterArrival(s, tx);
      hide Accepts, Acceptable, AllDeals, PendingTable;
      assert Pending(n, a) == Pending(s, a);
    }
  }

  lemma DealsAfterArrival(s: State, tx: Transfer)
    requires DealsOk(s) && tx.hash !in s.txs
    ensures AllDeals(s.txs[tx.hash := tx], s.deploys, s.claims)
    ensures forall a :: PendingTable(s.txs[tx.hash := tx], s.claims, a) == PendingTable(s.txs, s.claims, a)
  {
    hide Acceptable, CapReached;
    forall t | t in s.claims
      ensures s.claims[t].hash in s.txs && DealOk(s.txs[tx.hash := tx], s.deploys, s.claims[t])
    {
      assert DealOk(s.txs, s.deploys, s.claims[t]);
    }
  }

  lemma AddedCap(s: State, n: State, b: Asset, d: Deploy, a: Asset, k: nat, most: nat)
    requires CapOk(s, a, k, most) && b !in s.deploys && d.max >= 1 && d.minted == 0.0
    requires n == s.(deploys := s.deploys[b := d])
    ensures CapOk(n, a, k, most)
  {
    forall t | t in s.claims
      ensures TaskAsset(s.txs, s.claims[t]) != Some(b) && DealOk(n.txs, n.deploys, n.claims[t])
    {
      assert DealOk(s.txs, s.deploys, s.claims[t]);
    }
    hide DealOk, Accepts, Expected, TaskAsset;
    if a == b {
      SumAtMost(PendingTable(s.txs, s.claims, a), {}, 0.0);
      TimesMonotone(0, k, most as real);
    }
  }

  lemma DeployCap(s: State, h: Hash, cfg: Config, a: Asset, k: nat, most: nat)
    requires CapOk(s, a, k, most)
    ensures CapOk(DeployTransfer(s, h, cfg), a, k, most)
  {
    hide CapOk, SetOp;
    OpsCap(s, SetOp(s.ops, h, INVALID_OP_PARAMS), a, k, most);
    OpsCap(s, SetOp(s.ops, h, INVALID_DEPLOY_MAKER), a, k, most);
    if h in s.txs && DeployWellFormed(s.txs[h].data) && s.txs[h].data.AssetOf() !in s.deploys {
      var d := s.txs[h].data;
      var deploy := Deploy(s.txs[h].receiver, d.max.value, d.lim.value, 0.0, 0);
      AddedCap(s, s.(deploys := s.deploys[d.AssetOf() := deploy]), d.AssetOf(), deploy, a, k, most);
      OpsCap(s.(deploys := s.deploys[d.AssetOf() := deploy]), SetOp(s.ops, h, MATCHED), a, k, most);
    }
  }

  lemma RestartCap(s: State, a: Asset, k: nat, most: nat)
    requires Inv(s) && CapOk(s, a, k, most)
    ensures CapOk(s.(cache := [], claims := map[], mints := map[], keepers := map[]), a, k, most)
  {
    hide Inv;
    if a in s.deploys && Accepts(s.deploys[a].limit, most) {
      PendingAtMost(s, a, most);
      assert PendingTable(s.txs, map[], a) == map[];
    }
  }

  lemma NextCap(s: State, e: Event, a: Asset, k: nat, most: nat)
    requires Inv(s) && AllCounted(s.rows, s.deploys) && CapOk(s, a, k, most)
    requires |PastCheck(Next(s, e), a)| <= k
    ensures CapOk(Next(s, e), a, k, most)
  {
    hide Inv, CapOk, AllCounted, Arrive, ClaimRead, ClaimCheck, CrossCheck, CrossOverMatch, DbFind, TransferCheck, LoadBatch,
         DeployTransfer, ClaimFinish, MintTry, MintFind, MintFinish, CrossFinish, MemoryFinish, DbFinish, TransferFinish, PastCheck, SameClaims;
    NextKeeps(s, e);
    match e
    case Arrives(tx, opStatus) => ArriveCap(s, tx, opStatus, a, k, most);
    case Deploys(h, cfg) => DeployCap(s, h, cfg, a, k, most);
    case ClaimReads(t, h, payloadOp) => ClaimReadCap(s, t, h, payloadOp, a, k, most);
    case ClaimChecks(t, found, cfg) => ClaimCheckCap(s, t, found, cfg, a, k, most);
    case ClaimFinishes(t, fails) => ClaimFinishCap(s, t, fails, a, k, most);
    case Restarts => RestartCap(s, a, k, most);
    case _ => ClaimsUntouched(s, e); UnmovedCap(s, Next(s, e), a, k, most);
  }

  // At no point of the run were more than k claims of the asset past the read of their deploy record.
  ghost predicate AtMostAtOnce(events: seq<Event>, a: Asset, k: nat)
  {
    forall i :: 0 <= i <= |events| ==> |PastCheck(Run(events[..i]), a)| <= k
  }

  lemma {:induction false} RunCap(events: seq<Event>, a: Asset, k: nat, most: nat)
    requires AtMostAtOnce(events, a, k)
    ensures CapOk(Run(events), a, k, most)
  {
    if events != [] {
      var before := events[..|events| - 1];
      assert forall i :: 0 <= i <= |before| ==> before[..i] == events[..i];
      RunCap(before, a, k, most);
      RunKeeps(before);
      RunCounts(before);
      assert events[..|events|] == events;
      hide Inv, CapOk, AllCounted, Next, PastCheck;
      NextCap(Run(before), events[|events| - 1], a, k, most);
    }
  }

  /** With at most k claims of an asset past the cap check at once, minted plus still expected amounts stay below
      max + k times the largest amount the limit lets through. */
  lemma {:induction false} SupplyBound(events: seq<Event>, a: Asset, k: nat, most: nat)
    requires AtMostAtOnce(events, a, k) && a in Run(events).deploys && Accepts(Run(events).deploys[a].limit, most)
    ensures var s := Run(events); s.deploys[a].minted + Pending(s, a) <= (s.deploys[a].max - 1 + k * most) as real
  {
    hide Accepts, DealsOk, AtMostAtOnce, Run, Pending;
    RunCap(events, a, k, most);
    TimesIs(k, most);
    AsReal(Run(events).deploys[a].max, k * most);
  }

  lemma AsReal(max: nat, more: nat)
    ensures max as real - 1.0 + more as real == (max - 1 + more) as real
  {
  }

  // The limit and its successor are different doubles: see JsNumber.GreaterExactIff.
  predicate ComparedExactly(limit: nat)
  {
    JsNumber.Greater(limit + 1, limit)
  }

  lemma ExactLimit(limit: nat)
    requires ComparedExactly(limit)
    ensures Accepts(limit, limit)
  {
    JsNumber.GreaterExactIff(limit);
    hide JsNumber.Greater;
  }

  /** Claims handled one at a time overshoot the cap by less than one limit, when the limit is compared exactly. */
  lemma SerialSupplyBound(events: seq<Event>, a: Asset)
    requires AtMostAtOnce(events, a, 1) && a in Run(events).deploys && ComparedExactly(Run(events).deploys[a].limit)
    ensures Run(events).deploys[a].minted < Run(events).deploys[a].max as real + Run(events).deploys[a].limit as real
  {
    hide *;
    var limit := Run(events).deploys[a].limit;
    ExactLimit(limit);
    SupplyBound(events, a, 1, limit);
    PendingNonNegative(events, a, limit);
    OneTime(Run(events).deploys[a].max, limit);
  }

  lemma OneTime(max: nat, limit: nat)
    ensures (max - 1 + 1 * limit) as real < max as real + limit as real
  {
  }

  lemma PendingNonNegative(events: seq<Event>, a: Asset, most: nat)
    requires AtMostAtOnce(events, a, 1) && a in Run(events).deploys && Accepts(Run(events).deploys[a].limit, most)
    ensures Pending(Run(events), a) >= 0.0
  {
    hide Inv, JsNumber.Greater, Accepts, DealsOk, AtMostAtOnce, Run, Pending, PastCheck;
    RunCap(events, a, 1, most);
    RunKeeps(events);
    PendingAtMost(Run(events), a, most);
  }
}
