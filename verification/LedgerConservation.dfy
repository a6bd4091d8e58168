/**
 Conservation: what users hold plus what is in flight between chains is what was minted. It holds over every
 run for the ledger as a whole, and for one protocol and tick exactly as long as every crossover names the
 protocol and tick of the row it pays out.
 */
module LedgerConservation {
  import opened Wrappers
  import opened Ledger
  import opened Tables
  import opened LedgerInvariants
  import opened MapSums

  // ---------- the three sums, over all assets or over one ----------

  predicate InScope(scope: Option<Asset>, a: Asset)
  {
    scope.None? || scope.value == a
  }

  ghost function BalanceTable(balances: Balances, scope: Option<Asset>): map<Account, real>
  {
    map k | k in balances :: if InScope(scope, k.asset) then balances[k] else 0.0
  }

  // A cross row is in flight until a crossover credits it.
  ghost function FlightOf(r: Row, credited: nat, scope: Option<Asset>): real
  {
    if r.version == CrossV && credited == 0 && InScope(scope, r.asset) then r.targetAmount else 0.0
  }

  ghost function FlightTable(rows: Rows, credits: multiset<nat>, scope: Option<Asset>): map<nat, real>
  {
    map id | id in rows :: FlightOf(rows[id], credits[id], scope)
  }

  ghost function MintedTable(deploys: map<Asset, Deploy>, scope: Option<Asset>): map<Asset, real>
  {
    map a | a in deploys :: if InScope(scope, a) then deploys[a].minted else 0.0
  }

  ghost function Held(s: State, scope: Option<Asset>): real
  {
    Sum(BalanceTable(s.balances, scope))
  }

  ghost function InFlight(s: State, scope: Option<Asset>): real
  {
    Sum(FlightTable(s.rows, s.credits, scope))
  }

  ghost function Minted(s: State, scope: Option<Asset>): real
  {
    Sum(MintedTable(s.deploys, scope))
  }

  // By how much the books are out.
  ghost function Drift(s: State, scope: Option<Asset>): real
  {
    Held(s, scope) + InFlight(s, scope) - Minted(s, scope)
  }

  // ---------- how each sum moves ----------

  function Scoped(scope: Option<Asset>, a: Asset, v: real): real
  {
    if InScope(scope, a) then v else 0.0
  }

  lemma HeldMoves(balances: Balances, account: Account, v: real, scope: Option<Asset>)
    ensures Sum(BalanceTable(IncBalance(balances, account, v), scope)) == Sum(BalanceTable(balances, scope)) + Scoped(scope, account.asset, v)
  {
    var b := IncBalance(balances, account, v);
    assert BalanceTable(b, scope) == BalanceTable(balances, scope)[account := BalanceTable(b, scope)[account]];
    SumUpdate(BalanceTable(balances, scope), account, BalanceTable(b, scope)[account]);
  }

  lemma FlightMoves(rows: Rows, credits: multiset<nat>, id: nat, r: Row, credits': multiset<nat>, scope: Option<Asset>)
    requires forall i :: i != id ==> credits'[i] == credits[i]
    ensures Sum(FlightTable(rows[id := r], credits', scope))
         == Sum(FlightTable(rows, credits, scope)) + FlightOf(r, credits'[id], scope)
            - (if id in rows then FlightOf(rows[id], credits[id], scope) else 0.0)
  {
    assert FlightTable(rows[id := r], credits', scope) == FlightTable(rows, credits, scope)[id := FlightOf(r, credits'[id], scope)];
    SumUpdate(FlightTable(rows, credits, scope), id, FlightOf(r, credits'[id], scope));
  }

  lemma MintedMoves(deploys: map<Asset, Deploy>, a: Asset, d: Deploy, scope: Option<Asset>)
    ensures Sum(MintedTable(deploys[a := d], scope))
         == Sum(MintedTable(deploys, scope)) + Scoped(scope, a, d.minted) - (if a in deploys then Scoped(scope, a, deploys[a].minted) else 0.0)
  {
    var v := if InScope(scope, a) then d.minted else 0.0;
    assert MintedTable(deploys[a := d], scope) == MintedTable(deploys, scope)[a := v];
    SumUpdate(MintedTable(deploys, scope), a, v);
  }

  // ---------- the one event that can put the books of an asset out ----------

  datatype Payment = Payment(paid: Asset, owed: Asset, amount: real)

  // The credit an event makes, if it makes one: under which asset, and for a row of which.
  function CreditMade(s: State, e: Event): Option<Payment>
  {
    match e
    case MemoryFinishes(c, fails) =>
      if AtPhase(s, c) && s.KeeperOf(c).phase.MemoryMatched? && !fails && MemoryGuards(s, CurrentTx(s, c), s.KeeperOf(c).phase.entry)
      then Some(Payment(CurrentTx(s, c).data.AssetOf(), s.KeeperOf(c).phase.entry.row.asset, s.KeeperOf(c).phase.entry.row.targetAmount))
      else None
    case DbFinishes(c, fails) =>
      if AtPhase(s, c) && s.KeeperOf(c).phase.Found? && !fails && s.KeeperOf(c).phase.id in s.rows
      then Some(Payment(CurrentTx(s, c).data.AssetOf(), s.KeeperOf(c).phase.bt.asset, s.KeeperOf(c).phase.bt.targetAmount))
      else None
    case _ => None
  }

  function Misdirected(p: Option<Payment>, scope: Option<Asset>): real
  {
    if p.None? then 0.0 else Scoped(scope, p.value.paid, p.value.amount) - Scoped(scope, p.value.owed, p.value.amount)
  }

  lemma SameDrift(s: State, n: State, scope: Option<Asset>)
    requires SameBooks(s, n)
    ensures Drift(n, scope) == Drift(s, scope)
  {
  }

  lemma OpsDrift(s: State, ops: Statuses, scope: Option<Asset>)
    ensures Drift(s.(ops := ops), scope) == Drift(s, scope)
  {
  }

  lemma AssetDrift(s: State, a: Asset, d: Deploy, ops: Statuses, scope: Option<Asset>)
    requires a !in s.deploys && d.minted == 0.0
    ensures Drift(s.(deploys := s.deploys[a := d], ops := ops), scope) == Drift(s, scope)
  {
    hide Sum, BalanceTable, FlightTable, MintedTable, InScope;
    MintedMoves(s.deploys, a, d, scope);
  }

  lemma DeployDrift(s: State, h: Hash, cfg: Config, scope: Option<Asset>)
    ensures Drift(DeployTransfer(s, h, cfg), scope) == Drift(s, scope)
  {
    hide Drift, SetOp;
    OpsDrift(s, SetOp(s.ops, h, INVALID_OP_PARAMS), scope);
    OpsDrift(s, SetOp(s.ops, h, INVALID_DEPLOY_MAKER), scope);
    if h in s.txs && DeployWellFormed(s.txs[h].data) && s.txs[h].data.AssetOf() !in s.deploys {
      var d := s.txs[h].data;
      AssetDrift(s, d.AssetOf(), Deploy(s.txs[h].receiver, d.max.value, d.lim.value, 0.0, 0), SetOp(s.ops, h, MATCHED), scope);
    }
  }

  lemma ClaimFinishDrift(s: State, t: nat, fails: bool, scope: Option<Asset>)
    requires Inv(s)
    ensures Drift(ClaimFinish(s, t, fails), scope) == Drift(s, scope)
  {
    hide Inv, RowFor, Sum, BalanceTable, FlightTable, MintedTable, SetOp, Duplicate, IncMinted, IncBalance, InScope;
    if t in s.claims && s.claims[t].ClaimReady? {
      TaskFact(s, t);
      var row := s.claims[t].row;
      var found := s.claims[t].found;
      ClaimVersion(s, row);
      if found.Some? {
        if found.value in s.rows {
          var r := row.(status := s.rows[found.value].status, targetId := s.rows[found.value].targetId);
          FoundVersion(s, found.value, row);
          FlightMoves(s.rows, s.credits, found.value, r, s.credits, scope);
        }
      } else if s.nextId !in s.rows {
        FlightMoves(s.rows, s.credits, s.nextId, row, s.credits, scope);
        HeldMoves(s.balances, Account(row.sourceAddress, row.targetChain, row.asset), row.targetAmount, scope);
        IncMintedMoves(s.deploys, row.asset, row.targetAmount, scope);
      }
    }
  }

  lemma IncMintedMoves(deploys: map<Asset, Deploy>, a: Asset, v: real, scope: Option<Asset>)
    requires a in deploys
    ensures Sum(MintedTable(IncMinted(deploys, a, v), scope)) == Sum(MintedTable(deploys, scope)) + Scoped(scope, a, v)
  {
    MintedMoves(deploys, a, IncMinted(deploys, a, v)[a], scope);
  }

  lemma ClaimVersion(s: State, row: Row)
    requires RowFor(s.txs, s.deploys.Keys, row) && row.sourceId in s.txs && s.txs[row.sourceId].version == ClaimV
    ensures row.version == ClaimV && row.asset in s.deploys
  {
  }

  lemma FoundVersion(s: State, id: nat, row: Row)
    requires Inv(s) && id in s.rows && s.rows[id].sourceId == row.sourceId && RowFor(s.txs, s.deploys.Keys, row)
    ensures s.rows[id].version == row.version
  {
    RowVersions(s);
  }

  lemma MintSaveDrift(s: State, h: Hash, id: nat, scope: Option<Asset>)
    ensures Drift(MintSave(s, h, id), scope) == Drift(s, scope)
  {
    hide Sum, BalanceTable, FlightTable, MintedTable, CloseBoth;
    if h in s.txs && s.txs[h].version == MintV && id in s.rows {
      FlightMoves(s.rows, s.credits, id, Settle(s.rows[id], s.txs[h]), s.credits, scope);
    }
  }

  lemma MintTryDrift(s: State, t: nat, h: Hash, cfg: Config, cached: Option<Cached>, fails: bool, scope: Option<Asset>)
    ensures Drift(MintTry(s, t, h, cfg, cached, fails), scope) == Drift(s, scope)
  {
    hide Drift, MintTry, MintSave, ApartFromMints, SameBooks, SameClaims;
    MintTryIs(s, t, h, cfg, cached, fails);
    ApartIsQuiet(s, MintTry(s, t, h, cfg, cached, fails));
    if cached.Some? { MintSaveDrift(s, h, cached.value.id, scope); }
    if SameBooks(s, MintTry(s, t, h, cfg, cached, fails)) { SameDrift(s, MintTry(s, t, h, cfg, cached, fails), scope); }
  }

  lemma MintFinishDrift(s: State, t: nat, fails: bool, scope: Option<Asset>)
    ensures Drift(MintFinish(s, t, fails), scope) == Drift(s, scope)
  {
    hide Drift, MintFinish, MintSave, MintBase, SameBooks, SameClaims;
    MintFinishIs(s, t, fails);
    ApartIsQuiet(s, s);
    SameDrift(s, MintBase(s, t), scope);
    if t in s.mints && s.mints[t].MintFound? { MintSaveDrift(MintBase(s, t), s.mints[t].hash, s.mints[t].id, scope); }
  }

  lemma MakerPayDrift(s: State, id: nat, status: int, payment: Option<Hash>, scope: Option<Asset>)
    ensures Drift(MakerPay(s, id, status, payment), scope) == Drift(s, scope)
  {
    hide Sum, BalanceTable, FlightTable, MintedTable;
    if id in s.rows {
      FlightMoves(s.rows, s.credits, id, s.rows[id].(status := status, targetId := payment), s.credits, scope);
    }
  }

  lemma CrossFinishDrift(s: State, c: Chain, outcome: Outcome, recent: bool, scope: Option<Asset>)
    requires Inv(s)
    ensures Drift(CrossFinish(s, c, outcome, recent), scope) == Drift(s, scope)
  {
    hide Inv, Drift, CrossFinish;
    if AtPhase(s, c) && s.KeeperOf(c).phase.CrossReady? {
      CrossFact(s, c);
      NextIdFresh(s);
      CrossedDrift(s, c, outcome, recent, scope);
    } else {
      CrossNotReady(s, c, outcome, recent);
    }
  }

  lemma CrossNotReady(s: State, c: Chain, outcome: Outcome, recent: bool)
    ensures !AtPhase(s, c) || !s.KeeperOf(c).phase.CrossReady? ==> CrossFinish(s, c, outcome, recent) == s
  {
  }

  lemma CrossedDrift(s: State, c: Chain, outcome: Outcome, recent: bool, scope: Option<Asset>)
    requires AtPhase(s, c) && s.KeeperOf(c).phase.CrossReady? && s.KeeperOf(c).phase.found.None?
    requires s.KeeperOf(c).phase.row.version == CrossV && s.nextId !in s.rows && s.credits[s.nextId] == 0
    ensures Drift(CrossFinish(s, c, outcome, recent), scope) == Drift(s, scope)
  {
    hide Sum, BalanceTable, FlightTable, MintedTable, AddToCache, Duplicate, SetOp, IncBalance, InScope, Rest;
    var row := s.KeeperOf(c).phase.row;
    FlightMoves(s.rows, s.credits, s.nextId, row, s.credits, scope);
    HeldMoves(s.balances, Account(row.sourceAddress, row.sourceChain, row.asset), -row.targetAmount, scope);
    CrossFlight(row, scope);
  }

  lemma CrossFlight(row: Row, scope: Option<Asset>)
    requires row.version == CrossV
    ensures FlightOf(row, 0, scope) == Scoped(scope, row.asset, row.targetAmount) == -Scoped(scope, row.asset, -row.targetAmount)
  {
  }

  lemma NextIdFresh(s: State)
    requires Inv(s)
    ensures s.nextId !in s.rows && s.credits[s.nextId] == 0
  {
    NextIdFree(s);
  }

  lemma CreditDrift(s: State, c: Chain, id: nat, r: Row, scope: Option<Asset>)
    requires Inv(s) && Creditable(s, c, id, r)
    ensures Drift(Credit(s, c, CurrentTx(s, c), id, r), scope)
         == Drift(s, scope) + Scoped(scope, CurrentTx(s, c).data.AssetOf(), r.targetAmount) - Scoped(scope, r.asset, r.targetAmount)
  {
    hide Inv, Sum, BalanceTable, FlightTable, MintedTable, IncBalance, CloseBoth;
    var tx := CurrentTx(s, c);
    CoreKeepsVersion(r, s.rows[id]);
    FlightMoves(s.rows, s.credits, id, Settle(s.rows[id], tx), s.credits + multiset{id}, scope);
    HeldMoves(s.balances, CreditAccount(tx, r), r.targetAmount, scope);
  }

  lemma TransferFinishDrift(s: State, c: Chain, fails: bool, scope: Option<Asset>)
    requires Inv(s)
    ensures Drift(TransferFinish(s, c, fails), scope) == Drift(s, scope)
  {
    hide Inv, KeeperOk, Sum, BalanceTable, FlightTable, MintedTable, IncBalance, SetOp, Writable, InScope;
    if AtPhase(s, c) && s.KeeperOf(c).phase.TransferReady? {
      KeeperFact(s, c);
      var TransferReady(from, to, amount) := s.KeeperOf(c).phase;
      OneAsset(s, c);
      WritableNumber(amount);
      if Writable(amount) {
        var v := amount.Number().value;
        HeldMoves(s.balances, from, -v, scope);
        HeldMoves(IncBalance(s.balances, from, -v), to, v, scope);
      }
    }
  }

  lemma OneAsset(s: State, c: Chain)
    requires s.KeeperOf(c).Busy? && KeeperOk(s, c, s.KeeperOf(c)) && s.KeeperOf(c).phase.TransferReady?
    ensures s.KeeperOf(c).phase.from.asset == s.KeeperOf(c).phase.to.asset
  {
  }

  lemma PhaseDrift(s: State, c: Chain, p: Phase, scope: Option<Asset>)
    ensures Drift(WithPhase(s, c, p), scope) == Drift(s, scope)
  {
    SameDrift(s, WithPhase(s, c, p), scope);
  }

  lemma MemoryFinishDrift(s: State, c: Chain, fails: bool, scope: Option<Asset>)
    requires Inv(s)
    ensures Drift(MemoryFinish(s, c, fails), scope) == Drift(s, scope) + Misdirected(CreditMade(s, MemoryFinishes(c, fails)), scope)
  {
    hide Inv, Drift, Credit, Creditable, MemoryGuards, WithPhase;
    if AtPhase(s, c) && s.KeeperOf(c).phase.MemoryMatched? {
      var entry := s.KeeperOf(c).phase.entry;
      if !fails && MemoryGuards(s, CurrentTx(s, c), entry) {
        MemoryCreditable(s, c);
        CreditDrift(s, c, entry.id, entry.row, scope);
      } else {
        PhaseDrift(s, c, SearchDb(s.KeeperOf(c).phase.fromChain), scope);
      }
    }
  }

  lemma AbortDrift(s: State, c: Chain, scope: Option<Asset>)
    ensures Drift(AbortPass(s, c), scope) == Drift(s, scope)
  {
  }

  lemma DbFinishDrift(s: State, c: Chain, fails: bool, scope: Option<Asset>)
    requires Inv(s)
    ensures Drift(DbFinish(s, c, fails), scope) == Drift(s, scope) + Misdirected(CreditMade(s, DbFinishes(c, fails)), scope)
  {
    hide Inv, Drift, Credit, Creditable, AbortPass;
    AbortDrift(s, c, scope);
    if AtPhase(s, c) && s.KeeperOf(c).phase.Found? && s.KeeperOf(c).phase.id in s.rows {
      FoundCreditable(s, c);
      CreditDrift(s, c, s.KeeperOf(c).phase.id, s.KeeperOf(c).phase.bt, scope);
    }
  }

  lemma NextDrift(s: State, e: Event, scope: Option<Asset>)
    requires Inv(s)
    ensures Drift(Next(s, e), scope) == Drift(s, scope) + Misdirected(CreditMade(s, e), scope)
  {
    hide Inv, SameBooks, Drift, DeployTransfer, ClaimFinish, MintTry, MintFind, MintFinish, CrossFinish, MemoryFinish, DbFinish, TransferFinish,
         ClaimRead, ClaimCheck, CrossCheck, CrossOverMatch, DbFind, TransferCheck, LoadBatch, MakerPay;
    match e
    case Deploys(h, cfg) => DeployDrift(s, h, cfg, scope);
    case ClaimFinishes(t, fails) => ClaimFinishDrift(s, t, fails, scope);
    case MintTries(t, h, cfg, cached, fails) => MintTryDrift(s, t, h, cfg, cached, fails, scope);
    case MintFinishes(t, fails) => MintFinishDrift(s, t, fails, scope);
    case MakerPays(id, status, payment) => MakerPayDrift(s, id, status, payment, scope);
    case CrossFinishes(c, outcome, recent) => CrossFinishDrift(s, c, outcome, recent, scope);
    case MemoryFinishes(c, fails) => MemoryFinishDrift(s, c, fails, scope);
    case DbFinishes(c, fails) => DbFinishDrift(s, c, fails, scope);
    case TransferFinishes(c, fails) => TransferFinishDrift(s, c, fails, scope);
    case _ => QuietEvent(s, e); SameDrift(s, Next(s, e), scope);
  }

  // ---------- over every run ----------

  /** In every reachable state user balances plus uncredited cross amounts equal the minted amounts. */
  lemma {:induction false} Conservation(events: seq<Event>)
    ensures Held(Run(events), None) + InFlight(Run(events), None) == Minted(Run(events), None)
  {
    if events != [] {
      var before := events[..|events| - 1];
      Conservation(before);
      RunKeeps(before);
      NextDrift(Run(before), events[|events| - 1], None);
    }
  }

  // The crossover names the protocol and the exact tick of the row it pays out.
  predicate Directed(p: Option<Payment>)
  {
    p.Some? ==> p.value.paid == p.value.owed
  }

  /** One event leaves the books of every single asset as they were exactly when it is not a credit whose
      protocol or tick is not its row's. */
  lemma {:induction false} AssetBooksIff(s: State, e: Event)
    requires Inv(s)
    ensures (forall a :: Drift(Next(s, e), Some(a)) == Drift(s, Some(a))) <==> Directed(CreditMade(s, e))
  {
    hide Inv, Drift, Next, CreditMade;
    forall a
      ensures Drift(Next(s, e), Some(a)) == Drift(s, Some(a)) + Misdirected(CreditMade(s, e), Some(a))
    {
      NextDrift(s, e, Some(a));
    }
    if !Directed(CreditMade(s, e)) {
      CreditIsPositive(s, e);
      assert Misdirected(CreditMade(s, e), Some(CreditMade(s, e).value.owed)) != 0.0;
      assert Drift(Next(s, e), Some(CreditMade(s, e).value.owed)) != Drift(s, Some(CreditMade(s, e).value.owed));
    }
  }

  lemma CreditIsPositive(s: State, e: Event)
    requires Inv(s)
    ensures CreditMade(s, e).Some? ==> CreditMade(s, e).value.amount >= 1.0
  {
    hide Inv, Creditable, MemoryGuards;
    if CreditMade(s, e).Some? {
      match e
      case MemoryFinishes(c, _) =>
        MemoryCreditable(s, c);
        CreditableAmount(s, c, s.KeeperOf(c).phase.entry.id, s.KeeperOf(c).phase.entry.row);
      case DbFinishes(c, _) =>
        FoundCreditable(s, c);
        CreditableAmount(s, c, s.KeeperOf(c).phase.id, s.KeeperOf(c).phase.bt);
    }
  }

  lemma CreditableAmount(s: State, c: Chain, id: nat, r: Row)
    requires Inv(s) && Creditable(s, c, id, r)
    ensures r.targetAmount >= 1.0
  {
    CoreKeepsVersion(r, s.rows[id]);
    PositiveAmount(s, id);
  }

  ghost predicate AllDirected(events: seq<Event>)
  {
    forall i :: 0 <= i < |events| ==> Directed(CreditMade(Run(events[..i]), events[i]))
  }

  /** As long as every credit of a run is directed, the books of each protocol and tick balance too. */
  lemma {:induction false} AssetConservation(events: seq<Event>, a: Asset)
    requires AllDirected(events)
    ensures Held(Run(events), Some(a)) + InFlight(Run(events), Some(a)) == Minted(Run(events), Some(a))
  {
    if events != [] {
      var before := events[..|events| - 1];
      assert forall i :: 0 <= i < |before| ==> events[..i] == before[..i] && events[i] == before[i];
      AssetConservation(before, a);
      RunKeeps(before);
      NextDrift(Run(before), events[|events| - 1], Some(a));
    }
  }
}
