/**
 Every balance is accounted for: over any run it is the sum of what claim and cross rows, credits and matched transfers
 say of its account, and it falls only by a cross or a transfer of its own user. The entries are read off transfers,
 rows, credits and statuses; no balance is read.
 */
module LedgerAccounts {
  import opened Wrappers
  import opened Ledger
  import opened Sequences
  import opened Tables
  import opened Text
  import opened LedgerInvariants
  import opened LedgerEffects
  import LedgerMint

  // The part of an entry that falls on account k.
  function On(k: Account, account: Account, v: real): real
  {
    if k == account then v else 0.0
  }

  // What an event that led from s to n enters for account k.
  ghost function Entry(s: State, n: State, e: Event, k: Account): real
  {
    match e
    case ClaimFinishes(_, _) =>
      if s.nextId in n.rows && s.nextId !in s.rows
      then On(k, Account(n.rows[s.nextId].sourceAddress, n.rows[s.nextId].targetChain, n.rows[s.nextId].asset), n.rows[s.nextId].targetAmount)
      else 0.0
    case CrossFinishes(_, _, _) =>
      if s.nextId in n.rows && s.nextId !in s.rows
      then On(k, Account(n.rows[s.nextId].sourceAddress, n.rows[s.nextId].sourceChain, n.rows[s.nextId].asset), -n.rows[s.nextId].targetAmount)
      else 0.0
    case MemoryFinishes(c, _) =>
      if AtPhase(s, c) && s.KeeperOf(c).phase.MemoryMatched? && n.credits != s.credits then CreditFor(s, c, s.KeeperOf(c).phase.entry.id, k) else 0.0
    case DbFinishes(c, _) =>
      if AtPhase(s, c) && s.KeeperOf(c).phase.Found? && n.credits != s.credits then CreditFor(s, c, s.KeeperOf(c).phase.id, k) else 0.0
    case TransferFinishes(c, _) =>
      if AtPhase(s, c) && s.KeeperOf(c).phase.TransferReady? && CurrentTx(s, c).hash in n.ops && n.ops[CurrentTx(s, c).hash] == 99
      then Transferred(CurrentTx(s, c), c, k) else 0.0
    case _ => 0.0
  }

  ghost function CreditFor(s: State, c: Chain, id: nat, k: Account): real
    requires AtPhase(s, c)
  {
    if id in s.rows
    then On(k, Account(s.rows[id].targetAddress, s.rows[id].targetChain, CurrentTx(s, c).data.AssetOf()), s.rows[id].targetAmount)
    else 0.0
  }

  ghost function Transferred(tx: Transfer, c: Chain, k: Account): real
  {
    if tx.data.amt.Some? && tx.data.amt.value.Number().Some?
    then On(k, Account(Lower(tx.data.to), c, tx.data.AssetOf()), tx.data.amt.value.Number().value)
         - On(k, Account(tx.sender, c, tx.data.AssetOf()), tx.data.amt.value.Number().value)
    else 0.0
  }

  // ---------- one event ----------

  lemma ShiftsOn(before: Balances, after: Balances, account: Account, v: real, k: Account)
    requires Shifts(before, after, account, v)
    ensures Balance(after, k) == Balance(before, k) + On(k, account, v)
  {
  }

  lemma PassesOn(before: Balances, after: Balances, from: Account, to: Account, v: real, k: Account)
    requires Passes(before, after, from, to, v)
    ensures Balance(after, k) == Balance(before, k) + On(k, to, v) - On(k, from, v)
  {
  }

  lemma ClaimEntry(s: State, t: nat, fails: bool, k: Account)
    requires Inv(s)
    ensures var n := Next(s, ClaimFinishes(t, fails));
            Balance(n.balances, k) == Balance(s.balances, k) + Entry(s, n, ClaimFinishes(t, fails), k)
  {
    hide Inv, ClaimFinish, Shifts, HasRow, Balance;
    NextIdFree(s);
    if t in s.claims && s.claims[t].ClaimReady? {
      if s.claims[t].found.None? {
        ClaimGives(s, t, fails);
        ClaimColumns(s, t);
        var row := s.claims[t].row;
        if !fails && !HasRow(s.rows, row.sourceId) {
          ShiftsOn(s.balances, Next(s, ClaimFinishes(t, fails)).balances, Account(row.sourceAddress, row.targetChain, row.asset), row.targetAmount, k);
        }
      } else {
        ClaimRewrites(s, t, fails);
      }
    } else {
      NoClaim(s, t, fails);
    }
  }

  lemma NoClaim(s: State, t: nat, fails: bool)
    requires !(t in s.claims && s.claims[t].ClaimReady?)
    ensures ClaimFinish(s, t, fails) == s
  {
  }

  lemma CrossEntry(s: State, c: Chain, outcome: Outcome, recent: bool, k: Account)
    requires Inv(s)
    ensures var n := Next(s, CrossFinishes(c, outcome, recent));
            Balance(n.balances, k) == Balance(s.balances, k) + Entry(s, n, CrossFinishes(c, outcome, recent), k)
  {
    hide Inv, CrossFinish, Shifts, Balance;
    NextIdFree(s);
    if AtPhase(s, c) && s.KeeperOf(c).phase.CrossReady? {
      CrossTakes(s, c, outcome, recent);
      HeldCross(s, c);
      var row := s.KeeperOf(c).phase.row;
      if outcome == Commits {
        ShiftsOn(s.balances, Next(s, CrossFinishes(c, outcome, recent)).balances,
                 Account(row.sourceAddress, row.sourceChain, row.asset), -row.targetAmount, k);
      }
    } else {
      NoCross(s, c, outcome, recent);
    }
  }

  lemma NoCross(s: State, c: Chain, outcome: Outcome, recent: bool)
    requires !(AtPhase(s, c) && s.KeeperOf(c).phase.CrossReady?)
    ensures CrossFinish(s, c, outcome, recent) == s
  {
  }

  lemma CreditOn(s: State, n: State, c: Chain, id: nat, k: Account)
    requires AtPhase(s, c) && Credits(s, n, id) && PaidOut(s, n, CurrentTx(s, c), id)
    ensures n.credits != s.credits && Balance(n.balances, k) == Balance(s.balances, k) + CreditFor(s, c, id, k)
  {
    var r := s.rows[id];
    ShiftsOn(s.balances, n.balances, Account(r.targetAddress, r.targetChain, CurrentTx(s, c).data.AssetOf()), r.targetAmount, k);
    assert n.credits[id] == s.credits[id] + 1;
  }

  lemma MemoryEntry(s: State, c: Chain, fails: bool, k: Account)
    requires Inv(s)
    ensures var n := Next(s, MemoryFinishes(c, fails));
            Balance(n.balances, k) == Balance(s.balances, k) + Entry(s, n, MemoryFinishes(c, fails), k)
  {
    hide Inv, MemoryFinish, MemoryGoesThrough, Credits, PaidOut, Balance, CreditFor;
    if AtPhase(s, c) && s.KeeperOf(c).phase.MemoryMatched? {
      MemoryPays(s, c, fails);
      var e := s.KeeperOf(c).phase.entry;
      if !fails && MemoryGoesThrough(s, CurrentTx(s, c), e.id, e.row.sourceId) {
        CreditOn(s, Next(s, MemoryFinishes(c, fails)), c, e.id, k);
      }
    } else {
      NoMatch(s, c, fails);
    }
  }

  lemma NoMatch(s: State, c: Chain, fails: bool)
    ensures !(AtPhase(s, c) && s.KeeperOf(c).phase.MemoryMatched?) ==> MemoryFinish(s, c, fails) == s
    ensures !(AtPhase(s, c) && s.KeeperOf(c).phase.Found?) ==> DbFinish(s, c, fails).balances == s.balances
    ensures !(AtPhase(s, c) && s.KeeperOf(c).phase.TransferReady?) ==> TransferFinish(s, c, fails) == s
  {
  }

  lemma SearchEntry(s: State, c: Chain, fails: bool, k: Account)
    requires Inv(s)
    ensures var n := Next(s, DbFinishes(c, fails));
            Balance(n.balances, k) == Balance(s.balances, k) + Entry(s, n, DbFinishes(c, fails), k)
  {
    hide Inv, DbFinish, Credits, PaidOut, Balance, CreditFor;
    if AtPhase(s, c) && s.KeeperOf(c).phase.Found? {
      SearchPays(s, c, fails);
      if !fails {
        CreditOn(s, Next(s, DbFinishes(c, fails)), c, s.KeeperOf(c).phase.id, k);
      }
    } else {
      NoMatch(s, c, fails);
    }
  }

  lemma TransferEntry(s: State, c: Chain, fails: bool, k: Account)
    requires Inv(s)
    ensures var n := Next(s, TransferFinishes(c, fails));
            Balance(n.balances, k) == Balance(s.balances, k) + Entry(s, n, TransferFinishes(c, fails), k)
  {
    hide Inv, TransferFinish, Passes, Balance, Lower;
    if AtPhase(s, c) && s.KeeperOf(c).phase.TransferReady? {
      var tx := CurrentTx(s, c);
      TransferMoves(s, c);
      FailedTransfer(s, c);
      HandOpen(s, c);
      if !fails && tx.data.amt.value.Number().Some? && tx.data.amt.value.Number().value >= 0.0 {
        PassesOn(s.balances, Next(s, TransferFinishes(c, fails)).balances,
                 Account(tx.sender, c, tx.data.AssetOf()), Account(Lower(tx.data.to), c, tx.data.AssetOf()), tx.data.amt.value.Number().value, k);
      }
    } else {
      NoMatch(s, c, fails);
    }
  }

  lemma FailedTransfer(s: State, c: Chain)
    requires AtPhase(s, c) && s.KeeperOf(c).phase.TransferReady?
    ensures var n := Next(s, TransferFinishes(c, true)); n.balances == s.balances && n.ops == s.ops
  {
    hide Rest;
  }

  lemma HandOpen(s: State, c: Chain)
    requires Inv(s) && AtPhase(s, c)
    ensures CurrentTx(s, c).hash in s.ops && s.ops[CurrentTx(s, c).hash] == 0
  {
    KeeperFact(s, c);
  }

  // Every other event leaves the balances alone.
  lemma NobodyPaid(s: State, e: Event)
    requires e.MintTries? || e.MintFinishes?
    ensures Next(s, e).balances == s.balances
  {
    hide Next;
    LedgerMint.MintCreditsNobody(s, e, None);
  }

  lemma OthersKeepBalances(s: State, e: Event)
    requires !e.ClaimFinishes? && !e.CrossFinishes? && !e.MemoryFinishes? && !e.DbFinishes? && !e.TransferFinishes?
    ensures Next(s, e).balances == s.balances
  {
    QuietEvent(s, e);
    hide Arrive, DeployTransfer, ClaimRead, ClaimCheck, ClaimFinish, MintTry, MintFind, MintFinish, LoadBatch, CrossCheck,
         CrossFinish, CrossOverMatch, MemoryFinish, DbFind, DbFinish, TransferCheck, TransferFinish, AbortPass, DropCached, SameClaims;
    match e
    case Deploys(h, cfg) => DeployKeepsBalances(s, h, cfg);
    case MintTries(_, _, _, _, _) => NobodyPaid(s, e);
    case MintFinishes(_, _) => NobodyPaid(s, e);
    case _ =>
  }

  predicate SameBalances(s: State, n: State)
  {
    n.balances == s.balances
  }

  lemma RecordsAside(s: State, deploys: map<Asset, Deploy>, ops: Statuses)
    ensures SameBalances(s, s) && SameBalances(s, s.(ops := ops)) && SameBalances(s, s.(deploys := deploys, ops := ops))
  {
  }

  lemma DeployKeepsBalances(s: State, h: Hash, cfg: Config)
    ensures SameBalances(s, DeployTransfer(s, h, cfg))
  {
    hide SameBalances, SetOp;
    RecordsAside(s, s.deploys, SetOp(s.ops, h, INVALID_OP_PARAMS));
    RecordsAside(s, s.deploys, SetOp(s.ops, h, INVALID_DEPLOY_MAKER));
    if h in s.txs && s.txs[h].data.max.Some? && s.txs[h].data.lim.Some? {
      var d := s.txs[h].data;
      RecordsAside(s, s.deploys[d.AssetOf() := Deploy(s.txs[h].receiver, d.max.value, d.lim.value, 0.0, 0)], SetOp(s.ops, h, MATCHED));
    }
  }

  /** One event changes the balance of an account by exactly what it enters for it. */
  lemma {:induction false} EntryIsChange(s: State, e: Event, k: Account)
    requires Inv(s)
    ensures Balance(Next(s, e).balances, k) == Balance(s.balances, k) + Entry(s, Next(s, e), e, k)
  {
    hide Inv, Next, Balance;
    match e
    case ClaimFinishes(t, fails) => ClaimEntry(s, t, fails, k);
    case CrossFinishes(c, outcome, recent) => CrossEntry(s, c, outcome, recent, k);
    case MemoryFinishes(c, fails) => MemoryEntry(s, c, fails, k);
    case DbFinishes(c, fails) => SearchEntry(s, c, fails, k);
    case TransferFinishes(c, fails) => TransferEntry(s, c, fails, k);
    case _ => OthersKeepBalances(s, e);
  }

  // ---------- every run ----------

  // The sum of the entries of a run.
  ghost function Statement(events: seq<Event>, k: Account): real
  {
    if events == [] then 0.0 else
      var before := events[..|events| - 1];
      Statement(before, k) + Entry(Run(before), Run(events), events[|events| - 1], k)
  }

  /** After every run, the balance of every account is the sum of its entries. */
  lemma {:induction false} BalanceIsStatement(events: seq<Event>, k: Account)
    ensures Balance(Run(events).balances, k) == Statement(events, k)
  {
    if events != [] {
      var before := events[..|events| - 1];
      BalanceIsStatement(before, k);
      RunKeeps(before);
      hide Inv, Next, Entry;
      EntryIsChange(Run(before), events[|events| - 1], k);
    }
  }

  // The account's user spends: a cross or a transfer sent from its address, on its chain and in its asset.
  ghost predicate Spends(s: State, e: Event, k: Account)
  {
    && (e.CrossFinishes? || e.TransferFinishes?) && AtPhase(s, e.c)
    && CurrentTx(s, e.c).sender == k.address && CurrentTx(s, e.c).chain == k.chain == e.c && CurrentTx(s, e.c).data.AssetOf() == k.asset
  }

  /** A balance falls only when its own user spends. */
  lemma {:induction false} OnlyOwnerSpends(s: State, e: Event, k: Account)
    requires Inv(s)
    ensures Balance(Next(s, e).balances, k) < Balance(s.balances, k) ==> Spends(s, e, k)
  {
    EntryIsChange(s, e, k);
    hide Inv, Next, Balance, Lower;
    match e
    case ClaimFinishes(t, fails) => ClaimEntersNoLess(s, t, fails, k);
    case CrossFinishes(c, outcome, recent) => CrossEntersOwn(s, c, outcome, recent, k);
    case MemoryFinishes(c, _) => if AtPhase(s, c) { CreditsEnterNoLess(s, c, k); }
    case DbFinishes(c, _) => if AtPhase(s, c) { CreditsEnterNoLess(s, c, k); }
    case TransferFinishes(c, fails) => TransferEntersOwn(s, c, fails, k);
    case _ =>
  }

  lemma CreditsEnterNoLess(s: State, c: Chain, k: Account)
    requires Inv(s) && AtPhase(s, c)
    ensures forall id :: CreditFor(s, c, id, k) >= 0.0
  {
    forall id
      ensures CreditFor(s, c, id, k) >= 0.0
    {
      if id in s.rows {
        PositiveAmount(s, id);
      }
    }
  }

  lemma ClaimEntersNoLess(s: State, t: nat, fails: bool, k: Account)
    requires Inv(s)
    ensures Entry(s, Next(s, ClaimFinishes(t, fails)), ClaimFinishes(t, fails), k) >= 0.0
  {
    NextKeeps(s, ClaimFinishes(t, fails));
    hide Inv, Next;
    var n := Next(s, ClaimFinishes(t, fails));
    if s.nextId in n.rows {
      PositiveAmount(n, s.nextId);
    }
  }

  lemma CrossEntersOwn(s: State, c: Chain, outcome: Outcome, recent: bool, k: Account)
    requires Inv(s)
    ensures var e := CrossFinishes(c, outcome, recent); Entry(s, Next(s, e), e, k) != 0.0 ==> Spends(s, e, k)
  {
    hide Inv, CrossFinish, Shifts;
    if AtPhase(s, c) && s.KeeperOf(c).phase.CrossReady? {
      CrossTakes(s, c, outcome, recent);
      HeldCross(s, c);
      HandHash(s, c);
    } else {
      NoCross(s, c, outcome, recent);
    }
  }

  lemma TransferEntersOwn(s: State, c: Chain, fails: bool, k: Account)
    requires Inv(s)
    ensures var e := TransferFinishes(c, fails); Entry(s, Next(s, e), e, k) < 0.0 ==> Spends(s, e, k)
  {
    hide Inv, TransferFinish, Lower, Passes;
    if AtPhase(s, c) && s.KeeperOf(c).phase.TransferReady? {
      HandHash(s, c);
      HandOpen(s, c);
      TransferMoves(s, c);
      FailedTransfer(s, c);
    }
  }
}
