/**
 What the committed pieces of the handlers do to the balances, read off the other tables: a new claim or cross row, a
 new credit and a matched transfer each say which account changes and by how much, and nothing else changes one. And
 what a crossover has in common with the row it pays out.
 */
module LedgerEffects {
  import opened Wrappers
  import opened Ledger
  import opened Sequences
  import opened Tables
  import opened Text
  import opened LedgerInvariants
  import JsNumber

  function Balance(balances: Balances, k: Account): real
  {
    if k in balances then balances[k] else 0.0
  }

  // One account changes by v, from nothing if it had no entry, and no other does.
  ghost predicate Shifts(before: Balances, after: Balances, k: Account, v: real)
  {
    && after.Keys == before.Keys + {k} && after[k] == Balance(before, k) + v
    && forall other :: other in before && other != k ==> after[other] == before[other]
  }

  // An amount goes from one account to another; nothing changes when they are the same.
  ghost predicate Passes(before: Balances, after: Balances, from: Account, to: Account, v: real)
  {
    if from == to then after == before
    else
      && after.Keys == before.Keys + {from, to}
      && after[from] == Balance(before, from) - v && after[to] == Balance(before, to) + v
      && forall other :: other in before && other != from && other != to ==> after[other] == before[other]
  }

  lemma IncShifts(balances: Balances, k: Account, v: real)
    ensures Shifts(balances, IncBalance(balances, k, v), k, v)
  {
  }

  lemma IncPasses(balances: Balances, from: Account, to: Account, v: real)
    requires from in balances
    ensures Passes(balances, IncBalance(IncBalance(balances, from, -v), to, v), from, to, v)
  {
    if from == to {
      assert IncBalance(IncBalance(balances, from, -v), to, v) == balances;
    }
  }

  // ---------- crossovers ----------

  // The event credits this row.
  ghost predicate Credits(s: State, n: State, id: nat)
  {
    n.credits == s.credits + multiset{id}
  }

  // What a crossover writes: the row it found gets its payment, both transfers are closed, and the account the row names,
  // under the protocol and tick of the crossover, grows by the row's amount.
  ghost predicate PaidOut(s: State, n: State, tx: Transfer, id: nat)
  {
    && id in s.rows && id in n.rows
    && var r := s.rows[id];
    && Shifts(s.balances, n.balances, Account(r.targetAddress, r.targetChain, Asset(tx.data.protocol, tx.data.tick)), r.targetAmount)
    && n.rows == s.rows[id := r.(targetId := Some(tx.hash), status := if tx.status == 3 then 97 else 99)]
    && tx.hash in n.ops && n.ops[tx.hash] == 99 && r.sourceId in n.ops && n.ops[r.sourceId] == 99
  }

  lemma CreditIsPaidOut(s: State, c: Chain, id: nat, r: Row)
    requires Inv(s) && Creditable(s, c, id, r)
    ensures var n := Credit(s, c, CurrentTx(s, c), id, r); Credits(s, n, id) && PaidOut(s, n, CurrentTx(s, c), id)
  {
    hide Inv, KeeperOk, Shifts, IncBalance, Rest;
    KeeperFact(s, c);
    CoreKeepsVersion(r, s.rows[id]);
    RowIsOpen(s, id);
    IncShifts(s.balances, CreditAccount(CurrentTx(s, c), r), r.targetAmount);
  }

  lemma RowIsOpen(s: State, id: nat)
    requires Inv(s) && id in s.rows && s.rows[id].version == CrossV
    ensures var h := s.rows[id].sourceId; h in s.ops && (s.ops[h] == 1 || s.ops[h] == 99)
  {
    assert StatusOk(s.ops, s.rows[id], s.credits[id]);
  }

  // The first transaction goes through: one unsettled row of the time window, whose source is open. The crossover itself
  // is always open then.
  ghost predicate MemoryGoesThrough(s: State, tx: Transfer, id: nat, sourceId: Hash)
  {
    && id in s.rows && s.rows[id].status in {0, 96, 97, 98}
    && tx.timestamp - 7200000 < s.rows[id].sourceTime < tx.timestamp + 300000
    && sourceId in s.ops && s.ops[sourceId] in {0, 1}
  }

  lemma GuardsAre(s: State, c: Chain)
    requires Inv(s) && AtPhase(s, c) && s.KeeperOf(c).phase.MemoryMatched?
    ensures var tx, e := CurrentTx(s, c), s.KeeperOf(c).phase.entry;
            MemoryGuards(s, tx, e) <==> MemoryGoesThrough(s, tx, e.id, e.row.sourceId)
  {
    KeeperFact(s, c);
    SearchingCrossOver(s, c);
    var e := s.KeeperOf(c).phase.entry;
    if e.id in s.rows {
      CoreKeepsVersion(e.row, s.rows[e.id]);
      RowVersions(s);
    }
    hide Inv;
  }

  /** A crossover matched in memory pays out its row if and only if its transaction does not fail and its two row counts
      are right; otherwise it writes no table. */
  lemma {:induction false} MemoryPays(s: State, c: Chain, fails: bool)
    requires Inv(s) && AtPhase(s, c) && s.KeeperOf(c).phase.MemoryMatched?
    ensures var n, tx, e := Next(s, MemoryFinishes(c, fails)), CurrentTx(s, c), s.KeeperOf(c).phase.entry;
      if !fails && MemoryGoesThrough(s, tx, e.id, e.row.sourceId)
      then Credits(s, n, e.id) && PaidOut(s, n, tx, e.id)
      else n.credits == s.credits && n.balances == s.balances && n.rows == s.rows && n.ops == s.ops
  {
    hide Inv, Creditable, Credit, Credits, PaidOut, MemoryGuards, MemoryGoesThrough, WithPhase;
    GuardsAre(s, c);
    KeeperAfter(s, c);
    var e := s.KeeperOf(c).phase.entry;
    if MemoryGuards(s, CurrentTx(s, c), e) {
      MemoryCreditable(s, c);
      CreditableId(s, c, e.id, e.row);
      CreditIsPaidOut(s, c, e.id, e.row);
    }
  }

  // Where a bookkeeper is after it moved on.
  lemma KeeperAfter(s: State, c: Chain)
    requires AtPhase(s, c)
    ensures forall m: State :: m.keepers == s.keepers ==> Advance(m, c).KeeperOf(c) == Rest(s.KeeperOf(c).batch)
    ensures forall p :: WithPhase(s, c, p) == s.(keepers := s.keepers[c := Busy(s.KeeperOf(c).batch, p)])
    ensures forall p :: WithPhase(s, c, p).KeeperOf(c) == Busy(s.KeeperOf(c).batch, p)
    ensures Rest(s.KeeperOf(c).batch).Busy? ==> Rest(s.KeeperOf(c).batch).phase.Start?
  {
  }

  lemma CreditableId(s: State, c: Chain, id: nat, r: Row)
    requires Creditable(s, c, id, r)
    ensures id in s.rows
  {
  }

  /** One that found its row in the database pays it out unless its transaction fails. */
  lemma {:induction false} SearchPays(s: State, c: Chain, fails: bool)
    requires Inv(s) && AtPhase(s, c) && s.KeeperOf(c).phase.Found?
    ensures var n := Next(s, DbFinishes(c, fails));
      if !fails then Credits(s, n, s.KeeperOf(c).phase.id) && PaidOut(s, n, CurrentTx(s, c), s.KeeperOf(c).phase.id)
      else n.credits == s.credits && n.balances == s.balances && n.rows == s.rows && n.ops == s.ops
  {
    hide Inv, Creditable, Credit, PaidOut;
    FoundCreditable(s, c);
    CreditableId(s, c, s.KeeperOf(c).phase.id, s.KeeperOf(c).phase.bt);
    CreditIsPaidOut(s, c, s.KeeperOf(c).phase.id, s.KeeperOf(c).phase.bt);
  }

  // ---------- what a row and its crossover have in common ----------

  /** A crossover matched in memory names the receiver, chain, nonce and maker of the stored row, its tick up to case and
      its amount up to rounding, and comes no more than a minute before the row's source. */
  lemma {:induction false} MemoryFits(s: State, c: Chain)
    requires Inv(s) && AtPhase(s, c) && s.KeeperOf(c).phase.MemoryMatched? && s.KeeperOf(c).phase.entry.id in s.rows
    ensures var tx, r := CurrentTx(s, c), s.rows[s.KeeperOf(c).phase.entry.id];
      && tx.version == CrossOverV && r.version == CrossV
      && r.targetAddress == tx.receiver && r.targetChain == tx.chain == c && r.sourceNonce == tx.value && r.responseMaker == tx.sender
      && EqualsIgnoreCase(r.asset.tick, tx.data.tick) && tx.timestamp > r.sourceTime - 60000
      && tx.data.amt.Some? && tx.data.amt.value.Number().Some?
      && (tx.data.amt.value.Number().value + 0.5).Floor as real == r.targetAmount
  {
    KeeperFact(s, c);
    SearchingCrossOver(s, c);
    var e := s.KeeperOf(c).phase.entry;
    CoreColumns(e.row, s.rows[e.id]);
    WholeAmount(s, e.id);
    hide Inv;
  }

  lemma CoreColumns(a: Row, b: Row)
    requires a.Core() == b.Core()
    ensures a.version == b.version && a.sourceChain == b.sourceChain && a.targetAddress == b.targetAddress && a.targetChain == b.targetChain
    ensures a.sourceNonce == b.sourceNonce && a.responseMaker == b.responseMaker && a.asset == b.asset
    ensures a.sourceTime == b.sourceTime && a.targetAmount == b.targetAmount
  {
    assert a == a.Core().(status := a.status, targetId := a.targetId);
    assert b == b.Core().(status := b.status, targetId := b.targetId);
  }

  lemma WholeAmount(s: State, id: nat)
    requires Inv(s) && id in s.rows
    ensures s.rows[id].targetAmount >= 1.0 && (s.rows[id].targetAmount + 0.5).Floor as real == s.rows[id].targetAmount
  {
    assert RowFor(s.txs, s.deploys.Keys, s.rows[id]);
    RoundsToItself(s.rows[id].targetAmount.Floor);
    hide Inv, RowFor;
  }

  lemma RoundsToItself(n: int)
    ensures (n as real + 0.5).Floor == n
  {
  }

  /** One that found its row in the database names all of that exactly. */
  lemma {:induction false} SearchFits(s: State, c: Chain)
    requires Inv(s) && AtPhase(s, c) && s.KeeperOf(c).phase.Found?
    ensures s.KeeperOf(c).phase.id in s.rows
    ensures var tx, r := CurrentTx(s, c), s.rows[s.KeeperOf(c).phase.id];
      && tx.version == CrossOverV && r.version == CrossV
      && r.targetAddress == tx.receiver && r.targetChain == tx.chain == c && r.sourceNonce == tx.value && r.responseMaker == tx.sender
      && r.asset.tick == tx.data.tick && tx.data.amt.Some? && tx.data.amt.value.Number() == Some(r.targetAmount)
  {
    KeeperFact(s, c);
    SearchingCrossOver(s, c);
    CoreColumns(s.KeeperOf(c).phase.bt, s.rows[s.KeeperOf(c).phase.id]);
    hide Inv;
  }

  /** A crossover goes on to the matches if and only if its fields are there and its sender deployed its asset: to the
      first cached row, of the chain its `fc` names, that suits it, or to the database search among rows of that chain if and
      only if no cached row does. */
  lemma CrossOverAcceptedIff(s: State, c: Chain, cfg: Config)
    requires Inv(s) && AtPhase(s, c) && s.KeeperOf(c).phase.Start? && CurrentTx(s, c).version == CrossOverV
    ensures var k, tx := Next(s, CrossOverMatches(c, cfg)).KeeperOf(c), CurrentTx(s, c);
      && (k.Busy? && !k.phase.Start? <==> CrossOverAsked(s, tx, cfg))
      && (CrossOverAsked(s, tx, cfg) ==> k.Busy? && LooksAmong(s.cache, k.phase, tx, cfg.byInternalId[tx.data.fc.value]))
  {
    hide Inv, Next, CrossOverAsked, FindCached, Advance, WithPhase, Rest, LooksAmong;
    KeeperAfter(s, c);
    CrossOverIs(s, c, CurrentTx(s, c), cfg);
    if CrossOverAsked(s, CurrentTx(s, c), cfg) {
      FcNamed(s, CurrentTx(s, c), cfg);
      CacheAnswers(s.cache, CurrentTx(s, c), cfg.byInternalId[CurrentTx(s, c).data.fc.value]);
    }
  }

  lemma FcNamed(s: State, tx: Transfer, cfg: Config)
    requires CrossOverAsked(s, tx, cfg)
    ensures tx.data.fc.Some? && tx.data.fc.value in cfg.byInternalId
  {
  }

  // A row of a cross from this chain that the crossover resembles.
  ghost predicate Suits(r: Row, tx: Transfer, from: Chain)
  {
    r.version == CrossV && r.sourceChain == from && Resembles(r, tx)
  }

  ghost predicate FirstSuits(cache: seq<Cached>, tx: Transfer, from: Chain, i: int)
  {
    0 <= i < |cache| && Suits(cache[i].row, tx, from) && forall j :: 0 <= j < i ==> !Suits(cache[j].row, tx, from)
  }

  // The crossover has the first cached row of this chain that suits it, or has to search the database for one.
  ghost predicate LooksAmong(cache: seq<Cached>, p: Phase, tx: Transfer, from: Chain)
  {
    || (p == SearchDb(from) && forall i :: 0 <= i < |cache| ==> !Suits(cache[i].row, tx, from))
    || exists i :: FirstSuits(cache, tx, from, i) && p == MemoryMatched(from, cache[i])
  }

  // Its fields are there, and its sender deployed its asset.
  ghost predicate CrossOverAsked(s: State, tx: Transfer, cfg: Config)
  {
    && tx.data.op == CrossOverOp && tx.data.protocol != "" && tx.data.tick != ""
    && tx.data.amt.Some? && tx.data.amt.value.Plain? && tx.data.fc.Some?
    && Asset(tx.data.protocol, tx.data.tick) in s.deploys && s.deploys[Asset(tx.data.protocol, tx.data.tick)].to == tx.sender
    && tx.data.fc.value in cfg.byInternalId
  }

  lemma CrossOverIs(s: State, c: Chain, tx: Transfer, cfg: Config)
    requires AtPhase(s, c) && s.KeeperOf(c).phase.Start? && CurrentTx(s, c) == tx && tx.version == CrossOverV
    ensures var n := Next(s, CrossOverMatches(c, cfg));
      if CrossOverAsked(s, tx, cfg) then
        n == WithPhase(s, c, match FindCached(s.cache, tx, cfg.byInternalId[tx.data.fc.value])
                             case Some(e) => MemoryMatched(cfg.byInternalId[tx.data.fc.value], e)
                             case None => SearchDb(cfg.byInternalId[tx.data.fc.value]))
      else exists ops :: n == Advance(s.(ops := ops), c)
  {
    hide FindCached, Advance, WithPhase, SetOp;
  }

  lemma {:induction false} CacheAnswers(cache: seq<Cached>, tx: Transfer, from: Chain)
    ensures match FindCached(cache, tx, from)
      case Some(e) => LooksAmong(cache, MemoryMatched(from, e), tx, from)
      case None => LooksAmong(cache, SearchDb(from), tx, from)
  {
    SuitsIs(tx, from);
    hide MemoryMatch, Suits;
    if cache != [] && !Suits(cache[0].row, tx, from) {
      var rest := cache[1..];
      CacheAnswers(rest, tx, from);
      if FindCached(rest, tx, from).Some? {
        var i :| FirstSuits(rest, tx, from, i) && FindCached(rest, tx, from).value == rest[i];
        assert FirstSuits(cache, tx, from, i + 1);
      }
    } else if cache != [] {
      assert FirstSuits(cache, tx, from, 0);
    }
  }

  lemma SuitsIs(tx: Transfer, from: Chain)
    ensures forall r: Row :: MemoryMatch(r, tx, from, CrossV) <==> Suits(r, tx, from)
  {
  }

  // The crossover is the payment of a row of this chain already.
  ghost predicate IsPayment(rows: Rows, c: Chain, tx: Transfer, id: nat)
  {
    id in rows && rows[id].targetChain == c && rows[id].targetId == Some(tx.hash)
  }

  // The search by its outcomes.
  lemma DbFindIs(s: State, c: Chain, tx: Transfer, fromChain: Chain, pick: Option<nat>)
    requires AtPhase(s, c) && s.KeeperOf(c).phase == SearchDb(fromChain) && CurrentTx(s, c) == tx
    ensures var n := Next(s, DbFinds(c, pick));
      if exists id :: IsPayment(s.rows, c, tx, id) then
        n == if pick.Some? && IsPayment(s.rows, c, tx, pick.value) then WithPhase(s, c, FoundByTarget(pick.value)) else s
      else if exists id :: id in s.rows && Asks(s.rows[id], tx, fromChain) then
        n == if pick.Some? && pick.value in s.rows && Asks(s.rows[pick.value], tx, fromChain)
             then WithPhase(s, c, Found(pick.value, s.rows[pick.value])) else s
      else n == Advance(s, c)
  {
    MatchIsAsks(s.rows, tx, fromChain);
    NamedIsPayment(s, c, tx);
    hide DbMatch, ByTarget, IsPayment, Asks, Advance, WithPhase;
  }

  /** Its search returns a row that names the crossover as its payment if there is one, else one that waits for this amount,
      and moves on if and only if there is neither. */
  lemma {:induction false} SearchFindsIff(s: State, c: Chain, pick: Option<nat>)
    requires Inv(s) && AtPhase(s, c) && s.KeeperOf(c).phase.SearchDb?
    ensures var k, tx, from := Next(s, DbFinds(c, pick)).KeeperOf(c), CurrentTx(s, c), s.KeeperOf(c).phase.fromChain;
      var named := exists id :: IsPayment(s.rows, c, tx, id);
      && (k.Busy? && k.phase.FoundByTarget? <==> pick.Some? && IsPayment(s.rows, c, tx, pick.value))
      && (k.Busy? && k.phase.Found? <==> !named && pick.Some? && pick.value in s.rows && Asks(s.rows[pick.value], tx, from))
      && (k.Busy? && k.phase.Found? ==> k.phase == Found(pick.value, s.rows[pick.value]))
      && (k == Rest(s.KeeperOf(c).batch) <==> !named && forall id :: id in s.rows ==> !Asks(s.rows[id], tx, from))
  {
    hide Inv, Next, IsPayment, Asks, Advance, WithPhase, Rest;
    KeeperAfter(s, c);
    DbFindIs(s, c, CurrentTx(s, c), s.KeeperOf(c).phase.fromChain, pick);
  }

  lemma NamedIsPayment(s: State, c: Chain, tx: Transfer)
    ensures forall id :: ByTarget(s, c, tx, id) <==> IsPayment(s.rows, c, tx, id)
    ensures forall id :: ByTarget(s, c, tx, id) ==> id in s.rows
  {
  }

  // The row waits for this amount, from this chain.
  ghost predicate Asks(r: Row, tx: Transfer, fromChain: Chain)
  {
    && r.version == CrossV && r.status in {0, 96, 97, 98} && r.targetId == None
    && r.sourceChain == fromChain && r.targetChain == tx.chain && r.targetAddress == tx.receiver
    && r.sourceNonce == tx.value && r.responseMaker == tx.sender && r.asset.tick == tx.data.tick
    && tx.data.amt.Some? && tx.data.amt.value.Number() == Some(r.targetAmount)
  }

  lemma MatchIsAsks(rows: Rows, tx: Transfer, fromChain: Chain)
    ensures forall id :: id in rows ==> (DbMatch(rows[id], tx, fromChain) <==> Asks(rows[id], tx, fromChain))
  {
  }

  /** The expiry job takes one entry out of the cache, and the others keep their order. */
  lemma DropsOne(s: State, i: nat)
    requires i < |s.cache|
    ensures var n := Next(s, CacheDrops(i));
      && n == s.(cache := n.cache) && |n.cache| == |s.cache| - 1
      && forall j :: 0 <= j < |n.cache| ==> n.cache[j] == s.cache[if j < i then j else j + 1]
  {
  }

  // ---------- what a bookkeeper takes up ----------

  // At most a thousand transfers of its chain that are still at 0, none twice.
  ghost predicate Loadable(s: State, c: Chain, hs: seq<Hash>)
  {
    && 0 < |hs| <= 1000 && (forall i, j :: 0 <= i < j < |hs| ==> hs[i] != hs[j])
    && (forall h :: h in hs ==> h in s.txs && h in s.ops && s.ops[h] == 0)
    && (forall h :: h in hs ==> s.txs[h].chain == c && s.txs[h].version in {CrossV, CrossOverV, TransferV})
  }

  /** A free bookkeeper takes up what its query returns, and begins with the first; a busy one takes up nothing. */
  lemma LoadsIff(s: State, c: Chain, hs: seq<Hash>)
    ensures var n := Next(s, LoadsBatch(c, hs));
      n == if s.KeeperOf(c).Idle? && Loadable(s, c, hs) then s.(keepers := s.keepers[c := Busy(hs, Start)]) else s
  {
    assert (forall i :: 0 <= i < |hs| ==> Waiting(s, c, hs[i])) <==> forall h :: h in hs ==> Waiting(s, c, h);
  }

  // ---------- transfers ----------

  // The fields are there, the receiver is an address, the asset was deployed to the transfer's receiver, and the sender's
  // balance is not less than the amount. No number is less than NaN or minus infinity.
  ghost predicate TransferAsked(s: State, c: Chain, tx: Transfer)
  {
    && tx.status == 2 && tx.data.op == TransferOp && tx.data.protocol != "" && tx.data.tick != "" && tx.data.amt.Some?
    && "0x" <= tx.data.to && |tx.data.to| == 42
    && var a := Asset(tx.data.protocol, tx.data.tick);
    && a in s.deploys && s.deploys[a].to == tx.receiver
    && Account(tx.sender, c, a) in s.balances
    && (tx.data.amt.value.Number().Some? ==> s.balances[Account(tx.sender, c, a)] >= tx.data.amt.value.Number().value)
    && !tx.data.amt.value.PosInfinity?
  }

  lemma TransferCheckIs(s: State, c: Chain, tx: Transfer)
    requires AtPhase(s, c) && s.KeeperOf(c).phase.Start? && CurrentTx(s, c) == tx && tx.version == TransferV
    ensures var n, a := Next(s, TransferChecks(c)), Asset(tx.data.protocol, tx.data.tick);
      if TransferAsked(s, c, tx)
      then n == WithPhase(s, c, TransferReady(Account(tx.sender, c, a), Account(Lower(tx.data.to), c, a), tx.data.amt.value))
      else exists ops :: n == Advance(s.(ops := ops), c)
  {
    hide Advance, WithPhase, SetOp, Lower;
    assert s.(ops := s.ops) == s;
  }

  /** A transfer is accepted if and only if it asks for what its sender has; it is then about to move its amount from its
      sender to the lower-cased address it names, on its chain and in its asset. */
  lemma TransferAcceptedIff(s: State, c: Chain)
    requires AtPhase(s, c) && s.KeeperOf(c).phase.Start? && CurrentTx(s, c).version == TransferV
    ensures var k, tx := Next(s, TransferChecks(c)).KeeperOf(c), CurrentTx(s, c);
      var a := Asset(tx.data.protocol, tx.data.tick);
      && (k.Busy? && !k.phase.Start? <==> TransferAsked(s, c, tx))
      && (k.Busy? && !k.phase.Start? ==>
            tx.data.amt.Some? && k.phase == TransferReady(Account(tx.sender, c, a), Account(Lower(tx.data.to), c, a), tx.data.amt.value))
  {
    hide Next, TransferAsked, Advance, WithPhase, Rest, Lower;
    KeeperAfter(s, c);
    TransferCheckIs(s, c, CurrentTx(s, c));
    if TransferAsked(s, c, CurrentTx(s, c)) {
      AmountThere(s, c, CurrentTx(s, c));
    }
  }

  lemma AmountThere(s: State, c: Chain, tx: Transfer)
    requires TransferAsked(s, c, tx)
    ensures tx.data.amt.Some?
  {
  }

  lemma HeldTransfer(s: State, c: Chain)
    requires Inv(s) && AtPhase(s, c) && s.KeeperOf(c).phase.TransferReady?
    ensures var TransferReady(from, to, amount) := s.KeeperOf(c).phase;
      var tx := CurrentTx(s, c);
      && tx.hash == s.KeeperOf(c).batch[0] && tx.data.amt == Some(amount) && from in s.balances
      && from == Account(tx.sender, c, Asset(tx.data.protocol, tx.data.tick))
      && to == Account(Lower(tx.data.to), c, Asset(tx.data.protocol, tx.data.tick))
  {
    KeeperFact(s, c);
    hide Inv;
  }

  /** Whatever happened since its check, an accepted transfer of a number that is not negative moves it: its sender's
      balance falls by it, that of the lower-cased address it names grows by it, and no other changes. */
  lemma {:induction false} TransferMoves(s: State, c: Chain)
    requires Inv(s) && AtPhase(s, c) && s.KeeperOf(c).phase.TransferReady?
    ensures var n, tx := Next(s, TransferFinishes(c, false)), CurrentTx(s, c);
      var a := Asset(tx.data.protocol, tx.data.tick);
      && tx.data.amt.Some?
      && (if tx.data.amt.value.Number().Some? && tx.data.amt.value.Number().value >= 0.0
          then Passes(s.balances, n.balances, Account(tx.sender, c, a), Account(Lower(tx.data.to), c, a), tx.data.amt.value.Number().value)
               && tx.hash in n.ops && n.ops[tx.hash] == 99
          else n.balances == s.balances && n.ops == s.ops)
  {
    hide Inv, Passes, IncBalance, Advance, Lower;
    HeldTransfer(s, c);
    HandHash(s, c);
    AdvanceTables(c);
    var TransferReady(from, to, amount) := s.KeeperOf(c).phase;
    if amount.Number().Some? {
      IncPasses(s.balances, from, to, amount.Number().value);
    }
  }

  lemma AdvanceTables(c: Chain)
    ensures forall m: State :: Advance(m, c).balances == m.balances && Advance(m, c).ops == m.ops && Advance(m, c).rows == m.rows
  {
  }

  lemma HandHash(s: State, c: Chain)
    requires Inv(s) && AtPhase(s, c)
    ensures CurrentTx(s, c).hash in s.ops && CurrentTx(s, c).hash == s.KeeperOf(c).batch[0] && CurrentTx(s, c).chain == c
  {
    KeeperFact(s, c);
  }

  // ---------- crosses ----------

  // The fields are there, the amount is a whole number of at least 1 that the sender has, the code in the paid amount names
  // another chain where inscriptions run, the fee is paid, and the receiver looks like an address.
  ghost predicate CrossAsked(s: State, c: Chain, tx: Transfer, found: Option<nat>, cfg: Config)
  {
    && tx.status == 2 && tx.data.op == CrossOp && tx.data.protocol != "" && tx.data.tick != ""
    && tx.data.amt.Some? && tx.data.amt.value.Plain? && tx.data.amt.value.v == tx.data.amt.value.v.Floor as real
    && var a := Asset(tx.data.protocol, tx.data.tick);
    && a in s.deploys && s.deploys[a].to == tx.receiver
    && !(found.Some? && found.value in s.rows && s.rows[found.value].status >= 90)
    && tx.nonce < 100000000000000 && tx.chain in cfg.chains
    && tx.securityCode in cfg.byInternalId && cfg.byInternalId[tx.securityCode] in cfg.supported
    && cfg.byInternalId[tx.securityCode] != tx.chain
    && Account(tx.sender, tx.chain, a) in s.balances && s.balances[Account(tx.sender, tx.chain, a)] >= tx.data.amt.value.v
    && cfg.crossFee.Some? && cfg.crossFee.value <= tx.fee
    && ("0x" <= Receiver(tx) || |Receiver(tx)| == 42)
  }

  // The row of a claim or a cross that is accepted.
  function AskedRow(tx: Transfer, cfg: Config, amount: real): Row
    requires tx.securityCode in cfg.byInternalId
  {
    Row(tx.version, tx.hash, tx.chain, tx.sender, tx.nonce, tx.timestamp, Receiver(tx), cfg.byInternalId[tx.securityCode],
        amount, Asset(tx.data.protocol, tx.data.tick), tx.receiver, 0, None)
  }

  // It passes the checks of the handler and those of the builder.
  lemma CrossBuilt(s: State, c: Chain, tx: Transfer, found: Option<nat>, cfg: Config)
    requires tx.version == CrossV
    ensures CrossAsked(s, c, tx, found, cfg) <==>
      && tx.status == 2 && CrossWellFormed(tx.data)
      && tx.data.AssetOf() in s.deploys && s.deploys[tx.data.AssetOf()].to == tx.receiver
      && !(found.Some? && found.value in s.rows && s.rows[found.value].status >= 90)
      && BuildCross(s, tx, cfg).Ok?
    ensures CrossAsked(s, c, tx, found, cfg) ==>
      && tx.securityCode in cfg.byInternalId && tx.data.amt.Some? && tx.data.amt.value.Plain?
      && BuildCross(s, tx, cfg).value == AskedRow(tx, cfg, tx.data.amt.value.v)
  {
    hide Lower;
  }

  lemma CrossCheckIs(s: State, c: Chain, tx: Transfer, found: Option<nat>, cfg: Config)
    requires AtPhase(s, c) && s.KeeperOf(c).phase.Start? && CurrentTx(s, c) == tx && tx.version == CrossV && IsRowOf(s.rows, tx, found)
    ensures var n := Next(s, CrossChecks(c, found, cfg));
      if CrossAsked(s, c, tx, found, cfg)
      then tx.securityCode in cfg.byInternalId && tx.data.amt.Some? && tx.data.amt.value.Plain?
           && n == WithPhase(s, c, CrossReady(found, AskedRow(tx, cfg, tx.data.amt.value.v)))
      else
        var h, built := s.KeeperOf(c).batch[0], BuildCross(s, tx, cfg);
        || n == Advance(s, c)
        || (n == Reject(s, c, h, 42) && !CrossWellFormed(tx.data))
        || (n == Reject(s, c, h, 44) && !(tx.data.AssetOf() in s.deploys && s.deploys[tx.data.AssetOf()].to == tx.receiver))
        || (built.Err? && n == Reject(s, c, h, built.error))
  {
    assert found.Some? ==> found.value in s.rows;
    CrossBuilt(s, c, tx, found, cfg);
    hide Advance, WithPhase, Reject, BuildCross, CrossWellFormed, CrossAsked, IsRowOf, AskedRow;
  }

  lemma RejectRests(s: State, c: Chain)
    requires AtPhase(s, c)
    ensures forall h, code :: Reject(s, c, h, code).KeeperOf(c) == Rest(s.KeeperOf(c).batch)
    ensures Advance(s, c).KeeperOf(c) == Rest(s.KeeperOf(c).batch)
  {
    hide SetOp;
  }

  /** A cross is accepted if and only if it asks for what its sender has and pays for; its row says so. */
  lemma CrossAcceptedIff(s: State, c: Chain, found: Option<nat>, cfg: Config)
    requires AtPhase(s, c) && s.KeeperOf(c).phase.Start? && CurrentTx(s, c).version == CrossV && IsRowOf(s.rows, CurrentTx(s, c), found)
    ensures var k, tx := Next(s, CrossChecks(c, found, cfg)).KeeperOf(c), CurrentTx(s, c);
      && (k.Busy? && !k.phase.Start? <==> CrossAsked(s, c, tx, found, cfg))
      && (k.Busy? && !k.phase.Start? ==>
            tx.securityCode in cfg.byInternalId && tx.data.amt.Some? && tx.data.amt.value.Plain?
            && k.phase == CrossReady(found, AskedRow(tx, cfg, tx.data.amt.value.v)))
  {
    RejectRests(s, c);
    hide Next, CrossAsked, CrossWellFormed, BuildCross, AskedRow, Advance, Reject, WithPhase, Rest, IsRowOf;
    KeeperAfter(s, c);
    CrossCheckIs(s, c, CurrentTx(s, c), found, cfg);
  }

  lemma HeldCross(s: State, c: Chain)
    requires Inv(s) && AtPhase(s, c) && s.KeeperOf(c).phase.CrossReady?
    ensures var row, tx := s.KeeperOf(c).phase.row, CurrentTx(s, c);
      && s.KeeperOf(c).phase.found.None? && row.sourceId == tx.hash == s.KeeperOf(c).batch[0]
      && row.sourceAddress == tx.sender && row.sourceChain == c && row.asset == Asset(tx.data.protocol, tx.data.tick)
      && tx.data.amt.Some? && tx.data.amt.value.Number() == Some(row.targetAmount)
      && !Duplicate(s.rows, row) && s.nextId !in s.rows
  {
    KeeperFact(s, c);
    NotACrossSource(s, CurrentTx(s, c).hash);
    RowVersions(s);
    NextIdFree(s);
    hide Inv;
  }

  /** A new row is cached when it is recent and its version and source are not there, even if its transaction fails late. */
  lemma {:induction false} CrossCached(s: State, c: Chain, outcome: Outcome, recent: bool)
    requires Inv(s) && AtPhase(s, c) && s.KeeperOf(c).phase.CrossReady?
    ensures var row := s.KeeperOf(c).phase.row;
      Next(s, CrossFinishes(c, outcome, recent)).cache ==
        if outcome != FailsEarly && recent && (forall e :: e in s.cache ==> !(e.row.version == row.version && e.row.sourceId == row.sourceId))
        then s.cache + [Cached(s.nextId, row)] else s.cache
  {
    hide Inv, Duplicate, IncBalance, SetOp, AddToCache, Advance, AbortPass;
    HeldCross(s, c);
    CacheAdds(s.cache, Cached(s.nextId, s.KeeperOf(c).phase.row), recent);
    MovesKeepCache(c);
  }

  lemma MovesKeepCache(c: Chain)
    ensures forall m: State :: Advance(m, c).cache == m.cache && AbortPass(m, c).cache == m.cache
  {
  }

  lemma CacheAdds(cache: seq<Cached>, entry: Cached, recent: bool)
    ensures AddToCache(cache, entry, recent) ==
      if recent && (forall e :: e in cache ==> !(e.row.version == entry.row.version && e.row.sourceId == entry.row.sourceId))
      then cache + [entry] else cache
  {
  }

  /** The transaction of an accepted cross takes its amount from its sender and leaves a row for it, or, if it fails,
      leaves rows and balances as they were. The row always goes in: no other for the transfer can be there. */
  lemma {:induction false} CrossTakes(s: State, c: Chain, outcome: Outcome, recent: bool)
    requires Inv(s) && AtPhase(s, c) && s.KeeperOf(c).phase.CrossReady?
    ensures var n, tx := Next(s, CrossFinishes(c, outcome, recent)), CurrentTx(s, c);
      if outcome == Commits then
        && tx.data.amt.Some? && tx.data.amt.value.Number().Some?
        && Shifts(s.balances, n.balances, Account(tx.sender, c, Asset(tx.data.protocol, tx.data.tick)), -tx.data.amt.value.Number().value)
        && s.nextId !in s.rows && n.rows == s.rows[s.nextId := s.KeeperOf(c).phase.row] && tx.hash in n.ops && n.ops[tx.hash] == 1
      else n.balances == s.balances && n.rows == s.rows && n.ops == s.ops
  {
    hide Inv, Shifts, IncBalance, Duplicate, AddToCache, Advance;
    HeldCross(s, c);
    HandHash(s, c);
    var row := s.KeeperOf(c).phase.row;
    IncShifts(s.balances, Account(row.sourceAddress, row.sourceChain, row.asset), -row.targetAmount);
    AdvanceTables(c);
  }

  // ---------- claims ----------

  // The first part reads the deploy record of a claim whose fields are there and whose asset was deployed to its receiver.
  ghost predicate ClaimAsked(s: State, tx: Transfer)
  {
    && tx.status == 2 && tx.version == ClaimV && tx.data.op == ClaimOp && tx.data.protocol != "" && tx.data.tick != ""
    && tx.data.amt.Some? && tx.data.amt.value.Number().Some?
    && tx.data.amt.value.Number().value == tx.data.amt.value.Number().value.Floor as real
    && Asset(tx.data.protocol, tx.data.tick) in s.deploys && s.deploys[Asset(tx.data.protocol, tx.data.tick)].to == tx.receiver
  }

  lemma ClaimReadIs(s: State, t: nat, h: Hash, payloadOp: int)
    requires t !in s.claims && h in s.txs
    ensures var n, a := ClaimRead(s, t, h, payloadOp), Asset(s.txs[h].data.protocol, s.txs[h].data.tick);
      if ClaimAsked(s, s.txs[h]) then a in s.deploys && n == s.(claims := s.claims[t := ReadDeploy(h, payloadOp, s.deploys[a])])
      else n.claims == s.claims
  {
    assert ClaimWellFormed(s.txs[h].data) && s.txs[h].data.op == ClaimOp ==> s.txs[h].data.amt.Some?;
    hide SetOp;
  }

  /** A claim begins if and only if its fields are there and its asset was deployed to its receiver; it works with the
      deploy record of that moment. */
  lemma ClaimBeginsIff(s: State, t: nat, h: Hash, payloadOp: int)
    requires t !in s.claims && h in s.txs
    ensures var n := Next(s, ClaimReads(t, h, payloadOp));
      && (t in n.claims <==> ClaimAsked(s, s.txs[h]))
      && (t in n.claims ==>
            Asset(s.txs[h].data.protocol, s.txs[h].data.tick) in s.deploys
            && n.claims[t] == ReadDeploy(h, payloadOp, s.deploys[Asset(s.txs[h].data.protocol, s.txs[h].data.tick)]))
  {
    hide ClaimRead, ClaimAsked;
    ClaimReadIs(s, t, h, payloadOp);
  }

  // The second part: the amount is a whole number of at least 1, within the limit and with the cap not reached when the deploy
  // record was read; the code in the paid amount names another chain where inscriptions run; the fee is paid.
  ghost predicate ClaimGranted(tx: Transfer, deploy: Deploy, cfg: Config)
  {
    && tx.nonce < 10000000000000 && tx.chain in cfg.chains && deploy.minted < deploy.max as real
    && tx.securityCode in cfg.byInternalId && cfg.byInternalId[tx.securityCode] in cfg.supported
    && cfg.byInternalId[tx.securityCode] != tx.chain
    && tx.data.amt.Some? && tx.data.amt.value.Number().Some?
    && var v := tx.data.amt.value.Number().value;
    && v >= 1.0 && v == v.Floor as real && !JsNumber.Greater(v.Floor, deploy.limit)
    && cfg.claimFee.Some? && cfg.claimFee.value <= tx.fee
  }

  lemma ClaimBuilt(tx: Transfer, deploy: Deploy, cfg: Config)
    requires tx.version == ClaimV
    ensures Build(tx, deploy, cfg).Ok? <==> ClaimGranted(tx, deploy, cfg)
    ensures Build(tx, deploy, cfg).Ok? ==>
      tx.securityCode in cfg.byInternalId && tx.data.amt.Some? && tx.data.amt.value.Number().Some?
      && Build(tx, deploy, cfg).value == AskedRow(tx, cfg, tx.data.amt.value.Number().value)
  {
    hide JsNumber.Greater;
  }

  lemma ClaimCheckIs(s: State, t: nat, found: Option<nat>, cfg: Config)
    requires t in s.claims && s.claims[t].ReadDeploy? && s.claims[t].hash in s.txs && IsRowOf(s.rows, s.txs[s.claims[t].hash], found)
    ensures found.Some? ==> found.value in s.rows
    ensures var ReadDeploy(h, payloadOp, deploy) := s.claims[t];
      ClaimCheck(s, t, found, cfg).claims ==
        if !(found.Some? && s.rows[found.value].status >= 90) && Build(s.txs[h], deploy, cfg).Ok?
           && |Build(s.txs[h], deploy, cfg).value.targetAddress| < 100
        then s.claims[t := ClaimReady(h, payloadOp, found, Build(s.txs[h], deploy, cfg).value)]
        else s.claims - {t}
  {
    hide Build, SetOp;
  }

  /** It goes on to its transaction if and only if it is granted, has no row of status 90 or more, and its sender fits the
      column; its row says so. */
  lemma ClaimGrantedIff(s: State, t: nat, found: Option<nat>, cfg: Config)
    requires Inv(s) && t in s.claims && s.claims[t].ReadDeploy? && IsRowOf(s.rows, s.txs[s.claims[t].hash], found)
    ensures var n, tx := Next(s, ClaimChecks(t, found, cfg)), s.txs[s.claims[t].hash];
      && (t in n.claims <==>
            ClaimGranted(tx, s.claims[t].deploy, cfg) && |tx.sender| < 100 && !(found.Some? && found.value in s.rows && s.rows[found.value].status >= 90))
      && (t in n.claims ==>
            tx.securityCode in cfg.byInternalId && tx.data.amt.Some? && tx.data.amt.value.Number().Some?
            && n.claims[t] == ClaimReady(s.claims[t].hash, s.claims[t].payloadOp, found, AskedRow(tx, cfg, tx.data.amt.value.Number().value)))
  {
    hide Inv, Build, ClaimCheck, ClaimGranted, IsRowOf;
    TaskFact(s, t);
    var tx := s.txs[s.claims[t].hash];
    ClaimBuilt(tx, s.claims[t].deploy, cfg);
    ClaimCheckIs(s, t, found, cfg);
    assert Receiver(tx) == tx.sender;
  }

  // Another delivery of the claim has left its row.
  ghost predicate HasRow(rows: Rows, h: Hash)
  {
    exists id :: id in rows && rows[id].sourceId == h
  }

  lemma HasRowIs(s: State, row: Row)
    requires Inv(s) && RowFor(s.txs, s.deploys.Keys, row)
    ensures Duplicate(s.rows, row) <==> HasRow(s.rows, row.sourceId)
  {
    if HasRow(s.rows, row.sourceId) {
      var id :| id in s.rows && s.rows[id].sourceId == row.sourceId;
      assert RowFor(s.txs, s.deploys.Keys, s.rows[id]);
      hide Inv;
    }
  }

  lemma ClaimFinishIs(s: State, t: nat, fails: bool)
    requires t in s.claims && s.claims[t].ClaimReady? && s.claims[t].found.None?
    ensures var n, row := ClaimFinish(s, t, fails), s.claims[t].row;
      if !fails && !Duplicate(s.rows, row) && s.nextId !in s.rows then
        && n.rows == s.rows[s.nextId := row] && n.deploys == IncMinted(s.deploys, row.asset, row.targetAmount)
        && n.balances == IncBalance(s.balances, Account(row.sourceAddress, row.targetChain, row.asset), row.targetAmount)
      else n.rows == s.rows && n.deploys == s.deploys && n.balances == s.balances
  {
    hide Duplicate, IncMinted, IncBalance, SetOp;
  }

  /** The transaction of a claim that found no row leaves one, credits its sender on the chain it asked for, and counts the
      amount as minted, unless it fails or a row has come in between; then it changes none of the three. */
  lemma {:induction false} ClaimGives(s: State, t: nat, fails: bool)
    requires Inv(s) && t in s.claims && s.claims[t].ClaimReady? && s.claims[t].found.None?
    ensures var n, row, tx := Next(s, ClaimFinishes(t, fails)), s.claims[t].row, s.txs[s.claims[t].hash];
      var a := Asset(tx.data.protocol, tx.data.tick);
      if !fails && !HasRow(s.rows, tx.hash) then
        && a in s.deploys && tx.data.amt.Some? && tx.data.amt.value.Number().Some?
        && var v := tx.data.amt.value.Number().value;
        && Shifts(s.balances, n.balances, Account(tx.sender, row.targetChain, a), v)
        && n.deploys == s.deploys[a := s.deploys[a].(minted := s.deploys[a].minted + v, mintedTx := s.deploys[a].mintedTx + 1)]
        && s.nextId !in s.rows && n.rows == s.rows[s.nextId := row]
      else n.balances == s.balances && n.deploys == s.deploys && n.rows == s.rows
  {
    hide Inv, RowFor, Shifts, IncBalance, Duplicate, HasRow, ClaimFinish;
    TaskFact(s, t);
    var row := s.claims[t].row;
    ClaimColumns(s, t);
    HasRowIs(s, row);
    NextIdFree(s);
    IncShifts(s.balances, Account(row.sourceAddress, row.targetChain, row.asset), row.targetAmount);
    ClaimFinishIs(s, t, fails);
  }

  lemma ClaimColumns(s: State, t: nat)
    requires Inv(s) && t in s.claims && s.claims[t].ClaimReady?
    ensures var row, tx := s.claims[t].row, s.txs[s.claims[t].hash];
      && tx.hash == row.sourceId == s.claims[t].hash && row.sourceAddress == tx.sender && row.asset == Asset(tx.data.protocol, tx.data.tick)
      && row.asset in s.deploys && tx.data.amt.Some? && tx.data.amt.value.Number() == Some(row.targetAmount)
  {
    TaskFact(s, t);
    hide Inv;
  }

  /** One that found its row writes it over, status and payment aside, and neither credits nor counts anything. */
  lemma ClaimRewrites(s: State, t: nat, fails: bool)
    requires Inv(s) && t in s.claims && s.claims[t].ClaimReady? && s.claims[t].found.Some?
    ensures s.claims[t].found.value in s.rows
    ensures var n, id, row := Next(s, ClaimFinishes(t, fails)), s.claims[t].found.value, s.claims[t].row;
      && n.balances == s.balances && n.deploys == s.deploys
      && n.rows == if fails then s.rows else s.rows[id := row.(status := s.rows[id].status, targetId := s.rows[id].targetId)]
  {
    hide Inv, RowFor, ClaimFinish;
    TaskFact(s, t);
    ClaimRewriteIs(s, t, fails);
  }

  lemma ClaimRewriteIs(s: State, t: nat, fails: bool)
    requires t in s.claims && s.claims[t].ClaimReady? && s.claims[t].found.Some? && s.claims[t].found.value in s.rows
    ensures var n, id, row := ClaimFinish(s, t, fails), s.claims[t].found.value, s.claims[t].row;
      && n.balances == s.balances && n.deploys == s.deploys
      && n.rows == if fails then s.rows else s.rows[id := row.(status := s.rows[id].status, targetId := s.rows[id].targetId)]
  {
    hide SetOp, IncBalance, IncMinted, Duplicate;
  }

  /** Either way it marks its transfer valid, unless that was so when it was delivered. */
  lemma {:induction false} ClaimMarks(s: State, t: nat, fails: bool)
    requires Inv(s) && t in s.claims && s.claims[t].ClaimReady?
    ensures var n, h := Next(s, ClaimFinishes(t, fails)), s.claims[t].hash;
      n.ops == if fails || (s.claims[t].found.None? && HasRow(s.rows, h)) || s.claims[t].payloadOp == 1 then s.ops else s.ops[h := 1]
  {
    hide Inv, RowFor, HasRow, ClaimFinish, Duplicate;
    TaskFact(s, t);
    HasRowIs(s, s.claims[t].row);
    NextIdFree(s);
    OpsIn(s, s.claims[t].hash);
    ClaimOps(s, t, fails);
  }

  lemma ClaimOps(s: State, t: nat, fails: bool)
    requires t in s.claims && s.claims[t].ClaimReady? && (s.claims[t].found.Some? ==> s.claims[t].found.value in s.rows)
    ensures ClaimFinish(s, t, fails).ops ==
      if fails || s.claims[t].payloadOp == 1 || (s.claims[t].found.None? && (Duplicate(s.rows, s.claims[t].row) || s.nextId in s.rows))
      then s.ops else SetOp(s.ops, s.claims[t].hash, 1)
  {
    hide SetOp, Duplicate, IncMinted, IncBalance;
  }

  // ---------- deploys ----------

  // The fields are there, the receiver is a maker and the asset has no record.
  ghost predicate DeployAsked(s: State, tx: Transfer, cfg: Config)
  {
    && tx.status == 2 && tx.version == DeployV && tx.data.op == DeployOp && tx.data.protocol != ""
    && tx.data.max.Some? && tx.data.max.value > 0 && tx.data.lim.Some? && tx.data.lim.value > 0
    && tx.receiver in cfg.makers && Asset(tx.data.protocol, tx.data.tick) !in s.deploys
  }

  /** A deploy leaves a record if and only if it is asked for so; the record holds its terms and nothing minted, and other
      records stay as they are. */
  lemma DeployIff(s: State, h: Hash, cfg: Config)
    requires h in s.txs
    ensures var n, tx := Next(s, Deploys(h, cfg)), s.txs[h];
      if DeployAsked(s, tx, cfg) then
        && tx.data.max.Some? && tx.data.lim.Some?
        && n.deploys == s.deploys[Asset(tx.data.protocol, tx.data.tick) := Deploy(tx.receiver, tx.data.max.value, tx.data.lim.value, 0.0, 0)]
      else n.deploys == s.deploys
  {
    var tx := s.txs[h];
    if DeployAsked(s, tx, cfg) {
      assert DeployWellFormed(tx.data);
    } else {
      NotDeployed(s, h, cfg);
    }
    hide SetOp, DeployAsked;
  }

  predicate SameRecords(s: State, n: State)
  {
    n.deploys == s.deploys
  }

  lemma StatusesAside(s: State, ops: Statuses)
    ensures SameRecords(s, s) && SameRecords(s, s.(ops := ops))
  {
  }

  lemma NotDeployed(s: State, h: Hash, cfg: Config)
    requires h in s.txs && !DeployAsked(s, s.txs[h], cfg)
    ensures SameRecords(s, DeployTransfer(s, h, cfg))
  {
    StatusesAside(s, SetOp(s.ops, h, INVALID_OP_PARAMS));
    StatusesAside(s, SetOp(s.ops, h, INVALID_DEPLOY_MAKER));
    hide SetOp, SameRecords;
  }

  // ---------- why a claim or a cross is rejected ----------

  // The check a status stands for does not hold; `fee` is what this kind of transfer has to pay.
  ghost predicate Fails(code: int, tx: Transfer, cfg: Config, fee: Option<real>)
  {
    match code
    case 2 => tx.chain !in cfg.chains
    case 3 => !(tx.securityCode in cfg.byInternalId && cfg.byInternalId[tx.securityCode] in cfg.supported)
    case 45 => tx.securityCode in cfg.byInternalId && cfg.byInternalId[tx.securityCode] == tx.chain
    case 46 => tx.data.amt.None? || tx.data.amt.value.Number().None? || tx.data.amt.value.Number().value < 1.0
               || tx.data.amt.value.Number().value != tx.data.amt.value.Number().value.Floor as real
    case 48 => fee.None?
    case 49 => fee.Some? && fee.value > tx.fee
    case _ => false
  }

  ghost predicate ClaimFails(code: int, tx: Transfer, deploy: Deploy, cfg: Config)
  {
    match code
    case 5 => tx.nonce >= 10000000000000
    case 50 => deploy.minted >= deploy.max as real
    case 43 => tx.data.amt.Some? && tx.data.amt.value.Number().Some? && tx.data.amt.value.Number().value >= 0.0
               && JsNumber.Greater(tx.data.amt.value.Number().value.Floor, deploy.limit)
    case _ => Fails(code, tx, cfg, cfg.claimFee)
  }

  ghost predicate CrossFails(code: int, s: State, tx: Transfer, cfg: Config)
  {
    match code
    case 5 => tx.nonce >= 100000000000000
    case 53 => tx.data.amt.Some? && tx.data.amt.value.Number().Some?
               && (Account(tx.sender, tx.chain, tx.data.AssetOf()) in s.balances ==>
                     s.balances[Account(tx.sender, tx.chain, tx.data.AssetOf())] < tx.data.amt.value.Number().value)
    case 54 => !("0x" <= Receiver(tx)) && |Receiver(tx)| != 42
    case _ => Fails(code, tx, cfg, cfg.crossFee)
  }

  predicate OpsAre(n: State, ops: Statuses)
  {
    n.ops == ops
  }

  lemma TasksAside(s: State, t: nat, ops: Statuses, claims: map<nat, ClaimTask>)
    ensures OpsAre(s, s.ops) && OpsAre(WithoutClaim(s, t), s.ops) && OpsAre(WithoutClaim(s, t).(ops := ops), ops)
    ensures OpsAre(s.(claims := claims), s.ops)
  {
  }

  lemma ClaimCheckOps(s: State, t: nat, found: Option<nat>, cfg: Config)
    requires t in s.claims && s.claims[t].ReadDeploy? && s.claims[t].hash in s.txs && IsRowOf(s.rows, s.txs[s.claims[t].hash], found)
    ensures var h, built := s.claims[t].hash, Build(s.txs[s.claims[t].hash], s.claims[t].deploy, cfg);
      var n := ClaimCheck(s, t, found, cfg);
      OpsAre(n, s.ops) || (built.Err? && OpsAre(n, SetOp(s.ops, h, built.error)))
  {
    var ReadDeploy(h, payloadOp, deploy) := s.claims[t];
    match Build(s.txs[h], deploy, cfg)
    case Err(code) => TasksAside(s, t, SetOp(s.ops, h, code), s.claims);
    case Ok(row) => TasksAside(s, t, s.ops, s.claims[t := ClaimReady(h, payloadOp, found, row)]);
    hide Build, SetOp, WithoutClaim, OpsAre;
  }

  /** The status a rejected claim gets is that of a check it fails. */
  lemma ClaimCodeFails(s: State, t: nat, found: Option<nat>, cfg: Config)
    requires Inv(s) && t in s.claims && s.claims[t].ReadDeploy? && IsRowOf(s.rows, s.txs[s.claims[t].hash], found)
    ensures var n, h := Next(s, ClaimChecks(t, found, cfg)), s.claims[t].hash;
      n.ops == s.ops || exists code :: n.ops == s.ops[h := code] && ClaimFails(code, s.txs[h], s.claims[t].deploy, cfg)
  {
    TaskFact(s, t);
    var h := s.claims[t].hash;
    ClaimErr(s.txs[h], s.claims[t].deploy, cfg);
    ClaimCheckOps(s, t, found, cfg);
    OpsIn(s, h);
    hide Inv, Build, ClaimCheck, IsRowOf, ClaimFails;
  }

  lemma OpsIn(s: State, h: Hash)
    requires Inv(s) && h in s.txs
    ensures h in s.ops
  {
  }

  lemma ClaimErr(tx: Transfer, deploy: Deploy, cfg: Config)
    ensures Build(tx, deploy, cfg).Err? ==> ClaimFails(Build(tx, deploy, cfg).error, tx, deploy, cfg)
  {
    hide JsNumber.Greater;
  }

  lemma CrossErr(s: State, tx: Transfer, cfg: Config)
    requires tx.version == CrossV
    ensures BuildCross(s, tx, cfg).Err? ==> CrossFails(BuildCross(s, tx, cfg).error, s, tx, cfg)
  {
    hide Lower;
  }

  // The fields of a cross are there, and its amount is whole.
  ghost predicate CrossFields(d: CallData)
  {
    && d.op == CrossOp && d.protocol != "" && d.tick != ""
    && d.amt.Some? && d.amt.value.Plain? && d.amt.value.v == d.amt.value.v.Floor as real
  }

  // The asset was deployed to this address.
  ghost predicate DeployedTo(s: State, d: CallData, to: Address)
  {
    Asset(d.protocol, d.tick) in s.deploys && s.deploys[Asset(d.protocol, d.tick)].to == to
  }

  /** A cross gets 42 without its fields and 44 without its deploy record; with both, the status of a check it fails, or none. */
  lemma CrossCodeFails(s: State, c: Chain, found: Option<nat>, cfg: Config)
    requires Inv(s) && AtPhase(s, c) && s.KeeperOf(c).phase.Start? && CurrentTx(s, c).version == CrossV && IsRowOf(s.rows, CurrentTx(s, c), found)
    ensures var n, tx := Next(s, CrossChecks(c, found, cfg)), CurrentTx(s, c);
      if tx.status != 2 then n.ops == s.ops
      else if !CrossFields(tx.data) then n.ops == s.ops[tx.hash := 42]
      else if !DeployedTo(s, tx.data, tx.receiver) then n.ops == s.ops[tx.hash := 44]
      else n.ops == s.ops || exists code :: n.ops == s.ops[tx.hash := code] && CrossFails(code, s, tx, cfg)
  {
    hide Inv, CrossCheck, BuildCross, IsRowOf, CrossFails, CrossFields, CrossWellFormed;
    HandHash(s, c);
    var tx := CurrentTx(s, c);
    CrossErr(s, tx, cfg);
    FieldsAre(tx.data);
    CrossOps(s, c, tx, found, cfg);
  }

  lemma FieldsAre(d: CallData)
    ensures CrossFields(d) <==> CrossWellFormed(d)
  {
  }

  lemma CrossOps(s: State, c: Chain, tx: Transfer, found: Option<nat>, cfg: Config)
    requires AtPhase(s, c) && s.KeeperOf(c).phase.Start? && CurrentTx(s, c) == tx && tx.version == CrossV && IsRowOf(s.rows, tx, found)
    ensures var ops, h, built := CrossCheck(s, c, found, cfg).ops, s.KeeperOf(c).batch[0], BuildCross(s, tx, cfg);
      if tx.status != 2 then ops == s.ops
      else if !CrossWellFormed(tx.data) then ops == SetOp(s.ops, h, 42)
      else if !(tx.data.AssetOf() in s.deploys && s.deploys[tx.data.AssetOf()].to == tx.receiver) then ops == SetOp(s.ops, h, 44)
      else ops == s.ops || (built.Err? && ops == SetOp(s.ops, h, built.error))
  {
    RejectOps(s, c);
    hide BuildCross, IsRowOf, CrossWellFormed, Advance, Reject, WithPhase, SetOp;
  }

  lemma RejectOps(s: State, c: Chain)
    requires AtPhase(s, c)
    ensures forall h, code :: Reject(s, c, h, code).ops == SetOp(s.ops, h, code)
    ensures Advance(s, c).ops == s.ops && forall p :: WithPhase(s, c, p).ops == s.ops
  {
    hide SetOp;
  }

  // The status in hand after a check that gives this code, or none.
  ghost predicate Marked(s: State, n: State, h: Hash, code: Option<int>)
  {
    n.ops == if code.Some? then s.ops[h := code.value] else s.ops
  }

  // Which code the other checks give.
  function DeployCode(tx: Transfer, cfg: Config): Option<int>
  {
    if tx.status != 2 || tx.version != DeployV then None
    else if !(tx.data.op == DeployOp && tx.data.protocol != "" && tx.data.max.Some? && tx.data.max.value > 0
              && tx.data.lim.Some? && tx.data.lim.value > 0) then Some(42)
    else if tx.receiver !in cfg.makers then Some(52)
    else None
  }

  ghost function TransferCode(s: State, c: Chain, tx: Transfer): Option<int>
  {
    if tx.status != 2 then None
    else if !(tx.data.op == TransferOp && tx.data.protocol != "" && tx.data.tick != "" && tx.data.amt.Some?
              && "0x" <= tx.data.to && |tx.data.to| == 42) then Some(42)
    else if !DeployedTo(s, tx.data, tx.receiver) then Some(44)
    else if !TransferAsked(s, c, tx) then Some(53)
    else None
  }

  ghost function CrossOverCode(s: State, tx: Transfer, cfg: Config): Option<int>
  {
    if !(tx.data.op == CrossOverOp && tx.data.protocol != "" && tx.data.tick != ""
         && tx.data.amt.Some? && tx.data.amt.value.Plain? && tx.data.fc.Some?) then Some(42)
    else if !DeployedTo(s, tx.data, tx.sender) then Some(44)
    else if tx.data.fc.value !in cfg.byInternalId then Some(51)
    else None
  }

  ghost function ClaimCode(s: State, tx: Transfer): Option<int>
  {
    if tx.status != 2 || tx.version != ClaimV then None
    else if !(tx.data.op != NoOp && tx.data.protocol != "" && tx.data.tick != "" && tx.data.amt.Some? && tx.data.amt.value.Number().Some?
              && tx.data.amt.value.Number().value == tx.data.amt.value.Number().value.Floor as real) then Some(42)
    else if tx.data.op != ClaimOp then Some(41)
    else if !DeployedTo(s, tx.data, tx.receiver) then Some(44)
    else None
  }

  function MintCode(tx: Transfer, cfg: Config): Option<int>
  {
    if tx.version != MintV then None
    else if !(tx.data.protocol != "" && tx.data.tick != "" && tx.data.amt.Some? && tx.data.amt.value.Plain? && tx.data.fc.Some?) then Some(42)
    else if tx.data.op == MintOp && tx.data.fc.value !in cfg.byInternalId then Some(51)
    else None
  }

  /** The statuses of rejected claims and mints, check by check; a deploy that leaves a record gets 99. */
  lemma FreeStatuses(s: State, t: nat, h: Hash, payloadOp: int, cfg: Config)
    requires Inv(s) && h in s.txs
    ensures t !in s.claims ==> Marked(s, Next(s, ClaimReads(t, h, payloadOp)), h, ClaimCode(s, s.txs[h]))
    ensures t !in s.mints ==> Marked(s, Next(s, MintTries(t, h, cfg, None, false)), h, MintCode(s.txs[h], cfg))
    ensures Marked(s, Next(s, Deploys(h, cfg)), h,
                   if DeployAsked(s, s.txs[h], cfg) then Some(99) else DeployCode(s.txs[h], cfg))
  {
    hide Inv, ClaimRead, MintTry, DeployTransfer, Marked, ClaimCode, MintCode, DeployCode, DeployAsked;
    OpsIn(s, h);
    DeployOps(s, h, cfg);
    if t !in s.claims {
      ClaimReadOps(s, t, h, payloadOp);
    }
    if t !in s.mints {
      MintTryOps(s, t, h, cfg);
    }
  }

  lemma ClaimReadOps(s: State, t: nat, h: Hash, payloadOp: int)
    requires h in s.txs && h in s.ops && t !in s.claims
    ensures Marked(s, ClaimRead(s, t, h, payloadOp), h, ClaimCode(s, s.txs[h]))
  {
    var a := s.txs[h].data.AssetOf();
    SetAside(s, t, SetOp(s.ops, h, 42), s.claims);
    SetAside(s, t, SetOp(s.ops, h, 41), s.claims);
    SetAside(s, t, SetOp(s.ops, h, 44), s.claims);
    if a in s.deploys {
      SetAside(s, t, s.ops, s.claims[t := ReadDeploy(h, payloadOp, s.deploys[a])]);
    }
    assert SetOp(s.ops, h, 42) == s.ops[h := 42] && SetOp(s.ops, h, 41) == s.ops[h := 41] && SetOp(s.ops, h, 44) == s.ops[h := 44];
    MarkedIs(s, h);
    hide OpsAre, Marked, SetOp;
  }

  lemma SetAside(s: State, t: nat, ops: Statuses, claims: map<nat, ClaimTask>)
    ensures OpsAre(s, s.ops) && OpsAre(s.(ops := ops), ops) && OpsAre(s.(claims := claims), s.ops)
  {
  }

  lemma MarkedIs(s: State, h: Hash)
    ensures forall n: State :: OpsAre(n, s.ops) ==> Marked(s, n, h, None)
    ensures forall n: State, code: int :: OpsAre(n, s.ops[h := code]) ==> Marked(s, n, h, Some(code))
  {
  }

  lemma MintTryOps(s: State, t: nat, h: Hash, cfg: Config)
    requires h in s.txs && h in s.ops && t !in s.mints
    ensures Marked(s, MintTry(s, t, h, cfg, None, false), h, MintCode(s.txs[h], cfg))
  {
    MintAside(s, SetOp(s.ops, h, 42), s.mints);
    MintAside(s, SetOp(s.ops, h, 51), s.mints);
    if s.txs[h].data.fc.Some? && s.txs[h].data.fc.value in cfg.byInternalId {
      MintAside(s, s.ops, s.mints[t := MintSearch(h, cfg.byInternalId[s.txs[h].data.fc.value])]);
    }
    assert SetOp(s.ops, h, 42) == s.ops[h := 42] && SetOp(s.ops, h, 51) == s.ops[h := 51];
    MarkedIs(s, h);
    hide OpsAre, Marked, SetOp, MintSave;
  }

  lemma MintAside(s: State, ops: Statuses, mints: map<nat, MintTask>)
    ensures OpsAre(s, s.ops) && OpsAre(s.(ops := ops), ops) && OpsAre(s.(mints := mints), s.ops)
  {
  }

  lemma DeployOps(s: State, h: Hash, cfg: Config)
    requires h in s.txs && h in s.ops
    ensures Marked(s, DeployTransfer(s, h, cfg), h, if DeployAsked(s, s.txs[h], cfg) then Some(99) else DeployCode(s.txs[h], cfg))
  {
  }

  /** And those of rejected transfers and crossovers. */
  lemma KeptStatuses(s: State, c: Chain, cfg: Config)
    requires Inv(s) && AtPhase(s, c) && s.KeeperOf(c).phase.Start?
    ensures CurrentTx(s, c).version == TransferV ==>
              Marked(s, Next(s, TransferChecks(c)), CurrentTx(s, c).hash, TransferCode(s, c, CurrentTx(s, c)))
    ensures CurrentTx(s, c).version == CrossOverV ==>
              Marked(s, Next(s, CrossOverMatches(c, cfg)), CurrentTx(s, c).hash, CrossOverCode(s, CurrentTx(s, c), cfg))
  {
    hide Inv, TransferCheck, CrossOverMatch, Marked, TransferCode, CrossOverCode;
    HandHash(s, c);
    TransferOps(s, c, CurrentTx(s, c));
    CrossOverOps(s, c, CurrentTx(s, c), cfg);
  }

  lemma TransferOps(s: State, c: Chain, tx: Transfer)
    requires AtPhase(s, c) && s.KeeperOf(c).phase.Start? && CurrentTx(s, c) == tx && tx.hash == s.KeeperOf(c).batch[0] && tx.hash in s.ops
    ensures tx.version == TransferV ==> Marked(s, TransferCheck(s, c), tx.hash, TransferCode(s, c, tx))
  {
    RejectOps(s, c);
    hide Advance, Reject, WithPhase, Lower;
  }

  lemma CrossOverOps(s: State, c: Chain, tx: Transfer, cfg: Config)
    requires AtPhase(s, c) && s.KeeperOf(c).phase.Start? && CurrentTx(s, c) == tx && tx.hash == s.KeeperOf(c).batch[0] && tx.hash in s.ops
    ensures tx.version == CrossOverV ==> Marked(s, CrossOverMatch(s, c, cfg), tx.hash, CrossOverCode(s, tx, cfg))
  {
    RejectOps(s, c);
    hide Advance, Reject, WithPhase, FindCached;
  }

  // ---------- mints ----------

  // Its fields are there, and `fc` names a chain.
  ghost predicate MintAsked(tx: Transfer, cfg: Config)
  {
    && tx.version == MintV && tx.data.op == MintOp && tx.data.protocol != "" && tx.data.tick != ""
    && tx.data.amt.Some? && tx.data.amt.value.Plain? && tx.data.fc.Some? && tx.data.fc.value in cfg.byInternalId
  }

  predicate MintsAre(s: State, n: State, mints: map<nat, MintTask>)
  {
    n.rows == s.rows && n.mints == mints
  }

  lemma MintsAside(s: State, ops: Statuses, mints: map<nat, MintTask>)
    ensures MintsAre(s, s, s.mints) && MintsAre(s, s.(ops := ops), s.mints) && MintsAre(s, s.(mints := mints), mints)
  {
  }

  lemma MintTryNone(s: State, t: nat, h: Hash, cfg: Config)
    requires t !in s.mints && h in s.txs
    ensures MintAsked(s.txs[h], cfg) ==> s.txs[h].data.fc.Some? && s.txs[h].data.fc.value in cfg.byInternalId
    ensures MintsAre(s, MintTry(s, t, h, cfg, None, false),
                     if MintAsked(s.txs[h], cfg) then s.mints[t := MintSearch(h, cfg.byInternalId[s.txs[h].data.fc.value])] else s.mints)
  {
    var tx := s.txs[h];
    MintsAside(s, SetOp(s.ops, h, INVALID_OP_PARAMS), s.mints);
    MintsAside(s, SetOp(s.ops, h, INCORRECT_FC), s.mints);
    if tx.data.fc.Some? && tx.data.fc.value in cfg.byInternalId {
      MintsAside(s, s.ops, s.mints[t := MintSearch(h, cfg.byInternalId[tx.data.fc.value])]);
    }
    hide SetOp, MintSave, MintsAre;
  }

  /** A mint that no cached row fits, or whose transaction fails, goes on to the database if and only if it is well formed,
      and looks there among rows of the chain its `fc` names. */
  lemma MintAcceptedIff(s: State, t: nat, h: Hash, cfg: Config)
    requires t !in s.mints && h in s.txs
    ensures var n, tx := Next(s, MintTries(t, h, cfg, None, false)), s.txs[h];
      && (t in n.mints <==> MintAsked(tx, cfg))
      && (t in n.mints ==> tx.data.fc.Some? && tx.data.fc.value in cfg.byInternalId && n.mints[t] == MintSearch(h, cfg.byInternalId[tx.data.fc.value]))
      && n.rows == s.rows
  {
    hide MintTry;
    MintTryNone(s, t, h, cfg);
  }

  // A cached claim row resembles the mint, and is of the chain its `fc` names.
  ghost predicate MintFits(r: Row, tx: Transfer, fromChain: Chain)
  {
    r.version == ClaimV && r.sourceChain == fromChain && Resembles(r, tx)
  }

  /** A mint that the cache answers with a row that fits settles it if and only if its transaction does not fail and its two row
      counts are right; otherwise it goes on to the database. */
  lemma MintMemoryIff(s: State, t: nat, h: Hash, cfg: Config, e: Cached, fails: bool)
    requires Inv(s) && t !in s.mints && h in s.txs && MintAsked(s.txs[h], cfg)
    requires e.id in s.rows ==> s.rows[e.id].sourceId == e.row.sourceId && s.rows[e.id].version == ClaimV
    ensures s.txs[h].data.fc.Some? && s.txs[h].data.fc.value in cfg.byInternalId
    ensures var n, tx, from := Next(s, MintTries(t, h, cfg, Some(e), fails)), s.txs[h], cfg.byInternalId[s.txs[h].data.fc.value];
      if !MintFits(e.row, tx, from) then n == s
      else if !fails && MemoryGoesThrough(s, tx, e.id, e.row.sourceId) && h in s.ops && s.ops[h] in {0, 1} then
        e.id in s.rows && MintSaved(s, n, tx, e.id) && n.mints == s.mints
      else n.rows == s.rows && n.ops == s.ops && n.mints == s.mints[t := MintSearch(h, from)]
  {
    hide Inv, MintTry, MintAsked, MintCached, MemoryGuards, MemoryGoesThrough, MintFits, MintSave, MintSaved;
    MintTrySome(s, t, h, cfg, e, fails);
    var tx, from := s.txs[h], cfg.byInternalId[s.txs[h].data.fc.value];
    HashIs(s, h);
    MintGuards(s, tx, e);
    MintCachedIs(s, tx, from, e);
    if e.id in s.rows {
      SavedIs(s, h, e.id);
    }
    ThroughInRows(s, tx, e.id, e.row.sourceId);
  }

  lemma MintTrySome(s: State, t: nat, h: Hash, cfg: Config, e: Cached, fails: bool)
    requires t !in s.mints && h in s.txs && MintAsked(s.txs[h], cfg)
    ensures s.txs[h].version == MintV && s.txs[h].data.fc.Some? && s.txs[h].data.fc.value in cfg.byInternalId
    ensures var tx, from := s.txs[h], cfg.byInternalId[s.txs[h].data.fc.value];
      MintTry(s, t, h, cfg, Some(e), fails) ==
        if !MintCached(s, tx, from, e) then s
        else if !fails && MemoryGuards(s, tx, e) then MintSave(s, h, e.id)
        else s.(mints := s.mints[t := MintSearch(h, from)])
  {
    hide MintCached, MemoryGuards, MintSave;
  }

  lemma HashIs(s: State, h: Hash)
    requires Inv(s) && h in s.txs
    ensures s.txs[h].hash == h
  {
  }

  lemma ThroughInRows(s: State, tx: Transfer, id: nat, sourceId: Hash)
    ensures MemoryGoesThrough(s, tx, id, sourceId) ==> id in s.rows
  {
  }

  lemma MintCachedIs(s: State, tx: Transfer, from: Chain, e: Cached)
    requires e.id in s.rows ==> s.rows[e.id].sourceId == e.row.sourceId && s.rows[e.id].version == ClaimV
    ensures MintCached(s, tx, from, e) <==> MintFits(e.row, tx, from)
  {
  }

  lemma MintGuards(s: State, tx: Transfer, e: Cached)
    requires Inv(s) && tx.hash in s.txs && s.txs[tx.hash] == tx && tx.version == MintV
    requires e.id in s.rows ==> s.rows[e.id].sourceId == e.row.sourceId
    ensures MemoryGuards(s, tx, e) <==> MemoryGoesThrough(s, tx, e.id, e.row.sourceId) && tx.hash in s.ops && s.ops[tx.hash] in {0, 1}
  {
    if e.id in s.rows {
      RowVersions(s);
      assert RowFor(s.txs, s.deploys.Keys, s.rows[e.id]);
    }
    hide Inv;
  }

  // The row has its payment, and both transfers are closed.
  ghost predicate MintSaved(s: State, n: State, tx: Transfer, id: nat)
    requires id in s.rows
  {
    && n.rows == s.rows[id := s.rows[id].(targetId := Some(tx.hash), status := if tx.status == 3 then 97 else 99)]
    && n.ops.Keys == s.ops.Keys
    && (forall h :: h in s.ops ==> n.ops[h] == if h in {tx.hash, s.rows[id].sourceId} && s.ops[h] in {0, 1} then 99 else s.ops[h])
  }

  lemma SavedIs(s: State, h: Hash, id: nat)
    requires Inv(s) && h in s.txs && s.txs[h].version == MintV && id in s.rows
    ensures MintSaved(s, MintSave(s, h, id), s.txs[h], id) && MintSave(s, h, id).mints == s.mints
  {
    HashIs(s, h);
    hide Inv;
  }

  // The row waits for this amount, from this chain, whatever its version.
  ghost predicate AsksAny(r: Row, tx: Transfer, fromChain: Chain)
  {
    && r.status in {0, 96, 97, 98} && r.targetId == None
    && r.sourceChain == fromChain && r.targetChain == tx.chain && r.targetAddress == tx.receiver
    && r.sourceNonce == tx.value && r.responseMaker == tx.sender && r.asset.tick == tx.data.tick
    && tx.data.amt.Some? && tx.data.amt.value.Number() == Some(r.targetAmount)
  }

  // The search by its outcomes.
  lemma MintFindOutcome(s: State, t: nat, tx: Transfer, pick: Option<nat>)
    requires t in s.mints && s.mints[t].MintSearch? && s.mints[t].hash in s.txs && tx == s.txs[s.mints[t].hash]
    ensures var n, MintSearch(h, from) := MintFind(s, t, pick), s.mints[t];
      && n.rows == s.rows && n.ops == s.ops
      && n.mints ==
        if exists id :: IsPayment(s.rows, tx.chain, tx, id) then
          if pick.Some? && IsPayment(s.rows, tx.chain, tx, pick.value) then s.mints[t := MintFound(h, pick.value)] else s.mints
        else if exists id :: id in s.rows && AsksAny(s.rows[id], tx, from) then
          if pick.Some? && pick.value in s.rows && AsksAny(s.rows[pick.value], tx, from) then s.mints[t := MintFound(h, pick.value)] else s.mints
        else s.mints - {t}
  {
    hide AnyMatch, ByTarget, IsPayment, AsksAny;
    MintMatchIs(s.rows, tx, s.mints[t].fromChain);
    NamedIsPayment(s, tx.chain, tx);
  }

  /** Its search returns a row that names it as its payment if there is one, else one of any version that waits for its
      amount, and gives up if and only if there is neither. */
  lemma MintSearchIff(s: State, t: nat, pick: Option<nat>)
    requires t in s.mints && s.mints[t].MintSearch? && s.mints[t].hash in s.txs
    ensures var n, MintSearch(h, from) := Next(s, MintFinds(t, pick)), s.mints[t];
      var tx := s.txs[h];
      var named := exists id :: IsPayment(s.rows, tx.chain, tx, id);
      && (t !in n.mints <==> !named && forall id :: id in s.rows ==> !AsksAny(s.rows[id], tx, from))
      && (forall id :: t in n.mints && n.mints[t] == MintFound(h, id) <==>
            pick == Some(id) && if named then IsPayment(s.rows, tx.chain, tx, id) else id in s.rows && AsksAny(s.rows[id], tx, from))
      && n.rows == s.rows && n.ops == s.ops
  {
    hide MintFind, IsPayment, AsksAny;
    MintFindOutcome(s, t, s.txs[s.mints[t].hash], pick);
  }

  lemma MintMatchIs(rows: Rows, tx: Transfer, fromChain: Chain)
    ensures forall id :: id in rows ==> (AnyMatch(rows[id], tx, fromChain) <==> AsksAny(rows[id], tx, fromChain))
  {
  }

  /** Its save gives the row it found its payment and closes both transfers. */
  lemma MintSettles(s: State, t: nat)
    requires Inv(s) && t in s.mints && s.mints[t].MintFound?
    requires s.mints[t].hash in s.txs && s.txs[s.mints[t].hash].version == MintV && s.mints[t].id in s.rows
    ensures MintSaved(s, Next(s, MintFinishes(t, false)), s.txs[s.mints[t].hash], s.mints[t].id)
  {
    hide Inv, MintSave;
    MintsApart(s, s.mints - {t});
    SavedIs(s.(mints := s.mints - {t}), s.mints[t].hash, s.mints[t].id);
  }

  // ---------- who is paid ----------

  /** In every reachable state a row says what its source transfer asks: its amount, at least 1 and whole, for the address a
      cross names and else the sender, on another chain, from the maker it was sent to, in an asset that is deployed. */
  lemma {:induction false} RowSaysWhatWasAsked(events: seq<Event>, id: nat)
    requires id in Run(events).rows
    ensures var s := Run(events);
      var r := s.rows[id];
      && r.sourceId in s.txs
      && var tx := s.txs[r.sourceId];
      && tx.hash == r.sourceId && r.version == tx.version && (tx.version == ClaimV || tx.version == CrossV)
      && r.sourceChain == tx.chain && r.sourceAddress == tx.sender && r.sourceNonce == tx.nonce && r.sourceTime == tx.timestamp
      && r.targetAddress == (if tx.version == CrossV && tx.data.to != "" then Lower(tx.data.to) else tx.sender)
      && r.targetChain != tx.chain && r.responseMaker == tx.receiver
      && r.asset == Asset(tx.data.protocol, tx.data.tick) && r.asset in s.deploys
      && tx.data.amt.Some? && tx.data.amt.value.Number() == Some(r.targetAmount)
      && r.targetAmount >= 1.0 && r.targetAmount == r.targetAmount.Floor as real
  {
    RunKeeps(events);
    var s := Run(events);
    hide Run;
    assert RowFor(s.txs, s.deploys.Keys, s.rows[id]);
  }

  /** What a crossover pays goes to the address its cross named, and else to the cross's sender, and it is the cross's
      amount: whether the row was found in memory or in the database. */
  lemma {:induction false} CreditReachesReceiver(s: State, e: Event, id: nat)
    requires Inv(s) && (e.MemoryFinishes? || e.DbFinishes?) && AtPhase(s, e.c) && Credits(s, Next(s, e), id)
    ensures id in s.rows && s.rows[id].sourceId in s.txs
    ensures var cross, tx := s.txs[s.rows[id].sourceId], CurrentTx(s, e.c);
      && cross.version == CrossV && tx.version == CrossOverV && cross.data.amt.Some? && cross.data.amt.value.Number().Some?
      && var receiver := if cross.data.to != "" then Lower(cross.data.to) else cross.sender;
      && tx.receiver == receiver && tx.sender == cross.receiver && tx.value == cross.nonce && tx.chain == e.c
      && Shifts(s.balances, Next(s, e).balances, Account(receiver, e.c, Asset(tx.data.protocol, tx.data.tick)), cross.data.amt.value.Number().value)
  {
    hide Inv, Next, Shifts, MemoryGoesThrough, Lower;
    var n := Next(s, e);
    CreditsOne(s, n, id);
    match e
    case MemoryFinishes(c, fails) =>
      if s.KeeperOf(c).phase.MemoryMatched? {
        MemoryPays(s, c, fails);
        CreditsOne(s, n, s.KeeperOf(c).phase.entry.id);
        MemoryFits(s, c);
        RowAsked(s, id);
      } else {
        NothingCredited(s, c, fails);
      }
    case DbFinishes(c, fails) =>
      if s.KeeperOf(c).phase.Found? {
        SearchPays(s, c, fails);
        CreditsOne(s, n, s.KeeperOf(c).phase.id);
        SearchFits(s, c);
        RowAsked(s, id);
      } else {
        NothingCredited(s, c, fails);
      }
  }

  lemma CreditsOne(s: State, n: State, id: nat)
    ensures Credits(s, n, id) ==> n.credits != s.credits
    ensures Credits(s, n, id) ==> (forall other :: Credits(s, n, other) ==> other == id)
  {
    if Credits(s, n, id) {
      assert n.credits[id] == s.credits[id] + 1;
    }
  }

  lemma NothingCredited(s: State, c: Chain, fails: bool)
    requires AtPhase(s, c)
    ensures !s.KeeperOf(c).phase.MemoryMatched? ==> Next(s, MemoryFinishes(c, fails)).credits == s.credits
    ensures !s.KeeperOf(c).phase.Found? ==> Next(s, DbFinishes(c, fails)).credits == s.credits
  {
  }

  lemma RowAsked(s: State, id: nat)
    requires Inv(s) && id in s.rows && s.rows[id].version == CrossV
    ensures s.rows[id].sourceId in s.txs
    ensures var r, tx := s.rows[id], s.txs[s.rows[id].sourceId];
      && tx.version == CrossV && r.targetAddress == (if tx.data.to != "" then Lower(tx.data.to) else tx.sender)
      && r.sourceNonce == tx.nonce && r.responseMaker == tx.receiver
      && tx.data.amt.Some? && tx.data.amt.value.Number() == Some(r.targetAmount)
  {
    assert RowFor(s.txs, s.deploys.Keys, s.rows[id]);
    hide Inv;
  }
}
