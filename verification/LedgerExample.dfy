/**
 Two runs from the empty database. In both a user claims five units of the protocol "first" and crosses them from chain 1
 to chain 2. In the first run a crossover of the protocol "second" then finds the row and pays it out under its own
 protocol; in the second a mint finds it and closes it, and nobody is ever paid.
 */
module LedgerExample {
  import opened Wrappers
  import opened Ledger
  import opened Sequences
  import opened Tables
  import opened Text
  import opened LedgerInvariants
  import opened LedgerConservation
  import opened LedgerMint
  import JsNumber

  const USER := "0xuser"
  const FIRST := Asset("first", "tick")
  const SECOND := Asset("second", "tick")
  const CFG := Config({1, 2}, map[1 := 1, 2 := 2], {1, 2}, Some(0.0), Some(0.0), {"maker"})
  const FIVE := Some(Plain(5.0))

  function Deployment(hash: Hash, protocol: string): Transfer
  {
    Transfer(hash, 1, "issuer", "maker", 2, DeployV, 0, 0, 0.0, 0, 0,
             CallData(DeployOp, protocol, "tick", None, "", None, Some(100), Some(10)))
  }

  const D1 := Deployment("d1", "first")
  const D2 := Deployment("d2", "second")
  const CLAIM := Transfer("claim", 2, USER, "maker", 2, ClaimV, 0, 0, 0.0, 1, 0,
                          CallData(ClaimOp, "first", "tick", FIVE, "", None, None, None))
  const CROSS := Transfer("cross", 1, USER, "maker", 2, CrossV, 7, 0, 0.0, 2, 0,
                          CallData(CrossOp, "first", "tick", FIVE, "", None, None, None))
  const CROSSOVER := Transfer("crossover", 2, "maker", USER, 2, CrossOverV, 0, 7, 0.0, 0, 0,
                              CallData(CrossOverOp, "second", "tick", FIVE, "", Some(1), None, None))
  const MINT := Transfer("mint", 2, "maker", USER, 2, MintV, 0, 7, 0.0, 0, 0,
                         CallData(MintOp, "first", "tick", FIVE, "", Some(1), None, None))

  const FRESH := Deploy("maker", 100, 10, 0.0, 0)
  const CLAIM_ROW := Row(ClaimV, "claim", 2, USER, 0, 0, USER, 1, 5.0, FIRST, "maker", 0, None)
  const CROSS_ROW := Row(CrossV, "cross", 1, USER, 7, 0, USER, 2, 5.0, FIRST, "maker", 0, None)

  // ---------- the common part ----------

  const NO_CLAIMS: map<nat, ClaimTask> := map[]
  const NO_MINTS: map<nat, MintTask> := map[]

  const S1 := Empty.(txs := map["d1" := D1], ops := map["d1" := 0])
  const S2 := S1.(txs := map["d1" := D1, "d2" := D2], ops := map["d1" := 0, "d2" := 0])
  const S3 := S2.(deploys := map[FIRST := FRESH], ops := map["d1" := 99, "d2" := 0])
  const S4 := S3.(deploys := map[FIRST := FRESH, SECOND := FRESH], ops := map["d1" := 99, "d2" := 99])
  const S5 := S4.(txs := map["d1" := D1, "d2" := D2, "claim" := CLAIM], ops := map["d1" := 99, "d2" := 99, "claim" := 0])
  const S6 := S5.(claims := map[0 := ReadDeploy("claim", 0, FRESH)])
  const S7 := S5.(claims := map[0 := ClaimReady("claim", 0, None, CLAIM_ROW)])
  const S8 := S5.(rows := map[1 := CLAIM_ROW], nextId := 2, ops := map["d1" := 99, "d2" := 99, "claim" := 1],
                  deploys := map[FIRST := Deploy("maker", 100, 10, 5.0, 1), SECOND := FRESH],
                  balances := map[Account(USER, 1, FIRST) := 5.0])
  const S9 := S8.(txs := map["d1" := D1, "d2" := D2, "claim" := CLAIM, "cross" := CROSS],
                  ops := map["d1" := 99, "d2" := 99, "claim" := 1, "cross" := 0])
  const S10 := S9.(keepers := map[1 := Busy(["cross"], Start)])
  const S11 := S9.(keepers := map[1 := Busy(["cross"], CrossReady(None, CROSS_ROW))])
  const S12 := S9.(rows := map[1 := CLAIM_ROW, 2 := CROSS_ROW], nextId := 3, keepers := map[1 := Idle],
                   ops := map["d1" := 99, "d2" := 99, "claim" := 1, "cross" := 1],
                   balances := map[Account(USER, 1, FIRST) := 0.0])

  const CLAIM_AND_CROSS: seq<Event> := [
    Arrives(D1, 0), Arrives(D2, 0), Deploys("d1", CFG), Deploys("d2", CFG),
    Arrives(CLAIM, 0), ClaimReads(0, "claim", 0), ClaimChecks(0, None, CFG), ClaimFinishes(0, false),
    Arrives(CROSS, 0), LoadsBatch(1, ["cross"]), CrossChecks(1, None, CFG), CrossFinishes(1, Commits, false)]

  lemma Deployments()
    ensures Next(Empty, Arrives(D1, 0)) == S1
    ensures Next(S1, Arrives(D2, 0)) == S2
    ensures Next(S2, Deploys("d1", CFG)) == S3
    ensures Next(S3, Deploys("d2", CFG)) == S4
  {
    assert SetOp(S2.ops, "d1", MATCHED) == S3.ops;
    assert SetOp(S3.ops, "d2", MATCHED) == S4.ops;
  }

  lemma LimitKept()
    ensures !OverLimit(5.0, 10)
  {
    JsNumber.RoundExact(5);
    JsNumber.RoundExact(10);
    assert (5.0).Floor == 5;
  }

  lemma ClaimRow()
    ensures Build(CLAIM, FRESH, CFG) == Ok(CLAIM_ROW)
  {
    LimitKept();
    hide OverLimit;
    assert FIVE.value.IsInteger() && FIVE.value.Number() == Some(5.0);
    assert !CapReached(FRESH);
    assert TargetChain(CLAIM, CFG) == Some(1);
  }

  lemma ClaimArrived()
    ensures Next(S4, Arrives(CLAIM, 0)) == S5
  {
  }

  lemma ClaimRequested()
    ensures Next(S5, ClaimReads(0, "claim", 0)) == S6
  {
    assert ClaimWellFormed(CLAIM.data);
    hide ClaimWellFormed;
  }

  lemma ClaimChecked()
    ensures Next(S6, ClaimChecks(0, None, CFG)) == S7
  {
    ClaimRow();
    hide Build;
    assert S6.claims[0] == ReadDeploy("claim", 0, FRESH) && S6.txs["claim"] == CLAIM;
    assert IsRowOf(S6.rows, CLAIM, None);
    hide IsRowOf;
  }

  // A claim that is committed.
  lemma ClaimCommits(s: State, t: nat, h: Hash, row: Row)
    requires t in s.claims && s.claims[t] == ClaimReady(h, 0, None, row)
    requires !Duplicate(s.rows, row) && s.nextId !in s.rows
    ensures Next(s, ClaimFinishes(t, false))
         == s.(claims := s.claims - {t}, nextId := s.nextId + 1, rows := s.rows[s.nextId := row],
               deploys := IncMinted(s.deploys, row.asset, row.targetAmount),
               balances := IncBalance(s.balances, Account(row.sourceAddress, row.targetChain, row.asset), row.targetAmount),
               ops := SetOp(s.ops, h, VALID))
  {
    hide Duplicate, IncMinted, IncBalance, SetOp;
  }

  lemma ClaimWrites()
    ensures SetOp(S7.ops, "claim", VALID) == S8.ops && IncMinted(S7.deploys, FIRST, 5.0) == S8.deploys
    ensures IncBalance(S7.balances, Account(USER, 1, FIRST), 5.0) == S8.balances
    ensures !Duplicate(S7.rows, CLAIM_ROW)
  {
  }

  lemma ClaimCommitted()
    ensures Next(S7, ClaimFinishes(0, false)) == S8
  {
    ClaimWrites();
    hide Next, SetOp, IncMinted, IncBalance, Duplicate;
    ClaimCommits(S7, 0, "claim", CLAIM_ROW);
    assert S7.claims - {0} == NO_CLAIMS && S7.rows[1 := CLAIM_ROW] == S8.rows;
  }

  lemma CrossLoaded()
    ensures Next(S8, Arrives(CROSS, 0)) == S9
    ensures Next(S9, LoadsBatch(1, ["cross"])) == S10
  {
    assert Waiting(S9, 1, "cross");
  }

  lemma CrossRow()
    ensures BuildCross(S10, CROSS, CFG) == Ok(CROSS_ROW)
  {
    assert S10.balances == S8.balances;
    assert FIVE.value.IsInteger() && FIVE.value.Number() == Some(5.0);
    assert "0x" <= USER;
    assert TargetChain(CROSS, CFG) == Some(2);
    hide Lower;
  }

  // A cross that passes its checks.
  lemma CrossPasses(s: State, c: Chain, tx: Transfer, cfg: Config, row: Row)
    requires AtPhase(s, c) && s.KeeperOf(c).phase.Start? && CurrentTx(s, c) == tx && tx.version == CrossV && tx.status == 2
    requires CrossWellFormed(tx.data) && tx.data.AssetOf() in s.deploys && s.deploys[tx.data.AssetOf()].to == tx.receiver
    requires IsRowOf(s.rows, tx, None) && BuildCross(s, tx, cfg) == Ok(row)
    ensures Next(s, CrossChecks(c, None, cfg)) == WithPhase(s, c, CrossReady(None, row))
  {
    hide BuildCross, CrossWellFormed, IsRowOf, Advance, Reject, WithPhase;
  }

  lemma CrossInHand()
    ensures AtPhase(S10, 1) && S10.KeeperOf(1) == Busy(["cross"], Start) && CurrentTx(S10, 1) == CROSS
    ensures IsRowOf(S10.rows, CROSS, None) && CROSS.data.AssetOf() == FIRST
    ensures FIRST in S10.deploys && S10.deploys[FIRST].to == CROSS.receiver
  {
  }

  lemma CrossChecked()
    ensures Next(S10, CrossChecks(1, None, CFG)) == S11
  {
    assert FIVE.value.IsInteger();
    assert CrossWellFormed(CROSS.data);
    CrossRow();
    CrossInHand();
    hide BuildCross, CrossWellFormed, IsRowOf;
    CrossPasses(S10, 1, CROSS, CFG, CROSS_ROW);
    assert WithPhase(S10, 1, CrossReady(None, CROSS_ROW)) == S11;
    hide Next;
  }

  // A cross that is committed, too late for the cache.
  lemma CrossCommits(s: State, c: Chain, row: Row)
    requires AtPhase(s, c) && s.KeeperOf(c).phase == CrossReady(None, row) && |s.KeeperOf(c).batch| == 1
    requires !Duplicate(s.rows, row) && s.nextId !in s.rows
    ensures Next(s, CrossFinishes(c, Commits, false))
         == s.(nextId := s.nextId + 1, rows := s.rows[s.nextId := row],
               balances := IncBalance(s.balances, Account(row.sourceAddress, row.sourceChain, row.asset), -row.targetAmount),
               ops := SetOp(s.ops, s.KeeperOf(c).batch[0], VALID), keepers := s.keepers[c := Idle])
  {
    assert AddToCache(s.cache, Cached(s.nextId, row), false) == s.cache;
    hide Duplicate, IncBalance, SetOp, AddToCache;
  }

  lemma CrossStands()
    ensures AtPhase(S11, 1) && S11.KeeperOf(1) == Busy(["cross"], CrossReady(None, CROSS_ROW))
    ensures !Duplicate(S11.rows, CROSS_ROW) && S11.nextId == 2 && 2 !in S11.rows
  {
  }

  lemma CrossWrites()
    ensures SetOp(S11.ops, "cross", VALID) == S12.ops
    ensures IncBalance(S11.balances, Account(USER, 1, FIRST), -5.0) == S12.balances
  {
  }

  lemma CrossCommitted()
    ensures Next(S11, CrossFinishes(1, Commits, false)) == S12
  {
    CrossStands();
    CrossWrites();
    hide Next, SetOp, IncBalance, Duplicate, AtPhase;
    CrossCommits(S11, 1, CROSS_ROW);
    assert S11.rows[2 := CROSS_ROW] == S12.rows;
  }

  lemma RunPrefix(events: seq<Event>, k: nat)
    requires k < |events|
    ensures Run(events[..k + 1]) == Next(Run(events[..k]), events[k])
  {
    hide Next;
    assert events[..k + 1][..k] == events[..k];
  }

  lemma NothingYet()
    ensures Run([]) == Empty
  {
  }

  lemma Replay(events: seq<Event>)
    requires events == CLAIM_AND_CROSS
    ensures Run(events) == S12
  {
    hide Run, Next;
    RunPrefix(events, 0);
    RunPrefix(events, 1);
    RunPrefix(events, 2);
    RunPrefix(events, 3);
    RunPrefix(events, 4);
    RunPrefix(events, 5);
    RunPrefix(events, 6);
    RunPrefix(events, 7);
    RunPrefix(events, 8);
    RunPrefix(events, 9);
    RunPrefix(events, 10);
    RunPrefix(events, 11);
    assert events[..0] == [] && events[..12] == events;
    NothingYet();
    Deployments();
    ClaimArrived();
    ClaimRequested();
    ClaimChecked();
    ClaimCommitted();
    CrossLoaded();
    CrossChecked();
    CrossCommitted();
    assert Run(events[..4]) == S4;
    assert Run(events[..8]) == S8;
    assert Run(events[..10]) == S10;
  }

  // ---------- a crossover of another protocol ----------

  const S13 := S12.(txs := map["d1" := D1, "d2" := D2, "claim" := CLAIM, "cross" := CROSS, "crossover" := CROSSOVER],
                    ops := map["d1" := 99, "d2" := 99, "claim" := 1, "cross" := 1, "crossover" := 0])
  const S14 := S13.(keepers := map[1 := Idle, 2 := Busy(["crossover"], Start)])
  const S15 := S13.(keepers := map[1 := Idle, 2 := Busy(["crossover"], SearchDb(1))])
  const S16 := S13.(keepers := map[1 := Idle, 2 := Busy(["crossover"], Found(2, CROSS_ROW))])

  const CROSSED_OVER: seq<Event> := CLAIM_AND_CROSS + [
    Arrives(CROSSOVER, 0), LoadsBatch(2, ["crossover"]), CrossOverMatches(2, CFG), DbFinds(2, Some(2))]

  lemma CrossOverArrived()
    ensures Next(S12, Arrives(CROSSOVER, 0)) == S13
  {
  }

  lemma CrossOverLoaded()
    ensures Next(S13, LoadsBatch(2, ["crossover"])) == S14
  {
    assert Waiting(S13, 2, "crossover");
    hide Waiting;
    assert S13.keepers[2 := Busy(["crossover"], Start)] == S14.keepers;
  }

  lemma CrossOverInHand()
    ensures AtPhase(S14, 2) && S14.KeeperOf(2) == Busy(["crossover"], Start) && CurrentTx(S14, 2) == CROSSOVER
    ensures S14.cache == [] && CROSSOVER.data.AssetOf() == SECOND && SECOND in S14.deploys && S14.deploys[SECOND].to == "maker"
  {
    assert S14.deploys == S8.deploys;
  }

  // A crossover that fits nothing in the cache.
  lemma CrossOverSearches(s: State, c: Chain, tx: Transfer, cfg: Config, fromChain: Chain)
    requires AtPhase(s, c) && s.KeeperOf(c).phase.Start? && CurrentTx(s, c) == tx && tx.version == CrossOverV
    requires CrossOverWellFormed(tx.data) && tx.data.AssetOf() in s.deploys && s.deploys[tx.data.AssetOf()].to == tx.sender
    requires tx.data.fc.value in cfg.byInternalId && cfg.byInternalId[tx.data.fc.value] == fromChain
    requires FindCached(s.cache, tx, fromChain) == None
    ensures Next(s, CrossOverMatches(c, cfg)) == WithPhase(s, c, SearchDb(fromChain))
  {
    hide FindCached, WithPhase, Reject;
  }

  lemma CrossOverFits()
    ensures CrossOverWellFormed(CROSSOVER.data) && FindCached([], CROSSOVER, 1) == None
    ensures CROSSOVER.data.fc == Some(1) && 1 in CFG.byInternalId && CFG.byInternalId[1] == 1
  {
  }

  lemma CrossOverMatched()
    ensures Next(S14, CrossOverMatches(2, CFG)) == S15
  {
    CrossOverInHand();
    CrossOverFits();
    hide FindCached, CrossOverWellFormed, AtPhase, Next, WithPhase;
    CrossOverSearches(S14, 2, CROSSOVER, CFG, 1);
    PhaseSet(S14, 2, ["crossover"], SearchDb(1));
    assert S14.keepers[2 := Busy(["crossover"], SearchDb(1))] == S15.keepers;
  }

  // A search that finds a row by what it asks for.
  lemma SearchFinds(s: State, c: Chain, tx: Transfer, fromChain: Chain, id: nat)
    requires AtPhase(s, c) && s.KeeperOf(c).phase == SearchDb(fromChain) && CurrentTx(s, c) == tx
    requires id in s.rows && DbMatch(s.rows[id], tx, fromChain) && forall i :: !ByTarget(s, c, tx, i)
    ensures Next(s, DbFinds(c, Some(id))) == WithPhase(s, c, Found(id, s.rows[id]))
  {
    hide DbMatch, ByTarget, WithPhase, Advance;
  }

  lemma RowFits()
    ensures AtPhase(S15, 2) && S15.KeeperOf(2) == Busy(["crossover"], SearchDb(1)) && CurrentTx(S15, 2) == CROSSOVER
    ensures S15.rows == S12.rows && S15.rows[2] == CROSS_ROW && DbMatch(CROSS_ROW, CROSSOVER, 1)
    ensures forall i :: !ByTarget(S15, 2, CROSSOVER, i)
  {
  }

  lemma RowFound()
    ensures Next(S15, DbFinds(2, Some(2))) == S16
  {
    RowFits();
    hide Next, DbMatch, ByTarget, AtPhase, WithPhase;
    SearchFinds(S15, 2, CROSSOVER, 1, 2);
    PhaseSet(S15, 2, ["crossover"], Found(2, CROSS_ROW));
    assert S15.keepers[2 := Busy(["crossover"], Found(2, CROSS_ROW))] == S16.keepers;
  }

  lemma PhaseSet(s: State, c: Chain, batch: seq<Hash>, p: Phase)
    requires s.KeeperOf(c).Busy? && s.KeeperOf(c).batch == batch
    ensures WithPhase(s, c, p) == s.(keepers := s.keepers[c := Busy(batch, p)])
  {
  }

  lemma ReplayCrossOver(events: seq<Event>)
    requires events == CROSSED_OVER
    ensures Run(events) == S16
  {
    hide Run, Next;
    RunPrefix(events, 12);
    RunPrefix(events, 13);
    RunPrefix(events, 14);
    RunPrefix(events, 15);
    assert events[..12] == CLAIM_AND_CROSS && events[..16] == events;
    Replay(CLAIM_AND_CROSS);
    CrossOverArrived();
    CrossOverLoaded();
    CrossOverMatched();
    RowFound();
  }

  lemma PaysOther()
    ensures CreditMade(S16, DbFinishes(2, false)) == Some(Payment(SECOND, FIRST, 5.0))
  {
    assert AtPhase(S16, 2) && CurrentTx(S16, 2) == CROSSOVER;
  }

  // No event before the last makes a credit.
  lemma NoCreditYet(events: seq<Event>)
    requires events == CROSSED_OVER
    ensures AllDirected(events)
  {
    hide Run;
    forall i | 0 <= i < |events|
      ensures Directed(CreditMade(Run(events[..i]), events[i]))
    {
      assert !events[i].MemoryFinishes? && !events[i].DbFinishes?;
    }
  }

  /** The protocol of a crossover is not compared with its row's: at the end of this run the row of the first protocol has
      been paid out under the second, whose users hold five units of which none was minted. */
  lemma ProtocolNotCompared()
    ensures var s := Run(CROSSED_OVER + [DbFinishes(2, false)]);
            Held(s, Some(SECOND)) + InFlight(s, Some(SECOND)) == Minted(s, Some(SECOND)) + 5.0
  {
    hide Run, Inv, Next, CreditMade, Held, InFlight, Minted, AllDirected;
    ReplayCrossOver(CROSSED_OVER);
    NoCreditYet(CROSSED_OVER);
    AssetConservation(CROSSED_OVER, SECOND);
    RunKeeps(CROSSED_OVER);
    RunStep(CROSSED_OVER, DbFinishes(2, false));
    FiveTooMany();
  }

  lemma FiveTooMany()
    requires Inv(S16)
    ensures Drift(Next(S16, DbFinishes(2, false)), Some(SECOND)) == Drift(S16, Some(SECOND)) + 5.0
  {
    PaysOther();
    hide Inv, Next, CreditMade, Drift;
    NextDrift(S16, DbFinishes(2, false), Some(SECOND));
    assert Misdirected(Some(Payment(SECOND, FIRST, 5.0)), Some(SECOND)) == 5.0;
  }

  // ---------- a mint ----------

  const T13 := S12.(txs := map["d1" := D1, "d2" := D2, "claim" := CLAIM, "cross" := CROSS, "mint" := MINT],
                    ops := map["d1" := 99, "d2" := 99, "claim" := 1, "cross" := 1, "mint" := 0])
  const T14 := T13.(mints := map[0 := MintSearch("mint", 1)])
  const T15 := T13.(mints := map[0 := MintFound("mint", 2)])

  const MINTED: seq<Event> := CLAIM_AND_CROSS + [
    Arrives(MINT, 0), MintTries(0, "mint", CFG, None, false), MintFinds(0, Some(2))]

  lemma MintArrived()
    ensures Next(S12, Arrives(MINT, 0)) == T13
  {
  }

  // A mint that fits nothing in the cache.
  lemma MintSearches(s: State, t: nat, h: Hash, cfg: Config, fromChain: Chain)
    requires t !in s.mints && h in s.txs && s.txs[h].version == MintV && MintWellFormed(s.txs[h].data) && s.txs[h].data.op == MintOp
    requires s.txs[h].data.fc.value in cfg.byInternalId && cfg.byInternalId[s.txs[h].data.fc.value] == fromChain
    ensures Next(s, MintTries(t, h, cfg, None, false)) == s.(mints := s.mints[t := MintSearch(h, fromChain)])
  {
    hide MintSave;
  }

  lemma MintTried()
    ensures Next(T13, MintTries(0, "mint", CFG, None, false)) == T14
  {
    assert MintWellFormed(MINT.data) && T13.txs["mint"] == MINT && T13.mints == NO_MINTS;
    hide MintWellFormed, Next;
    MintSearches(T13, 0, "mint", CFG, 1);
  }

  // A mint's search that finds a row by what it asks for.
  lemma MintFindsRow(s: State, t: nat, h: Hash, fromChain: Chain, id: nat)
    requires t in s.mints && s.mints[t] == MintSearch(h, fromChain) && h in s.txs
    requires id in s.rows && AnyMatch(s.rows[id], s.txs[h], fromChain) && forall i :: !ByTarget(s, s.txs[h].chain, s.txs[h], i)
    ensures Next(s, MintFinds(t, Some(id))) == s.(mints := s.mints[t := MintFound(h, id)])
  {
    hide AnyMatch, ByTarget;
  }

  lemma MintFits()
    ensures T14.rows == S12.rows && T14.rows[2] == CROSS_ROW && T14.txs["mint"] == MINT && AnyMatch(CROSS_ROW, MINT, 1)
    ensures forall i :: !ByTarget(T14, 2, MINT, i)
  {
  }

  lemma MintFoundRow()
    ensures Next(T14, MintFinds(0, Some(2))) == T15
  {
    MintFits();
    hide Next, AnyMatch, ByTarget;
    MintFindsRow(T14, 0, "mint", 1, 2);
    assert T14.mints[0 := MintFound("mint", 2)] == T15.mints;
  }

  lemma ReplayMint(events: seq<Event>)
    requires events == MINTED
    ensures Run(events) == T15
  {
    hide Run, Next;
    RunPrefix(events, 12);
    RunPrefix(events, 13);
    RunPrefix(events, 14);
    assert events[..12] == CLAIM_AND_CROSS && events[..15] == events;
    Replay(CLAIM_AND_CROSS);
    MintArrived();
    MintTried();
    MintFoundRow();
  }

  lemma RowIsOwed()
    ensures Owed(T15, 2) && MintedRow(T15, MintFinishes(0, false)) == Some(2) && NoFinder(T15.keepers, 2)
  {
    assert T15.rows == S12.rows && T15.ops["cross"] == 1;
  }

  /** A mint's search has no version filter: at the end of this run it has closed the cross row, which was owed, and the
      row is credited in no run that goes on from there. */
  lemma MintTakesCross()
    ensures Owed(Run(MINTED), 2)
    ensures ClosedUnpaid(Run(MINTED + [MintFinishes(0, false)]), 2)
    ensures forall more :: Run(MINTED + [MintFinishes(0, false)] + more).credits[2] == 0
  {
    ReplayMint(MINTED);
    RowIsOwed();
    hide Run, Owed, ClosedUnpaid, MintedRow, NoFinder;
    MintStrands(MINTED, MintFinishes(0, false), 2);
  }
}
