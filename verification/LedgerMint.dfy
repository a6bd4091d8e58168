/**
 What becomes of a cross row. A mint's database search takes rows of any version, so besides its crossover's credit
 there is a second thing that can happen to it: a mint settles it, and nobody is credited. Both directions are proved
 for one event, and for every run that follows.
 */
module LedgerMint {
  import opened Wrappers
  import opened Ledger
  import opened Tables
  import opened Sequences
  import opened Text
  import opened LedgerInvariants
  import opened LedgerConservation
  import opened MapSums

  // ---------- the two ways to settle a row ----------

  // The row an event credits.
  function CreditedRow(s: State, e: Event): Option<nat>
  {
    match e
    case MemoryFinishes(c, fails) =>
      if AtPhase(s, c) && s.KeeperOf(c).phase.MemoryMatched? && !fails && MemoryGuards(s, CurrentTx(s, c), s.KeeperOf(c).phase.entry)
      then Some(s.KeeperOf(c).phase.entry.id) else None
    case DbFinishes(c, fails) =>
      if AtPhase(s, c) && s.KeeperOf(c).phase.Found? && !fails && s.KeeperOf(c).phase.id in s.rows
      then Some(s.KeeperOf(c).phase.id) else None
    case _ => None
  }

  // The row the second transaction of a mint saves. Its first only saves claim rows.
  function MintedRow(s: State, e: Event): Option<nat>
  {
    match e
    case MintFinishes(t, fails) =>
      if t in s.mints && s.mints[t].MintFound? && !fails
         && s.mints[t].hash in s.txs && s.txs[s.mints[t].hash].version == MintV && s.mints[t].id in s.rows
      then Some(s.mints[t].id) else None
    case _ => None
  }

  predicate Takes(s: State, e: Event, id: nat)
  {
    CreditedRow(s, e) == Some(id) || MintedRow(s, e) == Some(id)
  }

  // The maker's client marks the row.
  predicate MakerWrites(s: State, e: Event, id: nat)
  {
    e.MakerPays? && e.id == id && id in s.rows && MakerPay(s, id, e.status, e.payment) != s
  }

  // ---------- what any other event leaves as it was ----------

  ghost predicate CrossRow(s: State, id: nat)
  {
    id in s.rows && s.rows[id].version == CrossV
  }

  // Sources of crosses keep their status once it is not 0.
  ghost predicate SourcesStay(s: State, ops: Statuses)
  {
    forall h :: h in s.txs && s.txs[h].version == CrossV && h in s.ops && s.ops[h] != 0 ==> h in ops && ops[h] == s.ops[h]
  }

  ghost predicate RowStays(s: State, n: State, id: nat)
    requires id in s.rows
  {
    id in n.rows && n.rows[id] == s.rows[id] && n.credits[id] == s.credits[id]
  }

  lemma Source(s: State, id: nat)
    requires Inv(s) && CrossRow(s, id)
    ensures var h := s.rows[id].sourceId;
      h in s.txs && s.txs[h].version == CrossV && h in s.ops && (s.ops[h] == 1 || s.ops[h] == MATCHED)
    ensures s.credits[id] <= 1
    ensures s.credits[id] == 1 ==> s.ops[s.rows[id].sourceId] == MATCHED && s.rows[id].targetId.Some?
  {
    assert RowFor(s.txs, s.deploys.Keys, s.rows[id]) && StatusOk(s.ops, s.rows[id], s.credits[id]);
  }

  lemma OtherStatus(s: State, h: Hash, code: int)
    requires h in s.txs && (s.txs[h].version != CrossV || (h in s.ops && s.ops[h] == 0))
    ensures SourcesStay(s, SetOp(s.ops, h, code))
  {
  }

  lemma SameStatuses(s: State)
    ensures SourcesStay(s, s.ops)
  {
  }

  lemma ClosesOther(s: State, h: Hash, g: Hash, src: Hash)
    requires src != h && src != g && src in s.ops
    ensures src in CloseBoth(s.ops, h, g) && CloseBoth(s.ops, h, g)[src] == s.ops[src]
  {
  }

  // Two cross rows have two sources.
  lemma OtherSource(s: State, id: nat, other: nat)
    requires Inv(s) && id in s.rows && other in s.rows && id != other
    ensures s.rows[id].sourceId != s.rows[other].sourceId
  {
  }

  lemma ArriveStatuses(s: State, tx: Transfer, opStatus: int)
    requires Inv(s)
    ensures SourcesStay(s, Arrive(s, tx, opStatus).ops)
  {
  }

  lemma DeployStatuses(s: State, h: Hash, cfg: Config)
    ensures SourcesStay(s, DeployTransfer(s, h, cfg).ops)
  {
    hide SourcesStay, SetOp;
    SameStatuses(s);
    if h in s.txs && s.txs[h].version == DeployV {
      OtherStatus(s, h, INVALID_OP_PARAMS);
      OtherStatus(s, h, INVALID_DEPLOY_MAKER);
      OtherStatus(s, h, MATCHED);
    }
  }

  lemma ClaimReadStatuses(s: State, t: nat, h: Hash, payloadOp: int)
    ensures SourcesStay(s, ClaimRead(s, t, h, payloadOp).ops)
  {
    hide SourcesStay, SetOp, ClaimWellFormed;
    SameStatuses(s);
    if h in s.txs && s.txs[h].version == ClaimV {
      OtherStatus(s, h, INVALID_OP_PARAMS);
      OtherStatus(s, h, INVALID_OP);
      OtherStatus(s, h, DEPLOY_RECORD_NOT_FOUND);
    }
  }

  lemma ClaimCheckStatuses(s: State, t: nat, found: Option<nat>, cfg: Config)
    requires Inv(s)
    ensures SourcesStay(s, ClaimCheck(s, t, found, cfg).ops)
  {
    hide Inv, RowFor, SourcesStay, SetOp, Build, IsRowOf;
    SameStatuses(s);
    if t in s.claims && s.claims[t].ReadDeploy? && s.claims[t].hash in s.txs {
      var ReadDeploy(h, payloadOp, deploy) := s.claims[t];
      TaskFact(s, t);
      match Build(s.txs[h], deploy, cfg)
      case Err(code) => OtherStatus(s, h, code);
      case Ok(_) =>
    }
  }

  lemma ClaimFinishStatuses(s: State, t: nat, fails: bool)
    requires Inv(s)
    ensures SourcesStay(s, ClaimFinish(s, t, fails).ops)
  {
    hide Inv, RowFor, SourcesStay, SetOp, IncMinted, IncBalance, Duplicate;
    SameStatuses(s);
    if t in s.claims && s.claims[t].ClaimReady? {
      TaskFact(s, t);
      OtherStatus(s, s.claims[t].hash, VALID);
    }
  }

  // A bookkeeper has a transfer at 0 in hand.
  lemma HeldStatus(s: State, c: Chain, code: int)
    requires Inv(s) && AtPhase(s, c)
    ensures SourcesStay(s, SetOp(s.ops, s.KeeperOf(c).batch[0], code)) && SourcesStay(s, s.ops)
    ensures forall m :: Advance(m, c).ops == m.ops && AbortPass(m, c).ops == m.ops
    ensures forall p :: WithPhase(s, c, p).ops == s.ops
  {
    KeeperFact(s, c);
    hide Inv, KeeperOk;
    OtherStatus(s, s.KeeperOf(c).batch[0], code);
  }

  lemma CrossCheckStatuses(s: State, c: Chain, found: Option<nat>, cfg: Config)
    requires Inv(s)
    ensures SourcesStay(s, CrossCheck(s, c, found, cfg).ops)
  {
    hide Inv, SourcesStay, SetOp, BuildCross, CrossWellFormed, IsRowOf, Advance, WithPhase;
    SameStatuses(s);
    if AtPhase(s, c) {
      HeldStatus(s, c, INVALID_OP_PARAMS);
      HeldStatus(s, c, DEPLOY_RECORD_NOT_FOUND);
      match BuildCross(s, CurrentTx(s, c), cfg)
      case Err(code) => HeldStatus(s, c, code);
      case Ok(_) =>
    }
  }

  lemma CrossFinishStatuses(s: State, c: Chain, outcome: Outcome, recent: bool)
    requires Inv(s)
    ensures SourcesStay(s, CrossFinish(s, c, outcome, recent).ops)
  {
    hide Inv, SourcesStay, SetOp, Advance, AbortPass, AddToCache, IncBalance, Duplicate;
    SameStatuses(s);
    if AtPhase(s, c) {
      HeldStatus(s, c, VALID);
    }
  }

  lemma CrossOverStatuses(s: State, c: Chain, cfg: Config)
    requires Inv(s)
    ensures SourcesStay(s, CrossOverMatch(s, c, cfg).ops)
  {
    hide Inv, SourcesStay, SetOp, FindCached, Advance, WithPhase;
    SameStatuses(s);
    if AtPhase(s, c) {
      HeldStatus(s, c, INVALID_OP_PARAMS);
      HeldStatus(s, c, DEPLOY_RECORD_NOT_FOUND);
      HeldStatus(s, c, INCORRECT_FC);
    }
  }

  lemma DbFindStatuses(s: State, c: Chain, pick: Option<nat>)
    ensures DbFind(s, c, pick).ops == s.ops
  {
    hide DbMatch, ByTarget;
    MovesKeepStatuses(s, c);
    hide Advance, WithPhase;
  }

  lemma MovesKeepStatuses(s: State, c: Chain)
    ensures Advance(s, c).ops == s.ops && forall p :: WithPhase(s, c, p).ops == s.ops
  {
  }

  lemma TransferCheckStatuses(s: State, c: Chain)
    requires Inv(s)
    ensures SourcesStay(s, TransferCheck(s, c).ops)
  {
    hide Inv, SourcesStay, SetOp, Lower, LessThan, Advance, WithPhase;
    SameStatuses(s);
    if AtPhase(s, c) {
      HeldStatus(s, c, INVALID_OP_PARAMS);
      HeldStatus(s, c, DEPLOY_RECORD_NOT_FOUND);
      HeldStatus(s, c, NOT_SUFFICIENT_FUNDS);
    }
  }

  lemma TransferFinishStatuses(s: State, c: Chain, fails: bool)
    requires Inv(s)
    ensures SourcesStay(s, TransferFinish(s, c, fails).ops)
  {
    hide Inv, SourcesStay, SetOp, IncBalance, Advance, Writable;
    WritableNumbers();
    SameStatuses(s);
    if AtPhase(s, c) {
      HeldStatus(s, c, MATCHED);
    }
  }

  // Events that settle no row leave the sources of crosses at their status.
  lemma StatusesStay(s: State, e: Event)
    requires Inv(s) && !e.MintTries? && !e.MintFinishes? && !e.MemoryFinishes? && !e.DbFinishes?
    ensures SourcesStay(s, Next(s, e).ops)
  {
    hide Inv, SourcesStay, Arrive, DeployTransfer, ClaimRead, ClaimCheck, ClaimFinish, MintFind, LoadBatch, CrossCheck,
         CrossFinish, CrossOverMatch, DbFind, TransferCheck, TransferFinish, ApartFromMints;
    SameStatuses(s);
    match e
    case Arrives(tx, opStatus) => ArriveStatuses(s, tx, opStatus);
    case Deploys(h, cfg) => DeployStatuses(s, h, cfg);
    case ClaimReads(t, h, payloadOp) => ClaimReadStatuses(s, t, h, payloadOp);
    case ClaimChecks(t, found, cfg) => ClaimCheckStatuses(s, t, found, cfg);
    case ClaimFinishes(t, fails) => ClaimFinishStatuses(s, t, fails);
    case MintFinds(t, pick) => MintFindStatuses(s, t, pick);
    case LoadsBatch(c, hs) => LoadStatuses(s, c, hs);
    case CrossChecks(c, found, cfg) => CrossCheckStatuses(s, c, found, cfg);
    case CrossFinishes(c, outcome, recent) => CrossFinishStatuses(s, c, outcome, recent);
    case CrossOverMatches(c, cfg) => CrossOverStatuses(s, c, cfg);
    case DbFinds(c, pick) => DbFindStatuses(s, c, pick);
    case TransferChecks(c) => TransferCheckStatuses(s, c);
    case TransferFinishes(c, fails) => TransferFinishStatuses(s, c, fails);
    case _ =>
  }

  lemma MintFindStatuses(s: State, t: nat, pick: Option<nat>)
    ensures MintFind(s, t, pick).ops == s.ops
  {
    hide MintFind;
    MintFindIs(s, t, pick);
  }

  lemma LoadStatuses(s: State, c: Chain, hs: seq<Hash>)
    ensures LoadBatch(s, c, hs).ops == s.ops
  {
    hide Distinct, Waiting;
  }

  // ---------- and the row itself ----------

  lemma BooksStay(s: State, n: State, id: nat)
    requires id in s.rows && SameBooks(s, n)
    ensures RowStays(s, n, id)
  {
  }

  // A claim writes its own row, whose source is no cross.
  lemma ClaimFinishRows(s: State, t: nat, fails: bool, id: nat)
    requires Inv(s) && CrossRow(s, id)
    ensures RowStays(s, ClaimFinish(s, t, fails), id)
  {
    hide Inv, RowFor, SetOp, IncMinted, IncBalance, Duplicate;
    if t in s.claims && s.claims[t].ClaimReady? {
      TaskFact(s, t);
      NextIdFree(s);
      RowVersions(s);
    }
  }

  lemma CrossFinishRows(s: State, c: Chain, outcome: Outcome, recent: bool, id: nat)
    requires Inv(s) && id in s.rows
    ensures RowStays(s, CrossFinish(s, c, outcome, recent), id)
  {
    hide Inv, SetOp, IncBalance, Duplicate, AddToCache, Rest;
    if AtPhase(s, c) && s.KeeperOf(c).phase.CrossReady? {
      CrossFact(s, c);
      NextIdFree(s);
    }
  }

  lemma TransferFinishRows(s: State, c: Chain, fails: bool, id: nat)
    requires id in s.rows
    ensures RowStays(s, TransferFinish(s, c, fails), id)
  {
    hide SetOp, IncBalance, Rest, Writable;
    WritableNumbers();
  }

  lemma DeployRows(s: State, h: Hash, cfg: Config, id: nat)
    requires id in s.rows
    ensures RowStays(s, DeployTransfer(s, h, cfg), id)
  {
    hide RowStays, SetOp, DeployWellFormed;
    OnlyDeploys(s, id);
    if h in s.txs && s.txs[h].data.max.Some? && s.txs[h].data.lim.Some? {
      var d := s.txs[h].data;
      assert RowStays(s, s.(deploys := s.deploys[d.AssetOf() := Deploy(s.txs[h].receiver, d.max.value, d.lim.value, 0.0, 0)],
                            ops := SetOp(s.ops, h, MATCHED)), id);
    }
  }

  lemma OnlyDeploys(s: State, id: nat)
    requires id in s.rows
    ensures RowStays(s, s, id) && forall ops :: RowStays(s, s.(ops := ops), id)
    ensures forall deploys, ops :: RowStays(s, s.(deploys := deploys, ops := ops), id)
  {
  }

  lemma MakerRows(s: State, other: nat, status: int, payment: Option<Hash>, id: nat)
    requires id in s.rows && (other != id || MakerPay(s, other, status, payment) == s)
    ensures RowStays(s, MakerPay(s, other, status, payment), id)
  {
  }

  // The source, too, is as it was.
  ghost predicate Untouched(s: State, n: State, id: nat)
    requires id in s.rows && s.rows[id].sourceId in s.ops
  {
    RowStays(s, n, id) && s.rows[id].sourceId in n.ops && n.ops[s.rows[id].sourceId] == s.ops[s.rows[id].sourceId]
  }

  lemma SourceStays(s: State, ops: Statuses, id: nat)
    requires Inv(s) && CrossRow(s, id) && SourcesStay(s, ops)
    ensures s.rows[id].sourceId in s.ops && s.rows[id].sourceId in ops && ops[s.rows[id].sourceId] == s.ops[s.rows[id].sourceId]
  {
    Source(s, id);
  }

  lemma MakesUntouched(s: State, n: State, id: nat)
    requires Inv(s) && CrossRow(s, id) && RowStays(s, n, id) && SourcesStay(s, n.ops)
    ensures s.rows[id].sourceId in s.ops && Untouched(s, n, id)
  {
    SourceStays(s, n.ops, id);
  }

  // A mint saves another row, or a crossover credits one.
  lemma OtherSaved(s: State, h: Hash, other: nat, id: nat)
    requires Inv(s) && CrossRow(s, id) && other != id && s.rows[id].sourceId in s.ops
    ensures Untouched(s, MintSave(s, h, other), id)
  {
    Source(s, id);
    if h in s.txs && s.txs[h].version == MintV && other in s.rows {
      OtherSource(s, id, other);
      ClosesOther(s, h, s.rows[other].sourceId, s.rows[id].sourceId);
    }
    hide Inv, CloseBoth, Settle;
  }

  lemma OtherCredited(s: State, c: Chain, other: nat, r: Row, id: nat)
    requires Inv(s) && CrossRow(s, id) && Creditable(s, c, other, r) && other != id && s.rows[id].sourceId in s.ops
    ensures Untouched(s, Credit(s, c, CurrentTx(s, c), other, r), id)
  {
    hide Inv, KeeperOk, CloseBoth, Settle, IncBalance, Rest;
    Source(s, id);
    KeeperFact(s, c);
    OtherSource(s, id, other);
    CoreKeepsVersion(r, s.rows[other]);
    ClosesOther(s, CurrentTx(s, c).hash, r.sourceId, s.rows[id].sourceId);
  }

  lemma MintRejectStatuses(s: State, n: State, h: Hash)
    requires MintRejects(s, n, h)
    ensures SourcesStay(s, n.ops)
  {
    hide SourcesStay, SetOp;
    SameStatuses(s);
    if h in s.txs && s.txs[h].version == MintV {
      OtherStatus(s, h, INVALID_OP_PARAMS);
      OtherStatus(s, h, INCORRECT_FC);
    }
  }

  lemma MintTryRows(s: State, t: nat, h: Hash, cfg: Config, cached: Option<Cached>, fails: bool, id: nat)
    requires Inv(s) && CrossRow(s, id) && s.rows[id].sourceId in s.ops
    ensures Untouched(s, MintTry(s, t, h, cfg, cached, fails), id)
  {
    hide Inv, MintTry, MintSave, SourcesStay, MintRejects;
    var n := MintTry(s, t, h, cfg, cached, fails);
    MintTryIs(s, t, h, cfg, cached, fails);
    if ApartFromMints(s, n) && MintRejects(s, n, h) {
      MintRejectStatuses(s, n, h);
      MakesUntouched(s, n, id);
    } else {
      OtherSaved(s, h, cached.value.id, id);
    }
  }

  lemma MintFinishRows(s: State, t: nat, fails: bool, id: nat)
    requires Inv(s) && CrossRow(s, id) && MintedRow(s, MintFinishes(t, fails)) != Some(id) && s.rows[id].sourceId in s.ops
    ensures Untouched(s, MintFinish(s, t, fails), id)
  {
    hide Inv, CloseBoth, Settle;
    if t in s.mints && s.mints[t].MintFound? && s.mints[t].id != id {
      MintsApart(s, s.mints - {t});
      OtherSaved(MintBase(s, t), s.mints[t].hash, s.mints[t].id, id);
    }
  }

  lemma MemoryFinishRows(s: State, c: Chain, fails: bool, id: nat)
    requires Inv(s) && CrossRow(s, id) && CreditedRow(s, MemoryFinishes(c, fails)) != Some(id) && s.rows[id].sourceId in s.ops
    ensures Untouched(s, MemoryFinish(s, c, fails), id)
  {
    hide Inv, Credit, Creditable, MemoryGuards, WithPhase;
    HeldPhase(s, c, id);
    if AtPhase(s, c) && s.KeeperOf(c).phase.MemoryMatched? {
      var e := s.KeeperOf(c).phase.entry;
      if !fails && MemoryGuards(s, CurrentTx(s, c), e) {
        MemoryCreditable(s, c);
        OtherCredited(s, c, e.id, e.row, id);
      }
    }
  }

  lemma HeldPhase(s: State, c: Chain, id: nat)
    requires id in s.rows && s.rows[id].sourceId in s.ops
    ensures Untouched(s, s, id) && Untouched(s, AbortPass(s, c), id)
    ensures forall p :: Untouched(s, WithPhase(s, c, p), id)
  {
  }

  lemma DbFinishRows(s: State, c: Chain, fails: bool, id: nat)
    requires Inv(s) && CrossRow(s, id) && CreditedRow(s, DbFinishes(c, fails)) != Some(id) && s.rows[id].sourceId in s.ops
    ensures Untouched(s, DbFinish(s, c, fails), id)
  {
    hide Inv, Credit, Creditable, AbortPass;
    HeldPhase(s, c, id);
    if AtPhase(s, c) && s.KeeperOf(c).phase.Found? && s.KeeperOf(c).phase.id in s.rows {
      FoundCreditable(s, c);
      if s.KeeperOf(c).phase.id != id {
        OtherCredited(s, c, s.KeeperOf(c).phase.id, s.KeeperOf(c).phase.bt, id);
      }
    }
  }

  lemma RowUnwritten(s: State, e: Event, id: nat)
    requires Inv(s) && CrossRow(s, id) && !MakerWrites(s, e, id)
    requires !e.MintTries? && !e.MintFinishes? && !e.MemoryFinishes? && !e.DbFinishes?
    ensures RowStays(s, Next(s, e), id)
  {
    hide Inv, RowStays, SameBooks, Arrive, DeployTransfer, ClaimRead, ClaimCheck, ClaimFinish, MintFind, LoadBatch, CrossCheck,
         CrossFinish, CrossOverMatch, DbFind, TransferCheck, TransferFinish, MakerPay, AbortPass;
    match e
    case Deploys(h, cfg) => DeployRows(s, h, cfg, id);
    case ClaimFinishes(t, fails) => ClaimFinishRows(s, t, fails, id);
    case CrossFinishes(c, outcome, recent) => CrossFinishRows(s, c, outcome, recent, id);
    case TransferFinishes(c, fails) => TransferFinishRows(s, c, fails, id);
    case MakerPays(other, status, payment) => MakerRows(s, other, status, payment, id);
    case _ => QuietEvent(s, e); BooksStay(s, Next(s, e), id);
  }

  // Only a credit, a mint's save and the maker's client touch a cross row or the status of its source.
  lemma CrossRowMoves(s: State, e: Event, id: nat)
    requires Inv(s) && CrossRow(s, id) && !Takes(s, e, id) && !MakerWrites(s, e, id)
    ensures s.rows[id].sourceId in s.ops && Untouched(s, Next(s, e), id)
  {
    hide Inv, RowStays, SourcesStay, Untouched, MintTry, MintFinish, MemoryFinish, DbFinish, CreditedRow, MintedRow, MakerWrites;
    Source(s, id);
    match e
    case MintTries(t, h, cfg, cached, fails) => MintTryRows(s, t, h, cfg, cached, fails, id);
    case MintFinishes(t, fails) => MintFinishRows(s, t, fails, id);
    case MemoryFinishes(c, fails) => MemoryFinishRows(s, c, fails, id);
    case DbFinishes(c, fails) => DbFinishRows(s, c, fails, id);
    case _ =>
      RowUnwritten(s, e, id);
      StatusesStay(s, e);
      MakesUntouched(s, Next(s, e), id);
  }

  // ---------- a mint credits nobody ----------

  lemma MintSaveCreditsNobody(s: State, h: Hash, id: nat, scope: Option<Asset>)
    ensures var n := MintSave(s, h, id);
            n.credits == s.credits && n.balances == s.balances && InFlight(n, scope) == InFlight(s, scope)
  {
    hide Sum, FlightTable, CloseBoth;
    if h in s.txs && id in s.rows {
      FlightMoves(s.rows, s.credits, id, Settle(s.rows[id], s.txs[h]), s.credits, scope);
    }
  }

  // What a mint leaves to the users and to what is on its way.
  ghost predicate NobodyCredited(s: State, n: State, scope: Option<Asset>)
  {
    n.credits == s.credits && n.balances == s.balances && InFlight(n, scope) == InFlight(s, scope)
  }

  lemma MintTryCreditsNobody(s: State, t: nat, h: Hash, cfg: Config, cached: Option<Cached>, fails: bool, scope: Option<Asset>)
    ensures NobodyCredited(s, MintTry(s, t, h, cfg, cached, fails), scope)
  {
    hide MintTry, MintSave, InFlight, ApartFromMints, MintRejects, IsClaim;
    MintTryIs(s, t, h, cfg, cached, fails);
    ApartInFlight(s, MintTry(s, t, h, cfg, cached, fails), scope);
    if cached.Some? { MintSaveCreditsNobody(s, h, cached.value.id, scope); }
  }

  lemma MintFinishCreditsNobody(s: State, t: nat, fails: bool, scope: Option<Asset>)
    ensures NobodyCredited(s, MintFinish(s, t, fails), scope)
  {
    hide MintFinish, MintSave, InFlight;
    MintFinishIs(s, t, fails);
    BaseInFlight(s, t, scope);
    if t in s.mints && s.mints[t].MintFound? {
      MintSaveCreditsNobody(MintBase(s, t), s.mints[t].hash, s.mints[t].id, scope);
    }
  }

  /** No piece of a mint writes a balance, credits a row or takes an amount out of flight, whatever row it settles. */
  lemma MintCreditsNobody(s: State, e: Event, scope: Option<Asset>)
    requires e.MintTries? || e.MintFinds? || e.MintFinishes?
    ensures NobodyCredited(s, Next(s, e), scope)
  {
    hide MintTry, MintFind, MintFinish, ApartFromMints, InFlight;
    match e
    case MintTries(t, h, cfg, cached, fails) => MintTryCreditsNobody(s, t, h, cfg, cached, fails, scope);
    case MintFinds(t, pick) =>
      MintFindIs(s, t, pick);
      ApartInFlight(s, MintFind(s, t, pick), scope);
    case MintFinishes(t, fails) => MintFinishCreditsNobody(s, t, fails, scope);
  }

  lemma ApartInFlight(s: State, n: State, scope: Option<Asset>)
    ensures ApartFromMints(s, n) ==> n.credits == s.credits && n.balances == s.balances && InFlight(n, scope) == InFlight(s, scope)
  {
  }

  lemma BaseInFlight(s: State, t: nat, scope: Option<Asset>)
    ensures InFlight(MintBase(s, t), scope) == InFlight(s, scope)
  {
  }

  // ---------- one event ----------

  // Its amount is on its way, and its source is open for the match that pays it out.
  ghost predicate Owed(s: State, id: nat)
  {
    CrossRow(s, id) && s.credits[id] == 0 && s.rows[id].sourceId in s.ops && s.ops[s.rows[id].sourceId] == 1
  }

  // A crossover's database search can return it, too: see FindableMeans.
  ghost predicate Findable(s: State, id: nat)
  {
    Owed(s, id) && Unsettled(s.rows[id].status) && s.rows[id].targetId.None?
  }

  // Settled without a credit.
  ghost predicate ClosedUnpaid(s: State, id: nat)
  {
    && CrossRow(s, id) && s.credits[id] == 0 && s.rows[id].targetId.Some?
    && s.rows[id].sourceId in s.ops && s.ops[s.rows[id].sourceId] == MATCHED
  }

  lemma MintTaken(s: State, e: Event, id: nat)
    requires Inv(s) && Owed(s, id) && MintedRow(s, e) == Some(id)
    ensures ClosedUnpaid(Next(s, e), id) && Next(s, e).keepers == s.keepers
  {
    hide Inv, SettledStatus;
    MintFinishIs(s, e.t, e.fails);
  }

  lemma CreditTaken(s: State, e: Event, id: nat)
    requires Inv(s) && CreditedRow(s, e) == Some(id)
    ensures Next(s, e).credits[id] > 0
  {
    hide Inv, Creditable, CloseBoth, IncBalance, Rest, Settle;
    match e
    case MemoryFinishes(c, _) => MemoryCreditable(s, c);
    case DbFinishes(c, _) =>
  }

  lemma Marked(s: State, e: Event, id: nat)
    requires Owed(s, id) && MakerWrites(s, e, id)
    ensures Owed(Next(s, e), id) && Unsettled(Next(s, e).rows[id].status) && Next(s, e).rows[id].targetId == e.payment
  {
  }

  lemma OwedStays(s: State, n: State, id: nat)
    requires Owed(s, id) && Untouched(s, n, id)
    ensures Owed(n, id) && n.rows[id] == s.rows[id]
  {
  }

  /** A cross row whose amount is on its way stops being owed exactly when the event is its credit, or a mint's save of it. */
  lemma {:induction false} OwedIff(s: State, e: Event, id: nat)
    requires Inv(s) && Owed(s, id)
    ensures Owed(Next(s, e), id) <==> !Takes(s, e, id)
  {
    hide Inv, Next, CreditedRow, MintedRow, MakerWrites, CrossRow, Untouched;
    if MintedRow(s, e) == Some(id) {
      MintTaken(s, e, id);
    } else if CreditedRow(s, e) == Some(id) {
      CreditTaken(s, e, id);
    } else if MakerWrites(s, e, id) {
      Marked(s, e, id);
    } else {
      CrossRowMoves(s, e, id);
      OwedStays(s, Next(s, e), id);
    }
  }

  /** It can no longer be found in the database exactly then, or when the maker's client writes a payment to it. */
  lemma {:induction false} FindableIff(s: State, e: Event, id: nat)
    requires Inv(s) && Findable(s, id)
    ensures Findable(Next(s, e), id) <==> !Takes(s, e, id) && !(MakerWrites(s, e, id) && e.payment.Some?)
  {
    hide Inv, Next, Takes, MakerWrites, Untouched, Owed;
    OwedIff(s, e, id);
    if MakerWrites(s, e, id) {
      Marked(s, e, id);
    } else if !Takes(s, e, id) {
      OwedIsCross(s, id);
      CrossRowMoves(s, e, id);
      OwedStays(s, Next(s, e), id);
    }
  }

  lemma OwedIsCross(s: State, id: nat)
    requires Owed(s, id)
    ensures CrossRow(s, id)
  {
  }

  /** An owed row can be found if and only if some crossover fits the query's conditions. */
  lemma FindableMeans(s: State, id: nat)
    requires Owed(s, id)
    ensures Findable(s, id) <==> exists tx, fromChain :: DbMatch(s.rows[id], tx, fromChain)
  {
    if Findable(s, id) {
      var r := s.rows[id];
      var data := CallData(CrossOverOp, r.asset.protocol, r.asset.tick, Some(OtherNumber(r.targetAmount)), "", None, None, None);
      var tx := Transfer("", r.targetChain, r.responseMaker, r.targetAddress, 2, CrossOverV, 0, r.sourceNonce, 0.0, 0, 0, data);
      assert DbMatch(r, tx, r.sourceChain);
    }
  }

  // ---------- every run that follows ----------

  // A bookkeeper that has found the row and not yet committed.
  predicate Finding(k: Keeper, id: nat)
  {
    k.Busy? && k.phase.Found? && k.phase.id == id
  }

  ghost predicate NoFinder(keepers: Keepers, id: nat)
  {
    forall c :: c in keepers ==> !Finding(keepers[c], id)
  }

  lemma PhasesFindNothing(s: State, c: Chain, id: nat)
    requires NoFinder(s.keepers, id)
    ensures forall p: Phase :: !(p.Found? && p.id == id) ==> NoFinder(WithPhase(s, c, p).keepers, id)
  {
  }

  // Whatever else an event writes before the bookkeeper moves on.
  lemma MovesFindNothing(s: State, c: Chain, id: nat)
    requires NoFinder(s.keepers, id)
    ensures forall m: State :: m.keepers == s.keepers ==> NoFinder(Advance(m, c).keepers, id)
    ensures forall m: State :: m.keepers == s.keepers ==> NoFinder(AbortPass(m, c).keepers, id)
  {
  }

  lemma CrossCheckFinds(s: State, c: Chain, found: Option<nat>, cfg: Config, id: nat)
    requires NoFinder(s.keepers, id)
    ensures NoFinder(CrossCheck(s, c, found, cfg).keepers, id)
  {
    MovesFindNothing(s, c, id);
    RejectFinds(s, c, id);
    PhasesFindNothing(s, c, id);
    hide NoFinder, Advance, Reject, WithPhase, BuildCross, CrossWellFormed, IsRowOf;
  }

  lemma MovedFrom(s: State, m: State, c: Chain, id: nat)
    requires NoFinder(s.keepers, id) && m.keepers == s.keepers
    ensures NoFinder(Advance(m, c).keepers, id) && NoFinder(AbortPass(m, c).keepers, id)
  {
  }

  lemma CrossFinishFinds(s: State, c: Chain, outcome: Outcome, recent: bool, id: nat)
    requires NoFinder(s.keepers, id)
    ensures NoFinder(CrossFinish(s, c, outcome, recent).keepers, id)
  {
    hide NoFinder, Advance, AbortPass, SetOp, IncBalance, AddToCache, Duplicate;
    MovedFrom(s, s, c, id);
    if AtPhase(s, c) && s.KeeperOf(c).phase.CrossReady? {
      var CrossReady(found, row) := s.KeeperOf(c).phase;
      var ops := SetOp(s.ops, s.KeeperOf(c).batch[0], VALID);
      match found
      case Some(i) =>
        if i in s.rows {
          MovedFrom(s, s.(rows := s.rows[i := row.(status := s.rows[i].status, targetId := s.rows[i].targetId)], ops := ops), c, id);
        }
      case None =>
        var inserted := !outcome.FailsEarly? && !Duplicate(s.rows, row) && s.nextId !in s.rows;
        var base := s.(nextId := s.nextId + 1,
                       cache := if inserted then AddToCache(s.cache, Cached(s.nextId, row), recent) else s.cache);
        MovedFrom(s, base, c, id);
        MovedFrom(s, base.(rows := s.rows[s.nextId := row],
                           balances := IncBalance(s.balances, Account(row.sourceAddress, row.sourceChain, row.asset), -row.targetAmount),
                           ops := ops), c, id);
    }
  }

  lemma RejectFinds(s: State, c: Chain, id: nat)
    requires NoFinder(s.keepers, id)
    ensures forall h, code :: NoFinder(Reject(s, c, h, code).keepers, id)
  {
    MovesFindNothing(s, c, id);
    hide NoFinder, Advance, SetOp;
  }

  lemma CrossOverFinds(s: State, c: Chain, cfg: Config, id: nat)
    requires NoFinder(s.keepers, id)
    ensures NoFinder(CrossOverMatch(s, c, cfg).keepers, id)
  {
    RejectFinds(s, c, id);
    PhasesFindNothing(s, c, id);
    hide NoFinder, Reject, WithPhase, FindCached;
  }

  lemma MemoryFinishFinds(s: State, c: Chain, fails: bool, id: nat)
    requires NoFinder(s.keepers, id)
    ensures NoFinder(MemoryFinish(s, c, fails).keepers, id)
  {
    MovesFindNothing(s, c, id);
    PhasesFindNothing(s, c, id);
    hide NoFinder, Advance, WithPhase, CloseBoth, IncBalance, Settle;
  }

  // Only the database search makes a finder, and only of a row without a payment.
  lemma DbFindFinds(s: State, c: Chain, pick: Option<nat>, id: nat)
    requires NoFinder(s.keepers, id) && id in s.rows && s.rows[id].targetId.Some?
    ensures NoFinder(DbFind(s, c, pick).keepers, id)
  {
    MovesFindNothing(s, c, id);
    PhasesFindNothing(s, c, id);
    hide NoFinder, Advance, WithPhase, ByTarget;
  }

  lemma DbFinishFinds(s: State, c: Chain, fails: bool, id: nat)
    requires NoFinder(s.keepers, id)
    ensures NoFinder(DbFinish(s, c, fails).keepers, id)
  {
    MovesFindNothing(s, c, id);
    hide NoFinder, Advance, AbortPass, CloseBoth, IncBalance, Settle;
  }

  lemma TransferCheckFinds(s: State, c: Chain, id: nat)
    requires NoFinder(s.keepers, id)
    ensures NoFinder(TransferCheck(s, c).keepers, id)
  {
    MovesFindNothing(s, c, id);
    PhasesFindNothing(s, c, id);
    hide NoFinder, Advance, WithPhase, SetOp, Lower, LessThan, TransferWellFormed;
    ReadyIsNoFinder();
  }

  lemma ReadyIsNoFinder()
    ensures forall from, to, amount :: !TransferReady(from, to, amount).Found?
  {
  }

  lemma TransferFinishFinds(s: State, c: Chain, fails: bool, id: nat)
    requires NoFinder(s.keepers, id)
    ensures NoFinder(TransferFinish(s, c, fails).keepers, id)
  {
    MovesFindNothing(s, c, id);
    hide NoFinder, Advance, SetOp, IncBalance, Writable;
    WritableNumbers();
  }

  lemma LoadFinds(s: State, c: Chain, hs: seq<Hash>, id: nat)
    requires NoFinder(s.keepers, id)
    ensures NoFinder(LoadBatch(s, c, hs).keepers, id)
  {
    hide Distinct, Waiting;
  }

  predicate SameKeepers(s: State, n: State)
  {
    n.keepers == s.keepers
  }

  lemma TablesAside(s: State)
    ensures SameKeepers(s, s) && forall ops :: SameKeepers(s, s.(ops := ops))
    ensures forall deploys, ops :: SameKeepers(s, s.(deploys := deploys, ops := ops))
    ensures forall claims :: SameKeepers(s, s.(claims := claims))
    ensures forall t :: SameKeepers(s, WithoutClaim(s, t))
    ensures forall t, ops :: SameKeepers(s, WithoutClaim(s, t).(ops := ops))
  {
  }

  lemma DeployKeepers(s: State, h: Hash, cfg: Config)
    ensures SameKeepers(s, DeployTransfer(s, h, cfg))
  {
    TablesAside(s);
    hide SameKeepers, SetOp, DeployWellFormed;
    if h in s.txs && s.txs[h].data.max.Some? && s.txs[h].data.lim.Some? {
      var d := s.txs[h].data;
      assert SameKeepers(s, s.(deploys := s.deploys[d.AssetOf() := Deploy(s.txs[h].receiver, d.max.value, d.lim.value, 0.0, 0)],
                               ops := SetOp(s.ops, h, MATCHED)));
    }
  }

  lemma ClaimReadKeepers(s: State, t: nat, h: Hash, payloadOp: int)
    ensures SameKeepers(s, ClaimRead(s, t, h, payloadOp))
  {
    TablesAside(s);
    hide SameKeepers, SetOp, ClaimWellFormed;
    if h in s.txs && s.txs[h].data.AssetOf() in s.deploys {
      assert SameKeepers(s, s.(claims := s.claims[t := ReadDeploy(h, payloadOp, s.deploys[s.txs[h].data.AssetOf()])]));
    }
  }

  lemma ClaimCheckKeepers(s: State, t: nat, found: Option<nat>, cfg: Config)
    ensures SameKeepers(s, ClaimCheck(s, t, found, cfg))
  {
    TablesAside(s);
    hide SameKeepers, WithoutClaim, SetOp, Build, IsRowOf;
    if t in s.claims && s.claims[t].ReadDeploy? && s.claims[t].hash in s.txs {
      var task := s.claims[t];
      match Build(s.txs[task.hash], task.deploy, cfg)
      case Err(code) => assert SameKeepers(s, WithoutClaim(s, t).(ops := SetOp(s.ops, task.hash, code)));
      case Ok(row) => assert SameKeepers(s, s.(claims := s.claims[t := ClaimReady(task.hash, task.payloadOp, found, row)]));
    }
  }

  lemma ClaimFinishKeepers(s: State, t: nat, fails: bool)
    ensures SameKeepers(s, ClaimFinish(s, t, fails))
  {
    hide SetOp, IncMinted, IncBalance, Duplicate;
  }

  lemma MintSaveKeepers(s: State, h: Hash, id: nat)
    ensures SameKeepers(s, MintSave(s, h, id))
  {
    hide CloseBoth, Settle;
  }

  lemma MintTryKeepers(s: State, t: nat, h: Hash, cfg: Config, cached: Option<Cached>, fails: bool)
    ensures SameKeepers(s, MintTry(s, t, h, cfg, cached, fails))
  {
    hide MintTry, MintSave, MintRejects, IsClaim;
    MintTryIs(s, t, h, cfg, cached, fails);
    if cached.Some? { MintSaveKeepers(s, h, cached.value.id); }
  }

  lemma MintFindKeepers(s: State, t: nat, pick: Option<nat>)
    ensures SameKeepers(s, MintFind(s, t, pick))
  {
    hide MintFind;
    MintFindIs(s, t, pick);
  }

  lemma MintFinishKeepers(s: State, t: nat, fails: bool)
    ensures SameKeepers(s, MintFinish(s, t, fails))
  {
    hide MintFinish, MintSave;
    MintFinishIs(s, t, fails);
    if t in s.mints && s.mints[t].MintFound? { MintSaveKeepers(MintBase(s, t), s.mints[t].hash, s.mints[t].id); }
  }

  predicate OfNoKeeper(e: Event)
  {
    e.Arrives? || e.Deploys? || e.ClaimReads? || e.ClaimChecks? || e.ClaimFinishes? || e.MintTries? || e.MintFinds? || e.MintFinishes?
    || e.CacheDrops? || e.MakerPays?
  }

  lemma PlainKeepers(s: State, e: Event)
    ensures e.Arrives? || e.CacheDrops? || e.MakerPays? ==> Next(s, e).keepers == s.keepers
  {
    hide DeployTransfer, ClaimRead, ClaimCheck, ClaimFinish, MintTry, MintFind, MintFinish, LoadBatch, CrossCheck,
         CrossFinish, CrossOverMatch, MemoryFinish, DbFind, DbFinish, TransferCheck, TransferFinish, AbortPass;
  }

  lemma OtherKeepers(s: State, e: Event)
    ensures OfNoKeeper(e) ==> Next(s, e).keepers == s.keepers
  {
    PlainKeepers(s, e);
    hide Arrive, DeployTransfer, ClaimRead, ClaimCheck, ClaimFinish, MintTry, MintFind, MintFinish, MakerPay, DropCached;
    match e
    case Deploys(h, cfg) => DeployKeepers(s, h, cfg);
    case ClaimReads(t, h, payloadOp) => ClaimReadKeepers(s, t, h, payloadOp);
    case ClaimChecks(t, found, cfg) => ClaimCheckKeepers(s, t, found, cfg);
    case ClaimFinishes(t, fails) => ClaimFinishKeepers(s, t, fails);
    case MintTries(t, h, cfg, cached, fails) => MintTryKeepers(s, t, h, cfg, cached, fails);
    case MintFinds(t, pick) => MintFindKeepers(s, t, pick);
    case MintFinishes(t, fails) => MintFinishKeepers(s, t, fails);
    case _ =>
  }

  lemma NoNewFinder(s: State, e: Event, id: nat)
    requires NoFinder(s.keepers, id) && id in s.rows && s.rows[id].targetId.Some?
    ensures NoFinder(Next(s, e).keepers, id)
  {
    OtherKeepers(s, e);
    hide Arrive, DeployTransfer, ClaimRead, ClaimCheck, ClaimFinish, MintTry, MintFind, MintFinish, LoadBatch, CrossCheck, MakerPay,
         CrossFinish, CrossOverMatch, MemoryFinish, DbFind, DbFinish, TransferCheck, TransferFinish, AbortPass, DropCached;
    match e
    case LoadsBatch(c, hs) => LoadFinds(s, c, hs, id);
    case CrossChecks(c, found, cfg) => CrossCheckFinds(s, c, found, cfg, id);
    case CrossFinishes(c, outcome, recent) => CrossFinishFinds(s, c, outcome, recent, id);
    case CrossOverMatches(c, cfg) => CrossOverFinds(s, c, cfg, id);
    case MemoryFinishes(c, fails) => MemoryFinishFinds(s, c, fails, id);
    case DbFinds(c, pick) => DbFindFinds(s, c, pick, id);
    case DbFinishes(c, fails) => DbFinishFinds(s, c, fails, id);
    case TransferChecks(c) => TransferCheckFinds(s, c, id);
    case TransferFinishes(c, fails) => TransferFinishFinds(s, c, fails, id);
    case PassThrows(c) => MovedFrom(s, s, c, id);
    case _ =>
  }

  // A closed row is credited only by who found it before.
  lemma UnpaidStays(s: State, e: Event, id: nat)
    requires Inv(s) && ClosedUnpaid(s, id) && NoFinder(s.keepers, id)
    ensures ClosedUnpaid(Next(s, e), id) && NoFinder(Next(s, e).keepers, id)
  {
    hide Inv, Next, MintedRow, CrossRow, Untouched;
    UnpaidIsCross(s, id);
    NoNewFinder(s, e, id);
    NotCreditedClosed(s, e, id);
    if MintedRow(s, e) == Some(id) {
      MintedAgain(s, e, id);
    } else {
      CrossRowMoves(s, e, id);
      UnpaidUntouched(s, Next(s, e), id);
    }
  }

  lemma UnpaidIsCross(s: State, id: nat)
    requires ClosedUnpaid(s, id)
    ensures CrossRow(s, id) && s.rows[id].targetId.Some?
    ensures forall e :: !MakerWrites(s, e, id)
  {
  }

  lemma NotCreditedClosed(s: State, e: Event, id: nat)
    requires Inv(s) && ClosedUnpaid(s, id) && NoFinder(s.keepers, id)
    ensures CreditedRow(s, e) != Some(id)
  {
    hide Inv, Creditable;
    match e
    case MemoryFinishes(c, _) => ClosedNotGuarded(s, c, id);
    case _ =>
  }

  lemma ClosedNotGuarded(s: State, c: Chain, id: nat)
    requires Inv(s) && ClosedUnpaid(s, id)
    ensures CreditedRow(s, MemoryFinishes(c, false)) != Some(id)
  {
    hide Inv;
    if AtPhase(s, c) && s.KeeperOf(c).phase.MemoryMatched? && MemoryGuards(s, CurrentTx(s, c), s.KeeperOf(c).phase.entry) {
      MemoryCreditable(s, c);
      CoreKeepsVersion(s.KeeperOf(c).phase.entry.row, s.rows[s.KeeperOf(c).phase.entry.id]);
    }
  }

  lemma MintedAgain(s: State, e: Event, id: nat)
    requires ClosedUnpaid(s, id) && MintedRow(s, e) == Some(id)
    ensures ClosedUnpaid(Next(s, e), id)
  {
    hide SettledStatus;
    MintFinishIs(s, e.t, e.fails);
  }

  lemma UnpaidUntouched(s: State, n: State, id: nat)
    requires ClosedUnpaid(s, id) && Untouched(s, n, id)
    ensures ClosedUnpaid(n, id)
  {
  }

  lemma RunStep(events: seq<Event>, e: Event)
    ensures Run(events + [e]) == Next(Run(events), e)
  {
    hide Next;
    var all := events + [e];
    assert all[..|all| - 1] == events && all[|all| - 1] == e;
  }

  lemma {:induction false} UnpaidForEver(events: seq<Event>, more: seq<Event>, id: nat)
    requires ClosedUnpaid(Run(events), id) && NoFinder(Run(events).keepers, id)
    ensures ClosedUnpaid(Run(events + more), id) && NoFinder(Run(events + more).keepers, id)
  {
    hide Run, Next, ClosedUnpaid, NoFinder;
    if more == [] {
      assert events + more == events;
    } else {
      var rest := more[..|more| - 1];
      UnpaidForEver(events, rest, id);
      assert events + more == events + rest + [more[|more| - 1]];
      RunStep(events + rest, more[|more| - 1]);
      RunKeeps(events + rest);
      UnpaidStays(Run(events + rest), more[|more| - 1], id);
    }
  }

  lemma CreditableRow(s: State, c: Chain)
    requires AtPhase(s, c) && s.KeeperOf(c).phase.Found? && Creditable(s, c, s.KeeperOf(c).phase.id, s.KeeperOf(c).phase.bt)
    ensures s.KeeperOf(c).phase.id in s.rows
  {
  }

  lemma FinderPays(s: State, c: Chain, id: nat)
    requires Inv(s) && c in s.keepers && Finding(s.keepers[c], id)
    ensures Next(s, DbFinishes(c, false)).credits[id] > 0
  {
    hide Inv, KeeperOk, Creditable, Next, PhaseOk;
    KeeperFact(s, c);
    FoundCreditable(s, c);
    CreditableRow(s, c);
    CreditTaken(s, DbFinishes(c, false), id);
  }

  /** A cross row that was closed without a credit is never paid out, whatever follows, if and only if no bookkeeper had
      found it before and has still to commit. */
  lemma {:induction false} NeverPaidIff(events: seq<Event>, id: nat)
    requires ClosedUnpaid(Run(events), id)
    ensures (forall more :: Run(events + more).credits[id] == 0) <==> NoFinder(Run(events).keepers, id)
  {
    hide Run, Next;
    var s := Run(events);
    if NoFinder(s.keepers, id) {
      forall more
        ensures Run(events + more).credits[id] == 0
      {
        UnpaidForEver(events, more, id);
      }
    } else {
      var c :| c in s.keepers && Finding(s.keepers[c], id);
      RunKeeps(events);
      FinderPays(s, c, id);
      RunStep(events, DbFinishes(c, false));
      assert Run(events + [DbFinishes(c, false)]).credits[id] > 0;
    }
  }

  /** A mint that takes an owed cross row closes it without a credit, for good if no bookkeeper has found it before. */
  lemma MintStrands(events: seq<Event>, e: Event, id: nat)
    requires Owed(Run(events), id) && MintedRow(Run(events), e) == Some(id)
    ensures ClosedUnpaid(Run(events + [e]), id)
    ensures (forall more :: Run(events + [e] + more).credits[id] == 0) <==> NoFinder(Run(events).keepers, id)
  {
    hide Run, Next, ClosedUnpaid, NoFinder;
    RunKeeps(events);
    MintTaken(Run(events), e, id);
    RunStep(events, e);
    NeverPaidIff(events + [e], id);
  }
}
