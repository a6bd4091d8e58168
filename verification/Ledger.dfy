/**
 The inscription ledger: the deploy records, user balances and bridge rows of the database, the in-memory
 cache of cross rows, and the handlers that move amounts between them.

 Claims and mints run concurrently. Cross, crossover and transfer handlers run inside one bookkeeper per chain, and
 bookkeepers of different chains interleave freely. Every handler is cut where it may be interleaved: into
 what it reads and decides, and into the transaction it then commits or rolls back. An `Event` is one such
 piece, `Next` is what it does to the state, and an event that is not possible in a state changes nothing,
 so every sequence of events is a run.
 */
module Ledger {
  import opened Wrappers
  import opened Sequences
  import opened Tables
  import opened Text
  import JsNumber

  type Address = string   // lower-cased when a transfer is stored
  type Chain = nat        // position of the chain in the configuration

  datatype Asset = Asset(protocol: string, tick: string)
  datatype Account = Account(address: Address, chain: Chain, asset: Asset)

  // ---------- transfers as the crawler stored them ----------

  type FromOne = v: real | v >= 1.0 witness 1.0

  // What BigNumber makes of the text of `amt`. Plain: the text matches /^[1-9]\d*(\.\d+)?$/.
  datatype Amount = Plain(v: FromOne) | OtherNumber(n: real) | NotANumber | PosInfinity | NegInfinity
  {
    function Number(): Option<real>
    {
      match this
      case Plain(v) => Some(v)
      case OtherNumber(n) => Some(n)
      case _ => None
    }

    // decimalPlaces() === 0: null for what is not finite
    predicate IsInteger()
    {
      Number().Some? && Number().value == Number().value.Floor as real
    }
  }

  datatype Op = DeployOp | ClaimOp | MintOp | TransferOp | CrossOp | CrossOverOp | NoOp

  // 3-0, 3-1, 3-2, 3-3, 3-4, 3-5
  datatype Version = ClaimV | MintV | DeployV | CrossV | CrossOverV | TransferV

  // An absent or empty text is "" and an absent or empty amount is None.
  datatype CallData = CallData(op: Op, protocol: string, tick: string, amt: Option<Amount>, to: string,
                               fc: Option<nat>, max: Option<nat>, lim: Option<nat>)
  {
    predicate Named()
    {
      op != NoOp && protocol != "" && tick != ""
    }

    function AssetOf(): Asset
    {
      Asset(protocol, tick)
    }
  }

  datatype Transfer = Transfer(hash: Hash, chain: Chain, sender: Address, receiver: Address, status: int,
                               version: Version, nonce: nat, value: nat, fee: real, securityCode: nat,
                               timestamp: int, data: CallData)

  // ---------- the tables ----------

  datatype Deploy = Deploy(to: Address, max: nat, limit: nat, minted: real, mintedTx: nat)

  datatype Row = Row(version: Version, sourceId: Hash, sourceChain: Chain, sourceAddress: Address,
                     sourceNonce: nat, sourceTime: int, targetAddress: Address, targetChain: Chain,
                     targetAmount: real, asset: Asset, responseMaker: Address, status: int,
                     targetId: Option<Hash>)
  {
    // Everything but the two columns settlement writes.
    function Core(): Row
    {
      this.(status := 0, targetId := None)
    }
  }

  datatype Cached = Cached(id: nat, row: Row)

  // ---------- handlers in progress ----------

  datatype ClaimTask =
    | ReadDeploy(hash: Hash, payloadOp: int, deploy: Deploy)
    | ClaimReady(hash: Hash, payloadOp: int, found: Option<nat>, row: Row)

  // A mint searching the database, or holding on to the row it found.
  datatype MintTask =
    | MintSearch(hash: Hash, fromChain: Chain)
    | MintFound(hash: Hash, id: nat)

  datatype Phase =
    | Start
    | CrossReady(found: Option<nat>, row: Row)
    | MemoryMatched(fromChain: Chain, entry: Cached)
    | SearchDb(fromChain: Chain)
    | FoundByTarget(id: nat)
    | Found(id: nat, bt: Row)
    | TransferReady(from: Account, to: Account, amount: Amount)

  // The bookkeeper of a chain holds the transfers it loaded, and is in the middle of the first of them.
  datatype Keeper = Idle | Busy(batch: seq<Hash>, phase: Phase)

  // Settings a handler reads: environment, and not the same from one event to the next.
  datatype Config = Config(chains: set<Chain>, byInternalId: map<nat, Chain>, supported: set<Chain>,
                           claimFee: Option<real>, crossFee: Option<real>, makers: set<Address>)

  datatype State = State(
    txs: map<Hash, Transfer>,
    ops: map<Hash, int>,            // opStatus
    deploys: map<Asset, Deploy>,
    balances: map<Account, real>,
    rows: map<nat, Row>,
    nextId: nat,                    // a database sequence: not given back on rollback
    cache: seq<Cached>,
    claims: map<nat, ClaimTask>,
    mints: map<nat, MintTask>,
    keepers: map<Chain, Keeper>,
    credits: multiset<nat>)         // one entry for every crossover credit, under the row it was made for
  {
    function KeeperOf(c: Chain): Keeper
    {
      if c in keepers then keepers[c] else Idle
    }
  }

  const Empty := State(map[], map[], map[], map[], map[], 1, [], map[], map[], map[], multiset{})

  // ---------- status codes ----------

  const VALID := 1
  const TARGET_NOT_FOUND := 3
  const SOURCE_NOT_FOUND := 2
  const NONCE_EXCEED_MAXIMUM := 5
  const INVALID_OP := 41
  const INVALID_OP_PARAMS := 42
  const CLAIM_AMOUNT_EXCEED_LIMIT := 43
  const DEPLOY_RECORD_NOT_FOUND := 44
  const CLAIM_MUST_CROSS_CHAIN := 45
  const AMOUNT_MUST_BE_INTEGER := 46
  const INCORRECT_PROTOCOL := 47
  const CHARING_RULE_NOT_FOUND := 48
  const CHARING_TOO_LOW := 49
  const CLAIM_EXCEED_MAXIMUM := 50
  const INCORRECT_FC := 51
  const INVALID_DEPLOY_MAKER := 52
  const NOT_SUFFICIENT_FUNDS := 53
  const CROSS_INVALID_TARGET_ADDRESS := 54
  const MATCHED := 99

  function SettledStatus(tx: Transfer): int
  {
    if tx.status == 3 then PAID_CRASH else BRIDGE_SUCCESS
  }

  // ---------- statements the handlers share ----------

  // INSERT ... ON CONFLICT DO UPDATE SET balance = EXCLUDED.balance + user_balance.balance
  function IncBalance(balances: map<Account, real>, account: Account, v: real): map<Account, real>
  {
    balances[account := (if account in balances then balances[account] else 0.0) + v]
  }

  function Settle(r: Row, tx: Transfer): Row
  {
    r.(targetId := Some(tx.hash), status := SettledStatus(tx))
  }

  // What a lookup by source transfer may return: the row, or nothing when there is none.
  predicate IsRowOf(rows: map<nat, Row>, tx: Transfer, found: Option<nat>)
  {
    match found
    case Some(id) => id in rows && rows[id].sourceId == tx.hash && rows[id].sourceChain == tx.chain
    case None => forall id :: id in rows ==> !(rows[id].sourceId == tx.hash && rows[id].sourceChain == tx.chain)
  }

  // The unique index on (sourceId, sourceChain) refuses the insert.
  predicate Duplicate(rows: map<nat, Row>, row: Row)
  {
    exists id :: id in rows && rows[id].sourceId == row.sourceId && rows[id].sourceChain == row.sourceChain
  }

  function WithoutClaim(s: State, t: nat): State
  {
    s.(claims := s.claims - {t})
  }

  // ---------- deploy ----------

  // lim and max are None unless their text is a positive integer without leading zeros
  predicate DeployWellFormed(d: CallData)
  {
    d.protocol != "" && d.lim.Some? && d.lim.value > 0 && d.max.Some? && d.max.value > 0 && d.op == DeployOp
  }

  function DeployTransfer(s: State, h: Hash, cfg: Config): State
  {
    if h !in s.txs || s.txs[h].status != 2 || s.txs[h].version != DeployV then s else
      var tx := s.txs[h];
      var d := tx.data;
      if !DeployWellFormed(d) then
        s.(ops := SetOp(s.ops, h, INVALID_OP_PARAMS))
      else if tx.receiver !in cfg.makers then
        s.(ops := SetOp(s.ops, h, INVALID_DEPLOY_MAKER))
      else if d.AssetOf() in s.deploys then
        s
      else
        s.(deploys := s.deploys[d.AssetOf() := Deploy(tx.receiver, d.max.value, d.lim.value, 0.0, 0)],
           ops := SetOp(s.ops, h, MATCHED))
  }

  // ---------- claim ----------

  predicate ClaimWellFormed(d: CallData)
  {
    d.Named() && d.amt.Some? && d.amt.value.IsInteger()
  }

  // First read: the deploy record, whose minted amount the cap check will use however old it is by then.
  function ClaimRead(s: State, t: nat, h: Hash, payloadOp: int): State
  {
    if t in s.claims || h !in s.txs || s.txs[h].status != 2 || s.txs[h].version != ClaimV then s else
      var tx := s.txs[h];
      var d := tx.data;
      if !ClaimWellFormed(d) then
        s.(ops := SetOp(s.ops, h, INVALID_OP_PARAMS))
      else if d.op != ClaimOp then
        s.(ops := SetOp(s.ops, h, INVALID_OP))
      else if d.AssetOf() !in s.deploys || s.deploys[d.AssetOf()].to != tx.receiver then
        s.(ops := SetOp(s.ops, h, DEPLOY_RECORD_NOT_FOUND))
      else
        s.(claims := s.claims[t := ReadDeploy(h, payloadOp, s.deploys[d.AssetOf()])])
  }

  // InscriptionStandardBuilder: the chain named by the code in the paid amount, if inscriptions run on it.
  function TargetChain(tx: Transfer, cfg: Config): Option<Chain>
  {
    if tx.securityCode in cfg.byInternalId && cfg.byInternalId[tx.securityCode] in cfg.supported
    then Some(cfg.byInternalId[tx.securityCode]) else None
  }

  function NewRow(tx: Transfer, target: Chain, address: Address, amount: real): Row
  {
    Row(tx.version, tx.hash, tx.chain, tx.sender, tx.nonce, tx.timestamp, address, target, amount,
        tx.data.AssetOf(), tx.receiver, 0, None)
  }

  // `+targetAmount > +limit`, two doubles
  predicate OverLimit(amount: real, limit: nat)
  {
    amount >= 0.0 && JsNumber.Greater(amount.Floor, limit)
  }

  predicate CapReached(deploy: Deploy)
  {
    deploy.minted >= deploy.max as real
  }

  // InscriptionBuilder.build, for a transfer whose amount is an integer
  function Build(tx: Transfer, deploy: Deploy, cfg: Config): Result<Row, int>
  {
    if tx.nonce >= 10000000000000 then Err(NONCE_EXCEED_MAXIMUM)
    else if tx.chain !in cfg.chains then Err(SOURCE_NOT_FOUND)
    else if CapReached(deploy) then Err(CLAIM_EXCEED_MAXIMUM)
    else if TargetChain(tx, cfg).None? then Err(TARGET_NOT_FOUND)
    else if TargetChain(tx, cfg).value == tx.chain then Err(CLAIM_MUST_CROSS_CHAIN)
    else if tx.data.amt.None? || tx.data.amt.value.Number().None? then Err(AMOUNT_MUST_BE_INTEGER)
    else
      var amount := tx.data.amt.value.Number().value;
      if OverLimit(amount, deploy.limit) then Err(CLAIM_AMOUNT_EXCEED_LIMIT)
      else if !tx.data.amt.value.IsInteger() || amount < 1.0 then Err(AMOUNT_MUST_BE_INTEGER)
      else if cfg.claimFee.None? then Err(CHARING_RULE_NOT_FOUND)
      else if cfg.claimFee.value > tx.fee then Err(CHARING_TOO_LOW)
      else Ok(NewRow(tx, TargetChain(tx, cfg).value, tx.sender, amount))
  }

  // Second read: an existing row of this transfer; then the checks.
  function ClaimCheck(s: State, t: nat, found: Option<nat>, cfg: Config): State
  {
    if t !in s.claims || !s.claims[t].ReadDeploy? || s.claims[t].hash !in s.txs then s else
      var ReadDeploy(h, payloadOp, deploy) := s.claims[t];
      var tx := s.txs[h];
      if !IsRowOf(s.rows, tx, found) then s
      else if found.Some? && s.rows[found.value].status >= 90 then WithoutClaim(s, t)
      else match Build(tx, deploy, cfg)
        case Err(code) => WithoutClaim(s, t).(ops := SetOp(s.ops, h, code))
        case Ok(row) =>
          if |row.targetAddress| >= 100 then WithoutClaim(s, t)
          else s.(claims := s.claims[t := ClaimReady(h, payloadOp, found, row)])
  }

  // UPDATE deploy_record SET currentMintedAmount = currentMintedAmount + v, currentMintedTx = currentMintedTx + 1
  function IncMinted(deploys: map<Asset, Deploy>, a: Asset, v: real): map<Asset, Deploy>
  {
    if a in deploys
    then deploys[a := deploys[a].(minted := deploys[a].minted + v, mintedTx := deploys[a].mintedTx + 1)]
    else deploys
  }

  // The transaction of a claim; `fails` when any statement or the commit itself does.
  function ClaimFinish(s: State, t: nat, fails: bool): State
  {
    if t !in s.claims || !s.claims[t].ClaimReady? then s else
      var ClaimReady(h, payloadOp, found, row) := s.claims[t];
      var base := WithoutClaim(s, t);
      var ops' := if payloadOp != 1 then SetOp(s.ops, h, VALID) else s.ops;
      match found
      case Some(id) =>
        if fails || id !in s.rows then base
        else base.(rows := s.rows[id := row.(status := s.rows[id].status, targetId := s.rows[id].targetId)],
                   ops := ops')
      case None =>
        if fails || Duplicate(s.rows, row) || s.nextId in s.rows then base.(nextId := s.nextId + 1)
        else base.(rows := s.rows[s.nextId := row],
                   nextId := s.nextId + 1,
                   deploys := IncMinted(s.deploys, row.asset, row.targetAmount),
                   balances := IncBalance(s.balances, Account(row.sourceAddress, row.targetChain, row.asset), row.targetAmount),
                   ops := ops')
  }

  // ---------- bookkeeping of one chain ----------

  predicate KeptVersion(v: Version)
  {
    v == CrossV || v == CrossOverV || v == TransferV
  }

  predicate Waiting(s: State, c: Chain, h: Hash)
  {
    h in s.txs && h in s.ops && s.ops[h] == 0 && s.txs[h].chain == c && KeptVersion(s.txs[h].version)
  }

  // The mutex is free and the query returns these transfers.
  function LoadBatch(s: State, c: Chain, hs: seq<Hash>): State
  {
    if s.KeeperOf(c).Idle? && 0 < |hs| <= 1000 && Distinct(hs)
       && (forall i :: 0 <= i < |hs| ==> Waiting(s, c, hs[i]))
    then s.(keepers := s.keepers[c := Busy(hs, Start)])
    else s
  }

  function WithPhase(s: State, c: Chain, p: Phase): State
  {
    match s.KeeperOf(c)
    case Busy(batch, _) => s.(keepers := s.keepers[c := Busy(batch, p)])
    case Idle => s
  }

  // On to the next transfer, or the mutex is released.
  function Rest(batch: seq<Hash>): Keeper
  {
    if |batch| <= 1 then Idle else Busy(batch[1..], Start)
  }

  // The handler returned.
  function Advance(s: State, c: Chain): State
  {
    match s.KeeperOf(c)
    case Busy(batch, _) => s.(keepers := s.keepers[c := Rest(batch)])
    case Idle => s
  }

  // The handler threw: the whole pass ends and the mutex is released.
  function AbortPass(s: State, c: Chain): State
  {
    s.(keepers := s.keepers[c := Idle])
  }

  function Reject(s: State, c: Chain, h: Hash, code: int): State
  {
    Advance(s.(ops := SetOp(s.ops, h, code)), c)
  }

  predicate AtPhase(s: State, c: Chain)
  {
    s.KeeperOf(c).Busy? && s.KeeperOf(c).batch != [] && s.KeeperOf(c).batch[0] in s.txs
  }

  function CurrentTx(s: State, c: Chain): Transfer
    requires AtPhase(s, c)
  {
    s.txs[s.KeeperOf(c).batch[0]]
  }

  // ---------- cross ----------

  // InscriptionBuilder.buildCross
  function BuildCross(s: State, tx: Transfer, cfg: Config): Result<Row, int>
  {
    var address := if tx.data.to != "" then Lower(tx.data.to) else tx.sender;
    var account := Account(tx.sender, tx.chain, tx.data.AssetOf());
    if tx.nonce >= 100000000000000 then Err(NONCE_EXCEED_MAXIMUM)
    else if tx.chain !in cfg.chains then Err(SOURCE_NOT_FOUND)
    else if TargetChain(tx, cfg).None? then Err(TARGET_NOT_FOUND)
    else if TargetChain(tx, cfg).value == tx.chain then Err(CLAIM_MUST_CROSS_CHAIN)
    else if tx.data.amt.None? || !tx.data.amt.value.IsInteger() then Err(AMOUNT_MUST_BE_INTEGER)
    else
      var amount := tx.data.amt.value.Number().value;
      if amount < 1.0 then Err(AMOUNT_MUST_BE_INTEGER)
      else if cfg.crossFee.None? then Err(CHARING_RULE_NOT_FOUND)
      else if account !in s.balances || s.balances[account] < amount then Err(NOT_SUFFICIENT_FUNDS)
      else if cfg.crossFee.value > tx.fee then Err(CHARING_TOO_LOW)
      else if !("0x" <= address) && |address| != 42 then Err(CROSS_INVALID_TARGET_ADDRESS)
      else Ok(NewRow(tx, TargetChain(tx, cfg).value, address, amount))
  }

  predicate CrossWellFormed(d: CallData)
  {
    d.Named() && d.amt.Some? && d.amt.value.Plain? && d.op == CrossOp && d.amt.value.IsInteger()
  }

  function CrossCheck(s: State, c: Chain, found: Option<nat>, cfg: Config): State
  {
    if !AtPhase(s, c) || !s.KeeperOf(c).phase.Start? || CurrentTx(s, c).version != CrossV then s else
      var tx := CurrentTx(s, c);
      var h := s.KeeperOf(c).batch[0];
      var d := tx.data;
      if tx.status != 2 then Advance(s, c)
      else if !CrossWellFormed(d) then
        Reject(s, c, h, INVALID_OP_PARAMS)
      else if d.AssetOf() !in s.deploys || s.deploys[d.AssetOf()].to != tx.receiver then
        Reject(s, c, h, DEPLOY_RECORD_NOT_FOUND)
      else if !IsRowOf(s.rows, tx, found) then s
      else if found.Some? && s.rows[found.value].status >= 90 then Advance(s, c)
      else match BuildCross(s, tx, cfg)
        case Err(code) => Reject(s, c, h, code)
        case Ok(row) => WithPhase(s, c, CrossReady(found, row))
  }

  // addBridgeTransaction: not twice for one source transfer, and not when it is older than the cache keeps
  function AddToCache(cache: seq<Cached>, entry: Cached, recent: bool): seq<Cached>
  {
    if !recent || (exists i :: 0 <= i < |cache| && cache[i].row.version == entry.row.version && cache[i].row.sourceId == entry.row.sourceId)
    then cache else cache + [entry]
  }

  // Where the transaction of a cross breaks, if it does: the row is put in the cache before the last
  // statements and the commit, so a late failure leaves a row in the cache that the database never kept.
  datatype Outcome = Commits | FailsEarly | FailsLate

  function CrossFinish(s: State, c: Chain, outcome: Outcome, recent: bool): State
  {
    if !AtPhase(s, c) || !s.KeeperOf(c).phase.CrossReady? then s else
      var CrossReady(found, row) := s.KeeperOf(c).phase;
      var h := s.KeeperOf(c).batch[0];
      match found
      case Some(id) =>
        if outcome != Commits || id !in s.rows then AbortPass(s, c)
        else Advance(s.(rows := s.rows[id := row.(status := s.rows[id].status, targetId := s.rows[id].targetId)],
                        ops := SetOp(s.ops, h, VALID)), c)
      case None =>
        var inserted := !outcome.FailsEarly? && !Duplicate(s.rows, row) && s.nextId !in s.rows;
        var base := s.(nextId := s.nextId + 1,
                       cache := if inserted then AddToCache(s.cache, Cached(s.nextId, row), recent) else s.cache);
        if !inserted || outcome.FailsLate? then AbortPass(base, c)
        else Advance(base.(rows := s.rows[s.nextId := row],
                           balances := IncBalance(s.balances, Account(row.sourceAddress, row.sourceChain, row.asset), -row.targetAmount),
                           ops := SetOp(s.ops, h, VALID)), c)
  }

  // The expiry job drops entries of the cache.
  function DropCached(s: State, i: nat): State
  {
    if i < |s.cache| then s.(cache := s.cache[..i] + s.cache[i + 1..]) else s
  }

  // ---------- crossover ----------

  // toFixed(0): half up
  function ToFixed0(v: real): int
  {
    (v + 0.5).Floor
  }

  // The cached rows of one kind: a crossover looks among those of crosses, a mint among those of claims. The protocol
  // is not compared with the row's, and the tick only up to case.
  predicate MemoryMatch(r: Row, tx: Transfer, fromChain: Chain, kind: Version)
  {
    && tx.data.amt.Some? && tx.data.amt.value.Number().Some?
    && r.sourceChain == fromChain
    && r.targetAddress == tx.receiver
    && ToFixed0(r.targetAmount) == ToFixed0(tx.data.amt.value.Number().value)
    && r.targetChain == tx.chain
    && EqualsIgnoreCase(r.asset.tick, tx.data.tick)
    && r.sourceNonce == tx.value
    && tx.timestamp > r.sourceTime - 60000
    && r.responseMaker == tx.sender
    && r.version == kind
  }

  // Array.find
  function FindCached(cache: seq<Cached>, tx: Transfer, fromChain: Chain): (r: Option<Cached>)
    ensures r.Some? ==> r.value in cache && MemoryMatch(r.value.row, tx, fromChain, CrossV)
    ensures r.None? ==> forall b :: b in cache ==> !MemoryMatch(b.row, tx, fromChain, CrossV)
  {
    if cache == [] then None
    else if MemoryMatch(cache[0].row, tx, fromChain, CrossV) then Some(cache[0])
    else FindCached(cache[1..], tx, fromChain)
  }

  // The conditions of a mint's query: rows of any version.
  predicate AnyMatch(r: Row, tx: Transfer, fromChain: Chain)
  {
    && tx.data.amt.Some? && tx.data.amt.value.Number().Some?
    && Unsettled(r.status)
    && r.sourceChain == fromChain
    && r.targetId.None?
    && r.asset.tick == tx.data.tick
    && r.targetAddress == tx.receiver
    && r.targetChain == tx.chain
    && r.targetAmount == tx.data.amt.value.Number().value
    && r.sourceNonce == tx.value
    && r.responseMaker == tx.sender
  }

  // Those of a crossover's.
  predicate DbMatch(r: Row, tx: Transfer, fromChain: Chain)
  {
    AnyMatch(r, tx, fromChain) && r.version == CrossV
  }

  predicate CrossOverWellFormed(d: CallData)
  {
    d.Named() && d.amt.Some? && d.amt.value.Plain? && d.fc.Some? && d.op == CrossOverOp
  }

  function CrossOverMatch(s: State, c: Chain, cfg: Config): State
  {
    if !AtPhase(s, c) || !s.KeeperOf(c).phase.Start? || CurrentTx(s, c).version != CrossOverV then s else
      var tx := CurrentTx(s, c);
      var h := s.KeeperOf(c).batch[0];
      var d := tx.data;
      if !CrossOverWellFormed(d) then
        Reject(s, c, h, INVALID_OP_PARAMS)
      else if d.AssetOf() !in s.deploys || s.deploys[d.AssetOf()].to != tx.sender then
        Reject(s, c, h, DEPLOY_RECORD_NOT_FOUND)
      else if d.fc.value !in cfg.byInternalId then
        Reject(s, c, h, INCORRECT_FC)
      else
        var fromChain := cfg.byInternalId[d.fc.value];
        match FindCached(s.cache, tx, fromChain)
        case Some(bt) => WithPhase(s, c, MemoryMatched(fromChain, bt))
        case None => WithPhase(s, c, SearchDb(fromChain))
  }

  // The two guards of the memory path: one row updated, then two transfers updated.
  predicate MemoryGuards(s: State, tx: Transfer, bt: Cached)
  {
    && bt.id in s.rows
    && Unsettled(s.rows[bt.id].status)
    && tx.timestamp - 120 * 60000 < s.rows[bt.id].sourceTime < tx.timestamp + 5 * 60000
    && tx.hash != bt.row.sourceId
    && Open(s.ops, tx.hash)
    && Open(s.ops, bt.row.sourceId)
  }

  function CreditAccount(tx: Transfer, r: Row): Account
  {
    Account(r.targetAddress, r.targetChain, tx.data.AssetOf())
  }

  // What a crossover commits, whichever way it found the row: row, statuses and the receiver's balance.
  function Credit(s: State, c: Chain, tx: Transfer, id: nat, r: Row): State
    requires id in s.rows
  {
    Advance(s.(rows := s.rows[id := Settle(s.rows[id], tx)],
               ops := CloseBoth(s.ops, tx.hash, r.sourceId),
               balances := IncBalance(s.balances, CreditAccount(tx, r), r.targetAmount),
               credits := s.credits + multiset{id}), c)
  }

  // The memory transaction: when it does not go through, the database is searched instead.
  function MemoryFinish(s: State, c: Chain, fails: bool): State
  {
    if !AtPhase(s, c) || !s.KeeperOf(c).phase.MemoryMatched? then s else
      var MemoryMatched(fromChain, entry) := s.KeeperOf(c).phase;
      var tx := CurrentTx(s, c);
      if fails || !MemoryGuards(s, tx, entry) then WithPhase(s, c, SearchDb(fromChain))
      else Credit(s, c, tx, entry.id, entry.row)
  }

  predicate NamedBy(r: Row, c: Chain, tx: Transfer)
  {
    r.targetChain == c && r.targetId == Some(tx.hash)
  }

  predicate ByTarget(s: State, c: Chain, tx: Transfer, id: nat)
  {
    id in s.rows && NamedBy(s.rows[id], c, tx)
  }

  // Inside the second transaction: a row that already has this target, else a row that matches, else none.
  function DbFind(s: State, c: Chain, pick: Option<nat>): State
  {
    if !AtPhase(s, c) || !s.KeeperOf(c).phase.SearchDb? then s else
      var SearchDb(fromChain) := s.KeeperOf(c).phase;
      var tx := CurrentTx(s, c);
      if exists id :: id in s.rows && ByTarget(s, c, tx, id) then
        if pick.Some? && ByTarget(s, c, tx, pick.value) then WithPhase(s, c, FoundByTarget(pick.value)) else s
      else if exists id :: id in s.rows && DbMatch(s.rows[id], tx, fromChain) then
        if pick.Some? && pick.value in s.rows && DbMatch(s.rows[pick.value], tx, fromChain)
        then WithPhase(s, c, Found(pick.value, s.rows[pick.value])) else s
      else Advance(s, c)
  }

  // Its commit. The lookup by target loads no address, chain or amount, so the balance statement is refused.
  function DbFinish(s: State, c: Chain, fails: bool): State
  {
    if !AtPhase(s, c) then s else
      match s.KeeperOf(c).phase
      case FoundByTarget(_) => AbortPass(s, c)
      case Found(id, bt) =>
        if fails || id !in s.rows then AbortPass(s, c) else Credit(s, c, CurrentTx(s, c), id, bt)
      case _ => s
  }

  // ---------- mint ----------

  predicate MintWellFormed(d: CallData)
  {
    d.protocol != "" && d.tick != "" && d.amt.Some? && d.amt.value.Plain? && d.fc.Some?
  }

  // What either match of a mint writes: it credits nobody.
  function MintSave(s: State, h: Hash, id: nat): State
  {
    if h !in s.txs || s.txs[h].version != MintV || id !in s.rows then s else
      s.(rows := s.rows[id := Settle(s.rows[id], s.txs[h])],
         ops := CloseBoth(s.ops, h, s.rows[id].sourceId))
  }

  // A row the cache of claims may return: stale or rolled back, but made of its source under an id used for no other.
  predicate MintCached(s: State, tx: Transfer, fromChain: Chain, e: Cached)
  {
    && MemoryMatch(e.row, tx, fromChain, ClaimV)
    && (e.id in s.rows ==> s.rows[e.id].sourceId == e.row.sourceId && s.rows[e.id].version == ClaimV)
  }

  // The checks and the memory transaction; without a match, or rolled back, the mint goes on to the database.
  function MintTry(s: State, t: nat, h: Hash, cfg: Config, cached: Option<Cached>, fails: bool): State
  {
    if t in s.mints || h !in s.txs || s.txs[h].version != MintV then s else
      var tx := s.txs[h];
      var d := tx.data;
      if !MintWellFormed(d) then
        s.(ops := SetOp(s.ops, h, INVALID_OP_PARAMS))
      else if d.op != MintOp then
        s
      else if d.fc.value !in cfg.byInternalId then
        s.(ops := SetOp(s.ops, h, INCORRECT_FC))
      else
        var fromChain := cfg.byInternalId[d.fc.value];
        if cached.Some? && !MintCached(s, tx, fromChain, cached.value) then s
        else if cached.Some? && !fails && MemoryGuards(s, tx, cached.value) then MintSave(s, h, cached.value.id)
        else s.(mints := s.mints[t := MintSearch(h, fromChain)])
  }

  // Inside the second transaction: a row that already has this target, else a row of any version that matches, else none.
  function MintFind(s: State, t: nat, pick: Option<nat>): State
  {
    if t !in s.mints || !s.mints[t].MintSearch? || s.mints[t].hash !in s.txs then s else
      var MintSearch(h, fromChain) := s.mints[t];
      var tx := s.txs[h];
      if exists id :: id in s.rows && ByTarget(s, tx.chain, tx, id) then
        if pick.Some? && ByTarget(s, tx.chain, tx, pick.value) then s.(mints := s.mints[t := MintFound(h, pick.value)]) else s
      else if exists id :: id in s.rows && AnyMatch(s.rows[id], tx, fromChain) then
        if pick.Some? && pick.value in s.rows && AnyMatch(s.rows[pick.value], tx, fromChain)
        then s.(mints := s.mints[t := MintFound(h, pick.value)]) else s
      else s.(mints := s.mints - {t})
  }

  // Its save and commit: the row is written by its id alone, however it has changed since.
  function MintFinish(s: State, t: nat, fails: bool): State
  {
    if t !in s.mints || !s.mints[t].MintFound? then s else
      var MintFound(h, id) := s.mints[t];
      var base := s.(mints := s.mints - {t});
      if fails then base else MintSave(base, h, id)
  }

  // ---------- transfer ----------

  // balance.isLessThan(amount)
  predicate LessThan(balance: real, amount: Amount)
  {
    match amount
    case Plain(v) => balance < v
    case OtherNumber(n) => balance < n
    case NotANumber => false
    case PosInfinity => true
    case NegInfinity => false
  }

  predicate TransferWellFormed(d: CallData)
  {
    d.Named() && d.amt.Some? && "0x" <= d.to && |d.to| == 42 && d.op == TransferOp
  }

  function TransferCheck(s: State, c: Chain): State
  {
    if !AtPhase(s, c) || !s.KeeperOf(c).phase.Start? || CurrentTx(s, c).version != TransferV then s else
      var tx := CurrentTx(s, c);
      var h := s.KeeperOf(c).batch[0];
      var d := tx.data;
      var from := Account(tx.sender, c, d.AssetOf());
      if tx.status != 2 then Advance(s, c)
      else if !TransferWellFormed(d) then
        Reject(s, c, h, INVALID_OP_PARAMS)
      else if d.AssetOf() !in s.deploys || s.deploys[d.AssetOf()].to != tx.receiver then
        Reject(s, c, h, DEPLOY_RECORD_NOT_FOUND)
      else if from !in s.balances || LessThan(s.balances[from], d.amt.value) then
        Reject(s, c, h, NOT_SUFFICIENT_FUNDS)
      else
        WithPhase(s, c, TransferReady(from, Account(Lower(d.to), c, d.AssetOf()), d.amt.value))
  }

  // The debit is written as a minus sign followed by the amount. A negative amount makes that `--`, a comment,
  // and NaN or an infinity makes it a column name: the statement is refused and the transaction rolled back.
  predicate Writable(amount: Amount)
  {
    amount.Number().Some? && amount.Number().value >= 0.0
  }

  // A failure is swallowed and the pass goes on.
  function TransferFinish(s: State, c: Chain, fails: bool): State
  {
    if !AtPhase(s, c) || !s.KeeperOf(c).phase.TransferReady? then s else
      var TransferReady(from, to, amount) := s.KeeperOf(c).phase;
      var h := s.KeeperOf(c).batch[0];
      if fails || !Writable(amount) then Advance(s, c)
      else
        var v := amount.Number().value;
        Advance(s.(balances := IncBalance(IncBalance(s.balances, from, -v), to, v),
                   ops := SetOp(s.ops, h, MATCHED)), c)
  }

  // ---------- runs ----------

  // A new transfer is stored under its hash, already with the status its ingestion gives it.
  function Arrive(s: State, tx: Transfer, opStatus: int): State
  {
    if tx.hash in s.txs then s
    else s.(txs := s.txs[tx.hash := tx], ops := s.ops[tx.hash := opStatus])
  }

  // The maker's client pays a row that is not settled and names no payment: it marks it, and once the payment is sent
  // writes its hash as well. The row is locked from its first write to the commit.
  function MakerPay(s: State, id: nat, status: int, payment: Option<Hash>): State
  {
    if id in s.rows && Unsettled(s.rows[id].status) && s.rows[id].targetId.None? && status in {READY_PAID, PAID_CRASH, PAID_SUCCESS}
    then s.(rows := s.rows[id := s.rows[id].(status := status, targetId := payment)]) else s
  }

  datatype Event =
    | Arrives(tx: Transfer, opStatus: int)
    | Deploys(h: Hash, cfg: Config)
    | ClaimReads(t: nat, h: Hash, payloadOp: int)
    | ClaimChecks(t: nat, found: Option<nat>, cfg: Config)
    | ClaimFinishes(t: nat, fails: bool)
    | MintTries(t: nat, h: Hash, cfg: Config, cached: Option<Cached>, fails: bool)
    | MintFinds(t: nat, pick: Option<nat>)
    | MintFinishes(t: nat, fails: bool)
    | LoadsBatch(c: Chain, hs: seq<Hash>)
    | CrossChecks(c: Chain, found: Option<nat>, cfg: Config)
    | CrossFinishes(c: Chain, outcome: Outcome, recent: bool)
    | CacheDrops(i: nat)
    | CrossOverMatches(c: Chain, cfg: Config)
    | MemoryFinishes(c: Chain, fails: bool)
    | DbFinds(c: Chain, pick: Option<nat>)
    | DbFinishes(c: Chain, fails: bool)
    | TransferChecks(c: Chain)
    | TransferFinishes(c: Chain, fails: bool)
    | PassThrows(c: Chain)
    | MakerPays(id: nat, status: int, payment: Option<Hash>)
    | Restarts

  function Next(s: State, e: Event): State
  {
    match e
    case Arrives(tx, opStatus) => Arrive(s, tx, opStatus)
    case Deploys(h, cfg) => DeployTransfer(s, h, cfg)
    case ClaimReads(t, h, payloadOp) => ClaimRead(s, t, h, payloadOp)
    case ClaimChecks(t, found, cfg) => ClaimCheck(s, t, found, cfg)
    case ClaimFinishes(t, fails) => ClaimFinish(s, t, fails)
    case MintTries(t, h, cfg, cached, fails) => MintTry(s, t, h, cfg, cached, fails)
    case MintFinds(t, pick) => MintFind(s, t, pick)
    case MintFinishes(t, fails) => MintFinish(s, t, fails)
    case LoadsBatch(c, hs) => LoadBatch(s, c, hs)
    case CrossChecks(c, found, cfg) => CrossCheck(s, c, found, cfg)
    case CrossFinishes(c, outcome, recent) => CrossFinish(s, c, outcome, recent)
    case CacheDrops(i) => DropCached(s, i)
    case CrossOverMatches(c, cfg) => CrossOverMatch(s, c, cfg)
    case MemoryFinishes(c, fails) => MemoryFinish(s, c, fails)
    case DbFinds(c, pick) => DbFind(s, c, pick)
    case DbFinishes(c, fails) => DbFinish(s, c, fails)
    case TransferChecks(c) => TransferCheck(s, c)
    case TransferFinishes(c, fails) => TransferFinish(s, c, fails)
    case PassThrows(c) => AbortPass(s, c)
    case MakerPays(id, status, payment) => MakerPay(s, id, status, payment)
    case Restarts => s.(cache := [], claims := map[], mints := map[], keepers := map[])
  }

  // The state after a run from the empty database.
  function Run(events: seq<Event>): State
  {
    if events == [] then Empty else Next(Run(events[..|events| - 1]), events[|events| - 1])
  }
}
