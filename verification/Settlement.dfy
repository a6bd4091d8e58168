/**
 Version 1 settlement: a source transfer gets a bridge row, and a maker's transfer on the target chain settles one,
 found in memory first and in the database when that fails. A handler is cut where others may run: what it read,
 and the transaction it then commits or rolls back. An event that is not possible changes nothing.
 */
module Settlement {
  import opened Wrappers
  import opened Tables
  import opened Text

  type Chain = string

  datatype Version = V10 | V11

  // What the builder makes of a source transfer.
  datatype Target = Target(chain: Chain, address: string, symbol: string, amount: string, nonce: string, makers: set<string>)

  // The target chain named by the code in the amount is of interest for sources (1-0), `receiver` to `calldata` for
  // payments (1-1).
  datatype Transfer = Transfer(hash: Hash, chain: Chain, version: Version, status: int, timestamp: int, targetChain: Chain,
                               sender: string, receiver: string, symbol: string, amount: string, calldata: Option<string>)

  datatype Row = Row(sourceId: Hash, sourceChain: Chain, sourceTime: int, target: Target, status: int, targetId: Option<Hash>)

  // A handler in progress: a source that looked up its row, a payment that falls back to the database, and one that has
  // found a row there and is to save it.
  datatype Task = SourceRead(hash: Hash, found: Option<nat>) | SearchDb(hash: Hash) | Matched(hash: Hash, id: nat)

  // A row as it was when it entered the cache.
  datatype Cached = Cached(id: nat, sourceId: Hash, sourceTime: int, target: Target)

  datatype State = State(
    txs: map<Hash, Transfer>,
    ops: map<Hash, int>,
    rows: map<nat, Row>,
    nextId: nat,
    cache: seq<Cached>,
    tasks: map<nat, Task>)

  const Empty := State(map[], map[], map[], 1, [], map[])

  function Settle(r: Row, tx: Transfer): Row
  {
    r.(targetId := Some(tx.hash), status := if tx.status == 3 then PAID_CRASH else BRIDGE_SUCCESS)
  }

  // ---------- the source handler ----------

  predicate IsRowOf(rows: map<nat, Row>, tx: Transfer, found: Option<nat>)
  {
    match found
    case Some(id) => id in rows && rows[id].sourceId == tx.hash && rows[id].sourceChain == tx.chain
    case None => forall id :: id in rows ==> !(rows[id].sourceId == tx.hash && rows[id].sourceChain == tx.chain)
  }

  predicate Duplicate(rows: map<nat, Row>, tx: Transfer)
  {
    exists id :: id in rows && rows[id].sourceId == tx.hash && rows[id].sourceChain == tx.chain
  }

  function ReadSource(s: State, t: nat, h: Hash, found: Option<nat>): State
  {
    if t in s.tasks || h !in s.txs || s.txs[h].status != 2 || s.txs[h].version != V10 || !IsRowOf(s.rows, s.txs[h], found) then s
    else if found.Some? && s.rows[found.value].status >= 90 then s
    else s.(tasks := s.tasks[t := SourceRead(h, found)])
  }

  // The builder refuses the transfer.
  function RejectSource(s: State, t: nat, code: int): State
  {
    if t !in s.tasks || !s.tasks[t].SourceRead? then s
    else s.(ops := SetOp(s.ops, s.tasks[t].hash, code), tasks := s.tasks - {t})
  }

  // Where the transaction of a source breaks, if it does: the row is put in the cache before the last statement and the
  // commit, so a late failure leaves a row in the cache that the database never kept.
  datatype Outcome = Commits | FailsEarly | FailsLate

  // addBridgeTransaction: not twice for one source, and not when it is older than the cache keeps
  function AddToCache(cache: seq<Cached>, entry: Cached, recent: bool): seq<Cached>
  {
    if !recent || (exists i :: 0 <= i < |cache| && cache[i].sourceId == entry.sourceId) then cache else cache + [entry]
  }

  // The row it found is written over, status and payment aside, however the row has changed since. Rules and prices
  // may give another target than at an earlier delivery, but not another chain.
  function CommitSource(s: State, t: nat, target: Target, payloadOp: int, outcome: Outcome, recent: bool): State
  {
    if t !in s.tasks || !s.tasks[t].SourceRead? || s.tasks[t].hash !in s.txs || target.chain != s.txs[s.tasks[t].hash].targetChain then s else
      var SourceRead(h, found) := s.tasks[t];
      var tx := s.txs[h];
      var base := s.(tasks := s.tasks - {t});
      var ops' := if payloadOp != 1 then SetOp(s.ops, h, 1) else s.ops;
      match found
      case Some(id) =>
        if outcome != Commits || id !in s.rows then base
        else base.(rows := s.rows[id := s.rows[id].(sourceTime := tx.timestamp, target := target)], ops := ops')
      case None =>
        var inserted := outcome != FailsEarly && !Duplicate(s.rows, tx) && s.nextId !in s.rows;
        var used := base.(nextId := s.nextId + 1,
                          cache := if inserted then AddToCache(s.cache, Cached(s.nextId, h, tx.timestamp, target), recent) else s.cache);
        if !inserted || outcome == FailsLate then used
        else used.(rows := s.rows[s.nextId := Row(h, tx.chain, tx.timestamp, target, 0, None)], ops := ops')
  }

  // The expiry job drops entries of the cache.
  function DropCached(s: State, i: nat): State
  {
    if i < |s.cache| then s.(cache := s.cache[..i] + s.cache[i + 1..]) else s
  }

  // ---------- the payment handler ----------

  predicate IsLoopring(chain: Chain)
  {
    chain == "loopring" || chain == "loopring_test"
  }

  // matchV1GetBridgeTransactions: the source chain is not compared; on Loopring the nonce is compared too.
  predicate MemoryMatch(c: Cached, tx: Transfer)
  {
    && EqualsIgnoreCase(c.target.symbol, tx.symbol)
    && EqualsIgnoreCase(c.target.address, tx.receiver)
    && c.target.chain == tx.chain
    && EqualsIgnoreCase(c.target.amount, tx.amount)
    && tx.timestamp > c.sourceTime - 60000
    && tx.sender in c.target.makers
    && (IsLoopring(c.target.chain) ==> tx.calldata.Some? && EqualsIgnoreCase(c.target.nonce, tx.calldata.value))
  }

  // Array.find
  function FindCached(cache: seq<Cached>, tx: Transfer): (r: Option<Cached>)
    ensures r.Some? ==> r.value in cache && MemoryMatch(r.value, tx)
    ensures r.None? ==> forall c :: c in cache ==> !MemoryMatch(c, tx)
  {
    if cache == [] then None
    else if MemoryMatch(cache[0], tx) then Some(cache[0])
    else FindCached(cache[1..], tx)
  }

  // One row updated, then two transfers.
  predicate MemoryGuards(s: State, tx: Transfer, id: nat, sourceId: Hash)
  {
    && id in s.rows
    && Unsettled(s.rows[id].status)
    && tx.timestamp - 4320 * 60000 < s.rows[id].sourceTime < tx.timestamp + 5 * 60000
    && tx.hash != sourceId
    && Open(s.ops, tx.hash)
    && Open(s.ops, sourceId)
  }

  function Settled(s: State, tx: Transfer, id: nat): State
    requires id in s.rows
  {
    s.(rows := s.rows[id := Settle(s.rows[id], tx)], ops := CloseBoth(s.ops, tx.hash, s.rows[id].sourceId))
  }

  // The memory transaction; without a match, or rolled back, the payment goes on to the database.
  function TryMemory(s: State, t: nat, h: Hash, fails: bool): State
  {
    if t in s.tasks || h !in s.txs || s.txs[h].version != V11 then s
    else
      var cached := FindCached(s.cache, s.txs[h]);
      if cached.Some? && !fails && MemoryGuards(s, s.txs[h], cached.value.id, cached.value.sourceId)
      then Settled(s, s.txs[h], cached.value.id)
      else s.(tasks := s.tasks[t := SearchDb(h)])
  }

  predicate ByTarget(s: State, tx: Transfer, id: nat)
  {
    id in s.rows && s.rows[id].target.chain == tx.chain && s.rows[id].targetId == Some(tx.hash)
  }

  // No filter on targetId, and none on time.
  predicate DbMatch(r: Row, tx: Transfer)
  {
    && Unsettled(r.status)
    && r.target.symbol == tx.symbol && r.target.address == tx.receiver && r.target.chain == tx.chain
    && r.target.amount == tx.amount && tx.sender in r.target.makers
  }

  // The row the second transaction would find, among the ones the query may return.
  predicate Finds(s: State, tx: Transfer, pick: Option<nat>)
  {
    if exists id :: id in s.rows && ByTarget(s, tx, id) then pick.Some? && ByTarget(s, tx, pick.value)
    else if exists id :: id in s.rows && DbMatch(s.rows[id], tx) then
      pick.Some? && pick.value in s.rows && DbMatch(s.rows[pick.value], tx)
    else pick.None?
  }

  // The searches of the second transaction take no lock.
  function SearchRows(s: State, t: nat, pick: Option<nat>): State
  {
    if t !in s.tasks || !s.tasks[t].SearchDb? || s.tasks[t].hash !in s.txs then s else
      var h := s.tasks[t].hash;
      if !Finds(s, s.txs[h], pick) then s
      else s.(tasks := if pick.Some? then s.tasks[t := Matched(h, pick.value)] else s.tasks - {t})
  }

  // Its save and commit: the row is written by its id alone, however it has changed since.
  function SaveMatch(s: State, t: nat, fails: bool): State
  {
    if t !in s.tasks || !s.tasks[t].Matched? || s.tasks[t].hash !in s.txs then s else
      var Matched(h, id) := s.tasks[t];
      var base := s.(tasks := s.tasks - {t});
      if fails || id !in s.rows then base else Settled(base, s.txs[h], id)
  }

  // ---------- runs ----------

  // The maker's client pays a row that is not settled and names no payment: it marks it, and once the payment is sent
  // writes its hash as well. The row is locked from its first write to the commit.
  function MakerPay(s: State, id: nat, status: int, payment: Option<Hash>): State
  {
    if id in s.rows && Unsettled(s.rows[id].status) && s.rows[id].targetId.None? && status in {READY_PAID, PAID_CRASH, PAID_SUCCESS}
    then s.(rows := s.rows[id := s.rows[id].(status := status, targetId := payment)]) else s
  }

  function Arrive(s: State, tx: Transfer, opStatus: int): State
  {
    if tx.hash in s.txs then s else s.(txs := s.txs[tx.hash := tx], ops := s.ops[tx.hash := opStatus])
  }

  // executeMatch and the schedules only pass on transfers of status 2.
  predicate Delivered(s: State, h: Hash)
  {
    h in s.txs && s.txs[h].status == 2
  }

  datatype Event =
    | Arrives(tx: Transfer, opStatus: int)
    | SourceReads(t: nat, h: Hash, found: Option<nat>)
    | SourceRejects(t: nat, code: int)
    | SourceCommits(t: nat, target: Target, payloadOp: int, outcome: Outcome, recent: bool)
    | CacheDrops(i: nat)
    | PaymentTries(t: nat, h: Hash, fails: bool)
    | PaymentSearches(t: nat, pick: Option<nat>)
    | PaymentSaves(t: nat, fails: bool)
    | MakerPays(id: nat, status: int, payment: Option<Hash>)
    | Restarts

  function Next(s: State, e: Event): State
  {
    match e
    case Arrives(tx, opStatus) => Arrive(s, tx, opStatus)
    case SourceReads(t, h, found) => ReadSource(s, t, h, found)
    case SourceRejects(t, code) => RejectSource(s, t, code)
    case SourceCommits(t, target, payloadOp, outcome, recent) => CommitSource(s, t, target, payloadOp, outcome, recent)
    case CacheDrops(i) => DropCached(s, i)
    case PaymentTries(t, h, fails) => if Delivered(s, h) then TryMemory(s, t, h, fails) else s
    case PaymentSearches(t, pick) => SearchRows(s, t, pick)
    case PaymentSaves(t, fails) => SaveMatch(s, t, fails)
    case MakerPays(id, status, payment) => MakerPay(s, id, status, payment)
    case Restarts => s.(cache := [], tasks := map[])
  }

  function Run(events: seq<Event>): State
  {
    if events == [] then Empty else Next(Run(events[..|events| - 1]), events[|events| - 1])
  }
}
