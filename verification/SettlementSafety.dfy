/**
 Settlement pairs rows and payments. A settled row keeps its payment for ever, however often transfers are delivered
 again and whatever the memory match tried first, exactly if no handler in progress had found it for another payment:
 the search of the second transaction takes no lock. Rows and payments stay one to one exactly as long as no event
 gives a row a payment that another already names; the handlers alone do so only with a stale search.
 */
module SettlementSafety {
  import opened Wrappers
  import opened Settlement
  import opened Tables

  ghost predicate TransfersOk(s: State)
  {
    s.ops.Keys == s.txs.Keys && forall h :: h in s.txs ==> s.txs[h].hash == h
  }

  ghost predicate RowOk(txs: map<Hash, Transfer>, ops: map<Hash, int>, r: Row)
  {
    && r.sourceId in txs && txs[r.sourceId].version == V10 && r.sourceChain == txs[r.sourceId].chain
    && r.target.chain == txs[r.sourceId].targetChain
    && (r.status == BRIDGE_SUCCESS ==>
          && r.targetId.Some? && r.targetId.value in txs && txs[r.targetId.value].version == V11
          && txs[r.targetId.value].chain == r.target.chain && !Open(ops, r.targetId.value))
  }

  ghost predicate RowsOk(s: State)
  {
    forall id :: id in s.rows ==> id < s.nextId && RowOk(s.txs, s.ops, s.rows[id])
  }

  ghost predicate TaskOk(s: State, task: Task)
  {
    && task.hash in s.txs
    && (task.SourceRead? ==> s.txs[task.hash].version == V10)
    && (task.SourceRead? && task.found.Some? ==> task.found.value in s.rows && s.rows[task.found.value].sourceId == task.hash)
    && (task.SearchDb? || task.Matched? ==> s.txs[task.hash].version == V11 && s.txs[task.hash].status == 2)
    && (task.Matched? ==> task.id in s.rows && s.rows[task.id].target.chain == s.txs[task.hash].chain)
  }

  ghost predicate TasksOk(s: State)
  {
    forall t :: t in s.tasks ==> TaskOk(s, s.tasks[t])
  }

  // A cached row may be stale or rolled back: it was made of its source, under an id used for no other.
  ghost predicate CachedOk(s: State, c: Cached)
  {
    && c.id < s.nextId && c.sourceId in s.txs && s.txs[c.sourceId].version == V10 && c.target.chain == s.txs[c.sourceId].targetChain
    && (c.id in s.rows ==> s.rows[c.id].sourceId == c.sourceId)
  }

  ghost predicate CacheOk(s: State)
  {
    forall c :: c in s.cache ==> CachedOk(s, c)
  }

  ghost predicate Inv(s: State)
  {
    TransfersOk(s) && RowsOk(s) && TasksOk(s) && CacheOk(s)
  }

  // ---------- every event keeps it ----------

  lemma ArriveKeeps(s: State, tx: Transfer, opStatus: int)
    requires Inv(s)
    ensures Inv(Arrive(s, tx, opStatus))
  {
    ArriveKeepsRows(s, tx, opStatus);
    hide RowOk;
    var n := Arrive(s, tx, opStatus);
    forall t | t in n.tasks
      ensures TaskOk(n, n.tasks[t])
    {
      assert TaskOk(s, s.tasks[t]);
    }
    forall c | c in n.cache
      ensures CachedOk(n, c)
    {
      assert CachedOk(s, c);
    }
  }

  lemma ArriveKeepsRows(s: State, tx: Transfer, opStatus: int)
    requires TransfersOk(s) && RowsOk(s)
    ensures RowsOk(Arrive(s, tx, opStatus))
  {
    var n := Arrive(s, tx, opStatus);
    forall id | id in n.rows
      ensures RowOk(n.txs, n.ops, n.rows[id])
    {
      assert RowOk(s.txs, s.ops, s.rows[id]);
    }
  }

  // A source's status may change without any row noticing.
  lemma SourceStatus(s: State, h: Hash, code: int)
    requires Inv(s) && h in s.txs && s.txs[h].version == V10
    ensures Inv(s.(ops := SetOp(s.ops, h, code)))
  {
    var n := s.(ops := SetOp(s.ops, h, code));
    forall id | id in n.rows
      ensures RowOk(n.txs, n.ops, n.rows[id])
    {
      assert RowOk(s.txs, s.ops, s.rows[id]);
    }
    forall t | t in n.tasks
      ensures TaskOk(n, n.tasks[t])
    {
      assert TaskOk(s, s.tasks[t]);
    }
    forall c | c in n.cache
      ensures CachedOk(n, c)
    {
      assert CachedOk(s, c);
    }
  }

  lemma TaskDropped(s: State, t: nat)
    requires Inv(s)
    ensures Inv(s.(tasks := s.tasks - {t}))
  {
    hide RowOk;
    CacheSurvives(s, s.rows, s.nextId, s.ops, s.tasks - {t});
    forall u | u in s.tasks - {t}
      ensures TaskOk(s.(tasks := s.tasks - {t}), s.tasks[u])
    {
      assert TaskOk(s, s.tasks[u]);
    }
  }

  lemma TaskPut(s: State, t: nat, task: Task)
    requires Inv(s) && TaskOk(s, task)
    ensures Inv(s.(tasks := s.tasks[t := task]))
  {
    hide RowOk;
    CacheSurvives(s, s.rows, s.nextId, s.ops, s.tasks[t := task]);
    var n := s.(tasks := s.tasks[t := task]);
    forall u | u in n.tasks
      ensures TaskOk(n, n.tasks[u])
    {
      assert u != t ==> TaskOk(s, s.tasks[u]);
    }
  }

  // Rows keep their source and target chain, and new ones get ids not used before.
  ghost predicate RowsGrow(s: State, rows: map<nat, Row>, nextId: nat)
  {
    && nextId >= s.nextId
    && (forall id :: id in s.rows ==> id in rows && rows[id].sourceId == s.rows[id].sourceId && rows[id].target.chain == s.rows[id].target.chain)
    && (forall id :: id in rows ==> id in s.rows || id >= s.nextId)
  }

  lemma CacheSurvives(s: State, rows: map<nat, Row>, nextId: nat, ops: map<Hash, int>, tasks: map<nat, Task>)
    requires CacheOk(s) && RowsGrow(s, rows, nextId)
    ensures CacheOk(s.(rows := rows, nextId := nextId, ops := ops, tasks := tasks))
  {
    forall c | c in s.cache
      ensures CachedOk(s.(rows := rows, nextId := nextId, ops := ops, tasks := tasks), c)
    {
      assert CachedOk(s, c);
    }
  }

  // Tasks stay in order then, too.
  lemma TasksSurvive(s: State, rows: map<nat, Row>, nextId: nat, ops: map<Hash, int>)
    requires TasksOk(s) && CacheOk(s) && RowsGrow(s, rows, nextId)
    ensures TasksOk(s.(rows := rows, nextId := nextId, ops := ops)) && CacheOk(s.(rows := rows, nextId := nextId, ops := ops))
  {
    CacheSurvives(s, rows, nextId, ops, s.tasks);
    forall t | t in s.tasks
      ensures TaskOk(s.(rows := rows, nextId := nextId, ops := ops), s.tasks[t])
    {
      assert TaskOk(s, s.tasks[t]);
    }
  }

  lemma CommitSourceKeeps(s: State, t: nat, target: Target, payloadOp: int, outcome: Outcome, recent: bool)
    requires Inv(s)
    ensures Inv(CommitSource(s, t, target, payloadOp, outcome, recent))
  {
    hide Inv, AddToCache;
    if t in s.tasks && s.tasks[t].SourceRead? && s.tasks[t].hash in s.txs && target.chain == s.txs[s.tasks[t].hash].targetChain {
      var SourceRead(h, found) := s.tasks[t];
      TaskFact(s, t);
      TaskDropped(s, t);
      var base := s.(tasks := s.tasks - {t});
      if found.Some? {
        if found.value in s.rows {
          RowRebuilt(base, h, target, found.value);
          SourceStatus(base.(rows := Rebuilt(base, h, target, found.value)), h, 1);
        }
      } else {
        NotTheNext(s);
        IdSkipped(base);
        IdCached(base, h, target, recent);
        if !Duplicate(s.rows, s.txs[h]) {
          RowInserted(base, h, target, recent);
          SourceStatus(WithRow(base, h, target, recent), h, 1);
        }
      }
    }
  }

  lemma NotTheNext(s: State)
    requires Inv(s)
    ensures s.nextId !in s.rows
  {
  }

  lemma TaskFact(s: State, t: nat)
    requires Inv(s) && t in s.tasks
    ensures TaskOk(s, s.tasks[t])
  {
  }

  function Rebuilt(s: State, h: Hash, target: Target, id: nat): map<nat, Row>
    requires h in s.txs && id in s.rows
  {
    s.rows[id := s.rows[id].(sourceTime := s.txs[h].timestamp, target := target)]
  }

  function CacheOf(s: State, h: Hash, target: Target, recent: bool): seq<Cached>
    requires h in s.txs
  {
    AddToCache(s.cache, Cached(s.nextId, h, s.txs[h].timestamp, target), recent)
  }

  function WithRow(s: State, h: Hash, target: Target, recent: bool): State
    requires h in s.txs
  {
    s.(nextId := s.nextId + 1, cache := CacheOf(s, h, target, recent),
       rows := s.rows[s.nextId := Row(h, s.txs[h].chain, s.txs[h].timestamp, target, 0, None)])
  }

  lemma RowRebuilt(s: State, h: Hash, target: Target, id: nat)
    requires Inv(s) && h in s.txs && target.chain == s.txs[h].targetChain && id in s.rows && s.rows[id].sourceId == h
    ensures Inv(s.(rows := Rebuilt(s, h, target, id)))
  {
    assert RowOk(s.txs, s.ops, s.rows[id]);
    TasksSurvive(s, Rebuilt(s, h, target, id), s.nextId, s.ops);
    hide TaskOk;
  }

  lemma IdSkipped(s: State)
    requires Inv(s)
    ensures Inv(s.(nextId := s.nextId + 1))
  {
    TasksSurvive(s, s.rows, s.nextId + 1, s.ops);
    hide TaskOk, RowOk;
  }

  // The cache learns of a row under the next id, whether the database keeps it or not.
  lemma IdCached(s: State, h: Hash, target: Target, recent: bool)
    requires Inv(s) && h in s.txs && s.txs[h].version == V10 && target.chain == s.txs[h].targetChain && s.nextId !in s.rows
    ensures Inv(s.(nextId := s.nextId + 1, cache := CacheOf(s, h, target, recent)))
  {
    TasksSurvive(s, s.rows, s.nextId + 1, s.ops);
    var n := s.(nextId := s.nextId + 1, cache := CacheOf(s, h, target, recent));
    forall c | c in n.cache
      ensures CachedOk(n, c)
    {
      assert c in s.cache ==> CachedOk(s, c);
    }
    TasksIgnoreCache(s.(nextId := s.nextId + 1), n.cache);
    hide TaskOk, RowOk, CachedOk;
  }

  lemma TasksIgnoreCache(s: State, cache: seq<Cached>)
    requires TasksOk(s)
    ensures TasksOk(s.(cache := cache))
  {
    forall t | t in s.tasks
      ensures TaskOk(s.(cache := cache), s.tasks[t])
    {
      assert TaskOk(s, s.tasks[t]);
    }
  }

  lemma RowInserted(s: State, h: Hash, target: Target, recent: bool)
    requires Inv(s) && h in s.txs && s.txs[h].version == V10 && target.chain == s.txs[h].targetChain && s.nextId !in s.rows
    ensures Inv(WithRow(s, h, target, recent))
  {
    var n := WithRow(s, h, target, recent);
    TasksSurvive(s, n.rows, n.nextId, s.ops);
    TasksIgnoreCache(s.(rows := n.rows, nextId := n.nextId), n.cache);
    forall c | c in n.cache
      ensures CachedOk(n, c)
    {
      assert c in s.cache ==> CachedOk(s, c);
    }
    hide TaskOk, CachedOk;
  }

  // A payment settles a row of its chain.
  lemma SettledKeeps(s: State, tx: Transfer, id: nat)
    requires Inv(s) && id in s.rows && tx.hash in s.txs && s.txs[tx.hash] == tx && tx.version == V11 && tx.status != 3
    requires s.rows[id].target.chain == tx.chain
    ensures Inv(Settled(s, tx, id))
  {
    var n := Settled(s, tx, id);
    forall i | i in n.rows
      ensures RowOk(n.txs, n.ops, n.rows[i])
    {
      assert RowOk(s.txs, s.ops, s.rows[i]);
    }
    TasksSurvive(s, n.rows, n.nextId, n.ops);
    hide TaskOk, RowOk, CloseBoth, Settle;
  }

  // An open payment is in no settled row.
  lemma OpenUnused(s: State, h: Hash)
    requires Inv(s) && Open(s.ops, h)
    ensures forall i :: i in s.rows && s.rows[i].status == BRIDGE_SUCCESS ==> s.rows[i].targetId != Some(h)
  {
    forall i | i in s.rows && s.rows[i].status == BRIDGE_SUCCESS
      ensures s.rows[i].targetId != Some(h)
    {
      assert RowOk(s.txs, s.ops, s.rows[i]);
    }
  }

  lemma TryMemoryKeeps(s: State, t: nat, h: Hash, fails: bool)
    requires Inv(s) && Delivered(s, h)
    ensures Inv(TryMemory(s, t, h, fails))
  {
    hide Inv, MemoryMatch, FindCached;
    if h in s.txs && s.txs[h].version == V11 {
      NamedByHash(s, h);
      TaskPut(s, t, SearchDb(h));
      var cached := FindCached(s.cache, s.txs[h]);
      if cached.Some? && MemoryGuards(s, s.txs[h], cached.value.id, cached.value.sourceId) {
        MatchedChain(cached.value, s.txs[h]);
        CachedFact(s, cached.value);
        RowTarget(s, cached.value.id);
        SettledKeeps(s, s.txs[h], cached.value.id);
      }
    }
  }

  lemma CachedFact(s: State, c: Cached)
    requires Inv(s) && c in s.cache
    ensures CachedOk(s, c)
  {
  }

  lemma NamedByHash(s: State, h: Hash)
    requires Inv(s) && h in s.txs
    ensures s.txs[h].hash == h
  {
  }

  lemma MatchedChain(c: Cached, tx: Transfer)
    requires MemoryMatch(c, tx)
    ensures c.target.chain == tx.chain
  {
  }

  lemma RowTarget(s: State, id: nat)
    requires Inv(s) && id in s.rows
    ensures s.rows[id].sourceId in s.txs && s.rows[id].target.chain == s.txs[s.rows[id].sourceId].targetChain
  {
    assert RowOk(s.txs, s.ops, s.rows[id]);
  }

  lemma FoundChain(s: State, tx: Transfer, id: nat)
    requires Finds(s, tx, Some(id))
    ensures id in s.rows && s.rows[id].target.chain == tx.chain
  {
  }

  /** A settled row that names a payment is the row a search for that payment may return: it searches no further. */
  lemma SettledIsFound(s: State, tx: Transfer, pick: Option<nat>, id: nat)
    requires Inv(s) && tx.hash in s.txs && s.txs[tx.hash] == tx && Finds(s, tx, pick)
    requires id in s.rows && s.rows[id].status == BRIDGE_SUCCESS && s.rows[id].targetId == Some(tx.hash)
    ensures pick.Some? && ByTarget(s, tx, pick.value)
  {
    assert RowOk(s.txs, s.ops, s.rows[id]);
    assert ByTarget(s, tx, id);
  }

  lemma SearchKeeps(s: State, t: nat, pick: Option<nat>)
    requires Inv(s)
    ensures Inv(SearchRows(s, t, pick))
  {
    hide Inv, Finds;
    if t in s.tasks && s.tasks[t].SearchDb? && s.tasks[t].hash in s.txs && Finds(s, s.txs[s.tasks[t].hash], pick) {
      TaskFact(s, t);
      if pick.Some? {
        FoundChain(s, s.txs[s.tasks[t].hash], pick.value);
        TaskPut(s, t, Matched(s.tasks[t].hash, pick.value));
      } else {
        TaskDropped(s, t);
      }
    }
  }

  lemma SaveKeeps(s: State, t: nat, fails: bool)
    requires Inv(s)
    ensures Inv(SaveMatch(s, t, fails))
  {
    hide Inv;
    if t in s.tasks && s.tasks[t].Matched? {
      TaskFact(s, t);
      TaskDropped(s, t);
      NamedByHash(s, s.tasks[t].hash);
      SettledKeeps(s.(tasks := s.tasks - {t}), s.txs[s.tasks[t].hash], s.tasks[t].id);
    }
  }

  lemma MakerPayKeeps(s: State, id: nat, status: int, payment: Option<Hash>)
    requires Inv(s)
    ensures Inv(MakerPay(s, id, status, payment))
  {
    if id in s.rows {
      assert RowOk(s.txs, s.ops, s.rows[id]);
      TasksSurvive(s, MakerPay(s, id, status, payment).rows, s.nextId, s.ops);
    }
    hide TaskOk;
  }

  lemma RejectKeeps(s: State, t: nat, code: int)
    requires Inv(s)
    ensures Inv(RejectSource(s, t, code))
  {
    hide Inv;
    if t in s.tasks && s.tasks[t].SourceRead? {
      TaskFact(s, t);
      TaskDropped(s, t);
      SourceStatus(s.(tasks := s.tasks - {t}), s.tasks[t].hash, code);
    }
  }

  lemma ReadKeeps(s: State, t: nat, h: Hash, found: Option<nat>)
    requires Inv(s)
    ensures Inv(ReadSource(s, t, h, found))
  {
    hide Inv;
    if h in s.txs && s.txs[h].version == V10 && IsRowOf(s.rows, s.txs[h], found) {
      NamedByHash(s, h);
      TaskPut(s, t, SourceRead(h, found));
    }
  }

  lemma DropKeeps(s: State, i: nat)
    requires Inv(s)
    ensures Inv(DropCached(s, i))
  {
    TasksIgnoreCache(s, DropCached(s, i).cache);
    forall c | c in DropCached(s, i).cache
      ensures CachedOk(DropCached(s, i), c)
    {
      assert CachedOk(s, c);
    }
    hide TaskOk, RowOk, CachedOk;
  }

  lemma RestartKeeps(s: State)
    requires Inv(s)
    ensures Inv(s.(cache := [], tasks := map[]))
  {
  }

  lemma NextKeeps(s: State, e: Event)
    requires Inv(s)
    ensures Inv(Next(s, e))
  {
    hide Inv, Arrive, ReadSource, RejectSource, CommitSource, TryMemory, SearchRows, SaveMatch, MakerPay, DropCached;
    match e
    case Arrives(tx, opStatus) => ArriveKeeps(s, tx, opStatus);
    case SourceReads(t, h, found) => ReadKeeps(s, t, h, found);
    case SourceRejects(t, code) => RejectKeeps(s, t, code);
    case SourceCommits(t, target, payloadOp, outcome, recent) => CommitSourceKeeps(s, t, target, payloadOp, outcome, recent);
    case CacheDrops(i) => DropKeeps(s, i);
    case PaymentTries(t, h, fails) =>
      if Delivered(s, h) {
        TryMemoryKeeps(s, t, h, fails);
      }
    case PaymentSearches(t, pick) => SearchKeeps(s, t, pick);
    case PaymentSaves(t, fails) => SaveKeeps(s, t, fails);
    case MakerPays(id, status, payment) => MakerPayKeeps(s, id, status, payment);
    case Restarts => RestartKeeps(s);
  }

  lemma {:induction false} RunKeeps(events: seq<Event>)
    ensures Inv(Run(events))
  {
    if events != [] {
      RunKeeps(events[..|events| - 1]);
      NextKeeps(Run(events[..|events| - 1]), events[|events| - 1]);
    }
  }

  // ---------- which payment a row names ----------

  // The row an event gives a payment, and which.
  function Gives(s: State, e: Event): Option<(nat, Hash)>
  {
    match e
    case PaymentTries(t, h, fails) =>
      if Delivered(s, h) && t !in s.tasks && s.txs[h].version == V11 && FindCached(s.cache, s.txs[h]).Some?
         && !fails && MemoryGuards(s, s.txs[h], FindCached(s.cache, s.txs[h]).value.id, FindCached(s.cache, s.txs[h]).value.sourceId)
      then Some((FindCached(s.cache, s.txs[h]).value.id, s.txs[h].hash)) else None
    case PaymentSaves(t, fails) =>
      if t in s.tasks && s.tasks[t].Matched? && s.tasks[t].hash in s.txs && !fails && s.tasks[t].id in s.rows
      then Some((s.tasks[t].id, s.txs[s.tasks[t].hash].hash)) else None
    case MakerPays(id, status, payment) =>
      if id in s.rows && Unsettled(s.rows[id].status) && s.rows[id].targetId.None? && status in {READY_PAID, PAID_CRASH, PAID_SUCCESS} && payment.Some?
      then Some((id, payment.value)) else None
    case _ => None
  }

  ghost predicate Names(rows: map<nat, Row>, id: nat, h: Hash)
  {
    id in rows && rows[id].targetId == Some(h)
  }

  ghost predicate NamedOnce(rows: map<nat, Row>)
  {
    forall i, j, h :: Names(rows, i, h) && Names(rows, j, h) ==> i == j
  }

  ghost predicate OneToOne(rows: map<nat, Row>)
  {
    forall i, j, h :: Names(rows, i, h) && Names(rows, j, h) && rows[i].status == rows[j].status == BRIDGE_SUCCESS ==> i == j
  }

  // A row before and after an event that gives it this payment, or none.
  ghost predicate RowMoves(s: State, n: State, id: nat, given: Option<(nat, Hash)>, maker: bool)
  {
    id in n.rows ==>
      if given.Some? && given.value.0 == id then
        && id in s.rows && n.rows[id].targetId == Some(given.value.1)
        && (n.rows[id].status == BRIDGE_SUCCESS <==> !maker)
      else if id in s.rows then
        n.rows[id].targetId == s.rows[id].targetId && (n.rows[id].status == BRIDGE_SUCCESS <==> s.rows[id].status == BRIDGE_SUCCESS)
      else n.rows[id].targetId == None && n.rows[id].status == 0
  }

  lemma SaveMoves(s: State, t: nat, fails: bool, id: nat)
    requires Inv(s)
    ensures RowMoves(s, SaveMatch(s, t, fails), id, Gives(s, PaymentSaves(t, fails)), false)
  {
    hide Inv, CloseBoth;
    if t in s.tasks {
      TaskFact(s, t);
    }
  }

  lemma SearchMoves(s: State, t: nat, pick: Option<nat>, id: nat)
    ensures RowMoves(s, SearchRows(s, t, pick), id, None, false)
  {
    hide Finds;
  }

  lemma TryMoves(s: State, e: Event, id: nat)
    requires e.PaymentTries?
    ensures RowMoves(s, Next(s, e), id, Gives(s, e), false)
  {
    hide FindCached, CloseBoth;
  }

  lemma CommitMoves(s: State, t: nat, target: Target, payloadOp: int, outcome: Outcome, recent: bool, id: nat)
    ensures RowMoves(s, CommitSource(s, t, target, payloadOp, outcome, recent), id, None, false)
  {
    hide SetOp, Duplicate, AddToCache;
  }

  lemma NextMoves(s: State, e: Event, id: nat)
    requires Inv(s)
    ensures RowMoves(s, Next(s, e), id, Gives(s, e), e.MakerPays?)
    ensures forall i :: i in s.rows ==> i in Next(s, e).rows
  {
    match e
    case PaymentSearches(t, pick) =>
      SearchMoves(s, t, pick, id);
      RowsKept(s, e);
    case PaymentSaves(t, fails) =>
      SaveMoves(s, t, fails, id);
      RowsKept(s, e);
    case PaymentTries(t, h, fails) =>
      TryMoves(s, e, id);
      RowsKept(s, e);
    case SourceCommits(t, target, payloadOp, outcome, recent) =>
      CommitMoves(s, t, target, payloadOp, outcome, recent, id);
      RowsKept(s, e);
    case _ =>
      hide Inv;
  }

  lemma RowsKept(s: State, e: Event)
    ensures forall i :: i in s.rows ==> i in Next(s, e).rows
  {
    hide FindCached, AddToCache, CloseBoth, Finds, Duplicate, SetOp, MemoryGuards, Settle, IsRowOf;
  }

  // The event gives a row a payment that another row names.
  ghost predicate TakesNamed(s: State, e: Event)
  {
    Gives(s, e).Some? && exists j :: j != Gives(s, e).value.0 && Names(s.rows, j, Gives(s, e).value.1)
  }

  // Two rows that come to name one payment: one was given it, and the other had it.
  lemma NamedTwice(s: State, n: State, given: Option<(nat, Hash)>, maker: bool, i: nat, j: nat, h: Hash)
    requires NamedOnce(s.rows) && RowMoves(s, n, i, given, maker) && RowMoves(s, n, j, given, maker)
    requires Names(n.rows, i, h) && Names(n.rows, j, h)
    ensures i != j ==> given.Some? && exists k :: k != given.value.0 && Names(s.rows, k, given.value.1)
  {
    if i != j {
      if given.Some? && given.value.0 == i {
        assert Names(s.rows, j, given.value.1);
      } else if given.Some? && given.value.0 == j {
        assert Names(s.rows, i, given.value.1);
      } else {
        assert Names(s.rows, i, h) && Names(s.rows, j, h);
      }
    }
  }

  /** While no two rows name one payment, an event keeps it so if and only if it does not give a row a payment that
      another row names: a memory match or search of a payment the maker's client wrote to another row, or the client
      writing one that was matched to another row. */
  lemma NamedOnceIff(s: State, e: Event)
    requires Inv(s) && NamedOnce(s.rows)
    ensures NamedOnce(Next(s, e).rows) <==> !TakesNamed(s, e)
  {
    var n := Next(s, e);
    forall id
      ensures RowMoves(s, n, id, Gives(s, e), e.MakerPays?) && (id in s.rows ==> id in n.rows)
    {
      NextMoves(s, e, id);
    }
    GivenExists(s, e);
    hide Inv, Next, Gives, RowMoves;
    if !TakesNamed(s, e) {
      forall i, j, h | Names(n.rows, i, h) && Names(n.rows, j, h)
        ensures i == j
      {
        assert RowMoves(s, n, i, Gives(s, e), e.MakerPays?) && RowMoves(s, n, j, Gives(s, e), e.MakerPays?);
        NamedTwice(s, n, Gives(s, e), e.MakerPays?, i, j, h);
      }
    } else {
      var (id, h) := Gives(s, e).value;
      var j :| j != id && Names(s.rows, j, h);
      MovedNames(s, n, Gives(s, e), e.MakerPays?, id, j, h);
    }
  }

  lemma MovedNames(s: State, n: State, given: Option<(nat, Hash)>, maker: bool, id: nat, j: nat, h: Hash)
    requires given == Some((id, h)) && j != id && id in n.rows && j in n.rows
    requires RowMoves(s, n, id, given, maker) && RowMoves(s, n, j, given, maker) && Names(s.rows, j, h)
    ensures Names(n.rows, id, h) && Names(n.rows, j, h)
  {
  }

  lemma GivenExists(s: State, e: Event)
    ensures Gives(s, e).Some? ==> Gives(s, e).value.0 in s.rows
  {
    hide FindCached;
  }

  // A row is saved for a payment while another settled row names it.
  ghost predicate Doubles(s: State, e: Event)
  {
    && e.PaymentSaves? && Gives(s, e).Some?
    && exists j :: j != Gives(s, e).value.0 && Names(s.rows, j, Gives(s, e).value.1) && s.rows[j].status == BRIDGE_SUCCESS
  }

  /** While settled rows and payments are one to one, an event keeps it so if and only if it is not such a save: the
      guards of the memory match are enough, and the maker's client settles no row. */
  lemma OneToOneIff(s: State, e: Event)
    requires Inv(s) && OneToOne(s.rows)
    ensures OneToOne(Next(s, e).rows) <==> !Doubles(s, e)
  {
    var n := Next(s, e);
    forall id
      ensures RowMoves(s, n, id, Gives(s, e), e.MakerPays?) && (id in s.rows ==> id in n.rows)
    {
      NextMoves(s, e, id);
    }
    GivenExists(s, e);
    MemoryGivesUnused(s, e);
    OnlyThreeGive(s, e);
    hide Inv, Next, Gives;
    if !Doubles(s, e) {
      forall i, j, h | Names(n.rows, i, h) && Names(n.rows, j, h) && n.rows[i].status == n.rows[j].status == BRIDGE_SUCCESS
        ensures i == j
      {
        assert RowMoves(s, n, i, Gives(s, e), e.MakerPays?) && RowMoves(s, n, j, Gives(s, e), e.MakerPays?);
        assert i != j ==> Names(s.rows, i, h) || Names(s.rows, j, h);
      }
    } else {
      var (id, h) := Gives(s, e).value;
      var j :| j != id && Names(s.rows, j, h) && s.rows[j].status == BRIDGE_SUCCESS;
      assert Names(n.rows, j, h) && Names(n.rows, id, h);
    }
  }

  lemma OnlyThreeGive(s: State, e: Event)
    ensures Gives(s, e).Some? ==> e.PaymentTries? || e.PaymentSaves? || e.MakerPays?
  {
    hide FindCached;
  }

  // The memory match gives only payments that no settled row names.
  lemma MemoryGivesUnused(s: State, e: Event)
    requires Inv(s)
    ensures e.PaymentTries? && Gives(s, e).Some? ==>
              forall j :: Names(s.rows, j, Gives(s, e).value.1) ==> s.rows[j].status != BRIDGE_SUCCESS
  {
    hide Inv, FindCached;
    if e.PaymentTries? && Gives(s, e).Some? {
      NamedByHash(s, e.h);
      OpenUnused(s, e.h);
    }
  }

  // The row a search found is not the one it would find now.
  ghost predicate Stale(s: State, e: Event)
  {
    && e.PaymentSaves? && e.t in s.tasks && s.tasks[e.t].Matched? && s.tasks[e.t].hash in s.txs
    && !Finds(s, s.txs[s.tasks[e.t].hash], Some(s.tasks[e.t].id))
  }

  /** A save whose search would still return its row doubles a payment only if the row, unsettled, names it already. */
  lemma FreshDoubles(s: State, e: Event)
    requires Inv(s) && Doubles(s, e) && !Stale(s, e) && OneToOne(s.rows)
    ensures var (id, h) := Gives(s, e).value; Names(s.rows, id, h) && s.rows[id].status != BRIDGE_SUCCESS
  {
    hide Inv, Finds, OneToOne;
    var (id, h) := Gives(s, e).value;
    var j :| j != id && Names(s.rows, j, h) && s.rows[j].status == BRIDGE_SUCCESS;
    NamedByHash(s, s.tasks[e.t].hash);
    SettledIsFound(s, s.txs[h], Some(id), j);
    if s.rows[id].status == BRIDGE_SUCCESS {
      TwoSettled(s, id, j, h);
    }
  }

  lemma TwoSettled(s: State, i: nat, j: nat, h: Hash)
    requires OneToOne(s.rows) && Names(s.rows, i, h) && Names(s.rows, j, h) && s.rows[i].status == s.rows[j].status == BRIDGE_SUCCESS
    ensures i == j
  {
  }

  lemma {:induction false} RunOneToOne(events: seq<Event>)
    requires forall i :: 0 <= i < |events| ==> !Doubles(Run(events[..i]), events[i])
    ensures OneToOne(Run(events).rows)
  {
    if events != [] {
      var before := events[..|events| - 1];
      assert forall i :: 0 <= i < |before| ==> before[..i] == events[..i] && before[i] == events[i];
      RunOneToOne(before);
      RunKeeps(before);
      OneToOneIff(Run(before), events[|events| - 1]);
    }
  }

  lemma {:induction false} RunNamedOnce(events: seq<Event>)
    requires forall i :: 0 <= i < |events| ==> !TakesNamed(Run(events[..i]), events[i])
    ensures NamedOnce(Run(events).rows)
  {
    if events != [] {
      var before := events[..|events| - 1];
      assert forall i :: 0 <= i < |before| ==> before[..i] == events[..i] && before[i] == events[i];
      RunNamedOnce(before);
      RunKeeps(before);
      NamedOnceIff(Run(before), events[|events| - 1]);
    }
  }

  /** In every run a settled row names a payment on its target chain. Settled rows and payments are one to one as long as
      no row is saved for a payment that another settled row names. */
  lemma {:induction false} PairingOneToOne(events: seq<Event>)
    ensures var s := Run(events);
      && (forall id :: id in s.rows && s.rows[id].status == BRIDGE_SUCCESS ==>
            && s.rows[id].targetId.Some? && s.rows[id].targetId.value in s.txs
            && s.txs[s.rows[id].targetId.value].chain == s.rows[id].target.chain)
      && ((forall i :: 0 <= i < |events| ==> !Doubles(Run(events[..i]), events[i])) ==> OneToOne(s.rows))
  {
    RunKeeps(events);
    var s := Run(events);
    forall id | id in s.rows
      ensures RowOk(s.txs, s.ops, s.rows[id])
    {
    }
    if forall i :: 0 <= i < |events| ==> !Doubles(Run(events[..i]), events[i]) {
      RunOneToOne(events);
    }
  }

  // ---------- the handlers as the only writers of payments ----------

  predicate NamesNoPayment(e: Event)
  {
    e.MakerPays? ==> e.payment.None?
  }

  ghost predicate OnlySettledNamed(rows: map<nat, Row>)
  {
    forall id :: id in rows && rows[id].targetId.Some? ==> rows[id].status == BRIDGE_SUCCESS
  }

  lemma HandlersTakeNone(s: State, e: Event)
    requires Inv(s) && OnlySettledNamed(s.rows) && NamedOnce(s.rows) && NamesNoPayment(e) && !Stale(s, e)
    ensures !TakesNamed(s, e) && OnlySettledNamed(Next(s, e).rows)
  {
    hide Inv, Next, Gives;
    if e.MakerPays? {
      MakerGivesNone(s, e);
    } else if e.PaymentSaves? {
      FreshTakesNone(s, e);
    }
    MemoryGivesUnused(s, e);
    OnlyThreeGive(s, e);
    var n := Next(s, e);
    forall id | id in n.rows && n.rows[id].targetId.Some?
      ensures n.rows[id].status == BRIDGE_SUCCESS
    {
      NextMoves(s, e, id);
    }
  }

  lemma MakerGivesNone(s: State, e: Event)
    requires NamesNoPayment(e) && e.MakerPays?
    ensures Gives(s, e).None?
  {
  }

  lemma OneNames(s: State, i: nat, j: nat, h: Hash)
    requires NamedOnce(s.rows) && Names(s.rows, i, h) && Names(s.rows, j, h)
    ensures i == j
  {
  }

  // A fresh search returns the row that names its payment, if one does.
  lemma FreshTakesNone(s: State, e: Event)
    requires Inv(s) && OnlySettledNamed(s.rows) && NamedOnce(s.rows) && !Stale(s, e) && e.PaymentSaves?
    ensures !TakesNamed(s, e)
  {
    hide Inv, Finds, NamedOnce;
    if TakesNamed(s, e) {
      var (id, h) := Gives(s, e).value;
      var j :| j != id && Names(s.rows, j, h);
      NamedByHash(s, s.tasks[e.t].hash);
      SettledIsFound(s, s.txs[h], Some(id), j);
      OneNames(s, id, j, h);
    }
  }

  ghost predicate NeverStale(events: seq<Event>)
  {
    forall i :: 0 <= i < |events| ==> !Stale(Run(events[..i]), events[i])
  }

  /** While the maker's client writes no payment of its own, and no save comes after its search has become stale, in every
      run no two rows name one payment, and a row names one if and only if it is settled. */
  lemma {:induction false} HandlersNameOnce(events: seq<Event>)
    requires forall i :: 0 <= i < |events| ==> NamesNoPayment(events[i])
    requires NeverStale(events)
    ensures var s := Run(events); NamedOnce(s.rows) && OnlySettledNamed(s.rows)
  {
    if events != [] {
      var before := events[..|events| - 1];
      assert forall i :: 0 <= i < |before| ==> before[..i] == events[..i] && before[i] == events[i];
      HandlersNameOnce(before);
      RunKeeps(before);
      hide Inv, Next, Stale;
      HandlersTakeNone(Run(before), events[|events| - 1]);
      NamedOnceIff(Run(before), events[|events| - 1]);
    }
  }

  // ---------- a settled row is final ----------

  predicate Final(s: State, id: nat, h: Hash)
  {
    id in s.rows && s.rows[id].status == BRIDGE_SUCCESS && s.rows[id].targetId == Some(h)
  }

  lemma FinalTry(s: State, t: nat, g: Hash, fails: bool, id: nat, h: Hash)
    requires Final(s, id, h)
    ensures Final(TryMemory(s, t, g, fails), id, h)
  {
    hide MemoryMatch, CloseBoth, FindCached;
  }

  lemma FinalCommit(s: State, t: nat, target: Target, payloadOp: int, outcome: Outcome, recent: bool, id: nat, h: Hash)
    requires s.nextId !in s.rows && Final(s, id, h)
    ensures Final(CommitSource(s, t, target, payloadOp, outcome, recent), id, h)
  {
    hide SetOp, Duplicate, AddToCache;
  }

  // A handler that found the row for another payment saves it.
  predicate Overtakes(s: State, e: Event, id: nat, h: Hash)
  {
    e.PaymentSaves? && !e.fails && e.t in s.tasks && Rival(s.tasks[e.t], id, h)
  }

  predicate Rival(task: Task, id: nat, h: Hash)
  {
    task.Matched? && task.id == id && task.hash != h
  }

  lemma FinalSaveIff(s: State, t: nat, fails: bool, id: nat, h: Hash)
    requires Inv(s) && Final(s, id, h)
    ensures Final(SaveMatch(s, t, fails), id, h) <==> !Overtakes(s, PaymentSaves(t, fails), id, h)
  {
    hide Inv, CloseBoth;
    if t in s.tasks && s.tasks[t].Matched? {
      TaskFact(s, t);
      NamedByHash(s, s.tasks[t].hash);
    }
  }

  /** A settled row keeps its status and payment through an event if and only if that is not the save of a handler that
      found it for another payment before. */
  lemma FinalIff(s: State, e: Event, id: nat, h: Hash)
    requires Inv(s) && Final(s, id, h)
    ensures Final(Next(s, e), id, h) <==> !Overtakes(s, e, id, h)
  {
    hide Inv, TryMemory, CommitSource, SaveMatch, Finds;
    match e
    case PaymentSaves(t, fails) => FinalSaveIff(s, t, fails, id, h);
    case PaymentTries(t, g, fails) => FinalTry(s, t, g, fails, id, h);
    case SourceCommits(t, target, payloadOp, outcome, recent) =>
      NotTheNext(s);
      FinalCommit(s, t, target, payloadOp, outcome, recent, id, h);
    case _ =>
  }

  ghost predicate NoRival(s: State, id: nat, h: Hash)
  {
    forall t :: t in s.tasks ==> !Rival(s.tasks[t], id, h)
  }

  // A settled row is found only by its own payment.
  lemma FindsSettled(s: State, tx: Transfer, id: nat)
    requires Finds(s, tx, Some(id))
    ensures id in s.rows && s.rows[id].status == BRIDGE_SUCCESS ==> s.rows[id].targetId == Some(tx.hash)
  {
  }

  lemma SearchMakesNoRival(s: State, t: nat, pick: Option<nat>, id: nat, h: Hash)
    requires Inv(s) && Final(s, id, h) && NoRival(s, id, h)
    ensures NoRival(SearchRows(s, t, pick), id, h)
  {
    hide Inv, Finds;
    if t in s.tasks && s.tasks[t].SearchDb? && s.tasks[t].hash in s.txs && pick.Some? {
      NamedByHash(s, s.tasks[t].hash);
      if Finds(s, s.txs[s.tasks[t].hash], pick) {
        FindsSettled(s, s.txs[s.tasks[t].hash], pick.value);
      }
    }
  }

  lemma NoNewRival(s: State, e: Event, id: nat, h: Hash)
    requires Inv(s) && Final(s, id, h) && NoRival(s, id, h)
    ensures NoRival(Next(s, e), id, h)
  {
    hide Inv, SearchRows, FindCached, AddToCache, MemoryGuards, CloseBoth, Settle, SetOp, IsRowOf, Duplicate;
    match e
    case PaymentSearches(t, pick) => SearchMakesNoRival(s, t, pick, id, h);
    case _ =>
  }

  function RunFrom(s: State, events: seq<Event>): State
  {
    if events == [] then s else Next(RunFrom(s, events[..|events| - 1]), events[|events| - 1])
  }

  lemma {:induction false} FinalWithoutRival(s: State, events: seq<Event>, id: nat, h: Hash)
    requires Inv(s) && Final(s, id, h) && NoRival(s, id, h)
    ensures var n := RunFrom(s, events); Inv(n) && Final(n, id, h) && NoRival(n, id, h)
  {
    if events != [] {
      var before := events[..|events| - 1];
      FinalWithoutRival(s, before, id, h);
      hide Inv, Next, Final;
      NextKeeps(RunFrom(s, before), events[|events| - 1]);
      FinalIff(RunFrom(s, before), events[|events| - 1], id, h);
      NoNewRival(RunFrom(s, before), events[|events| - 1], id, h);
    }
  }

  lemma RivalOvertakes(s: State, t: nat, id: nat, h: Hash)
    requires Inv(s) && Final(s, id, h) && t in s.tasks && Rival(s.tasks[t], id, h)
    ensures !Final(RunFrom(s, [PaymentSaves(t, false)]), id, h)
  {
    hide Inv, Next, Final;
    FinalIff(s, PaymentSaves(t, false), id, h);
    assert RunFrom(s, []) == s;
    assert [PaymentSaves(t, false)][..0] == [];
  }

  /** Once settled, a row keeps its status and its payment whatever follows (redeliveries, fallbacks after a rolled-back
      memory match, late commits of its source), if and only if no handler in progress found it for another payment. */
  lemma {:induction false} SettledForEverIff(s: State, id: nat, h: Hash)
    requires Inv(s) && Final(s, id, h)
    ensures (forall events :: Final(RunFrom(s, events), id, h)) <==> NoRival(s, id, h)
  {
    hide Inv, Next, RunFrom;
    if NoRival(s, id, h) {
      forall events
        ensures Final(RunFrom(s, events), id, h)
      {
        FinalWithoutRival(s, events, id, h);
      }
    } else {
      var t :| t in s.tasks && Rival(s.tasks[t], id, h);
      RivalOvertakes(s, t, id, h);
      assert !Final(RunFrom(s, [PaymentSaves(t, false)]), id, h);
    }
  }

  // ---------- what it rests on ----------

  /** A payment delivered again finds its settled row and reopens it if and only if its status is 3; any other payment
      could then take the row. Its callers only pass on payments of status 2. */
  lemma CrashedPaymentReopens(s: State, tx: Transfer, id: nat)
    requires Final(s, id, tx.hash) && s.rows[id].target.chain == tx.chain
    ensures ByTarget(s, tx, id) && (Unsettled(Settled(s, tx, id).rows[id].status) <==> tx.status == 3)
    ensures tx.status == 3 ==>
              (forall other: Transfer ::
                 other.symbol == s.rows[id].target.symbol && other.receiver == s.rows[id].target.address && other.chain == tx.chain
                 && other.amount == s.rows[id].target.amount && other.sender in s.rows[id].target.makers
                 ==> DbMatch(Settled(s, tx, id).rows[id], other))
  {
  }
}
