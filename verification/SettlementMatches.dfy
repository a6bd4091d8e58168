/**
 What a settled row and its payment have in common. The row stood in the database, at some moment of the run, asking for
 what the payment is: exactly, when the search found it, and up to case, not long before and on Loopring with its nonce,
 when the memory match did; or else the maker's client had written the payment to it.
 */
module SettlementMatches {
  import opened Wrappers
  import opened Settlement
  import opened SettlementSafety
  import opened Tables
  import opened Text

  // ---------- what is compared ----------

  // An unsettled row that asks for this payment.
  ghost predicate Asks(r: Row, tx: Transfer)
  {
    && r.status in {0, 96, 97, 98}
    && r.target.symbol == tx.symbol && r.target.address == tx.receiver && r.target.chain == tx.chain
    && r.target.amount == tx.amount && tx.sender in r.target.makers
  }

  // What a row or a cached one asks for, up to case.
  ghost predicate Resembles(target: Target, sourceTime: int, tx: Transfer)
  {
    && EqualsIgnoreCase(target.symbol, tx.symbol) && EqualsIgnoreCase(target.address, tx.receiver) && target.chain == tx.chain
    && EqualsIgnoreCase(target.amount, tx.amount) && tx.sender in target.makers && tx.timestamp > sourceTime - 60000
    && (target.chain in {"loopring", "loopring_test"} ==> tx.calldata.Some? && EqualsIgnoreCase(target.nonce, tx.calldata.value))
  }

  ghost predicate IsPayment(s: State, id: nat, tx: Transfer)
  {
    id in s.rows && s.rows[id].targetId == Some(tx.hash) && s.rows[id].target.chain == tx.chain
  }

  // ---------- one event ----------

  lemma MatchIsAsks(s: State, tx: Transfer)
    ensures forall id :: id in s.rows ==> (DbMatch(s.rows[id], tx) <==> Asks(s.rows[id], tx))
    ensures forall id :: ByTarget(s, tx, id) <==> IsPayment(s, id, tx)
  {
  }

  /** The search of a payment returns a row that names it if there is one, else an unsettled row that asks for it, and gives up
      if and only if there is neither. */
  lemma {:induction false} SearchReturnsIff(s: State, t: nat, pick: Option<nat>)
    requires t in s.tasks && s.tasks[t].SearchDb? && s.tasks[t].hash in s.txs
    ensures var n, h := Next(s, PaymentSearches(t, pick)), s.tasks[t].hash;
      var tx := s.txs[h];
      var named := exists id :: IsPayment(s, id, tx);
      && (t !in n.tasks <==> pick == None && !named && forall id :: id in s.rows ==> !Asks(s.rows[id], tx))
      && (forall id :: t in n.tasks && n.tasks[t] == Matched(h, id) <==>
            pick == Some(id) && if named then IsPayment(s, id, tx) else id in s.rows && Asks(s.rows[id], tx))
      && n.rows == s.rows && n.ops == s.ops
  {
    var tx := s.txs[s.tasks[t].hash];
    MatchIsAsks(s, tx);
    NamedInRows(s, tx);
    hide DbMatch, ByTarget, IsPayment, Asks;
  }

  lemma NamedInRows(s: State, tx: Transfer)
    ensures forall id :: ByTarget(s, tx, id) ==> id in s.rows
  {
  }

  // The transaction of the memory match goes through: one unsettled row of the time window, and two open transfers.
  ghost predicate GoesThrough(s: State, tx: Transfer, id: nat, sourceId: Hash)
  {
    && id in s.rows && s.rows[id].status in {0, 96, 97, 98}
    && tx.timestamp - 259200000 < s.rows[id].sourceTime < tx.timestamp + 300000
    && tx.hash in s.ops && s.ops[tx.hash] in {0, 1} && sourceId in s.ops && s.ops[sourceId] in {0, 1}
  }

  lemma GuardsAre(s: State, tx: Transfer, c: Cached)
    requires Inv(s) && c in s.cache && tx.hash in s.txs && s.txs[tx.hash] == tx && tx.version == V11
    ensures MemoryGuards(s, tx, c.id, c.sourceId) <==> GoesThrough(s, tx, c.id, c.sourceId)
  {
    CachedFact(s, c);
    hide Inv;
  }

  // What a match writes: the row gets its payment and is settled, and both transfers are closed.
  ghost predicate Pairs(s: State, n: State, id: nat, tx: Transfer)
  {
    && id in s.rows
    && n.rows == s.rows[id := s.rows[id].(targetId := Some(tx.hash), status := if tx.status == 3 then 97 else 99)]
    && n.ops.Keys == s.ops.Keys
    && forall h :: h in s.ops ==> n.ops[h] == if h in {tx.hash, s.rows[id].sourceId} && s.ops[h] in {0, 1} then 99 else s.ops[h]
  }

  lemma SettledPairs(s: State, id: nat, tx: Transfer)
    requires id in s.rows
    ensures Pairs(s, Settled(s, tx, id), id, tx)
  {
  }

  ghost predicate FirstResembles(cache: seq<Cached>, tx: Transfer, i: int)
  {
    && 0 <= i < |cache| && Resembles(cache[i].target, cache[i].sourceTime, tx)
    && forall j :: 0 <= j < i ==> !Resembles(cache[j].target, cache[j].sourceTime, tx)
  }

  lemma {:induction false} FirstIsFound(cache: seq<Cached>, tx: Transfer)
    ensures forall i :: FirstResembles(cache, tx, i) ==> FindCached(cache, tx) == Some(cache[i])
    ensures FindCached(cache, tx).Some? ==> exists i :: FirstResembles(cache, tx, i)
  {
    ResemblesIs(tx);
    hide MemoryMatch, Resembles;
    if cache != [] && !Resembles(cache[0].target, cache[0].sourceTime, tx) {
      var rest := cache[1..];
      FirstIsFound(rest, tx);
      forall i | FirstResembles(cache, tx, i)
        ensures FindCached(cache, tx) == Some(cache[i])
      {
        assert FirstResembles(rest, tx, i - 1);
      }
      if FindCached(rest, tx).Some? {
        var i :| FirstResembles(rest, tx, i);
        assert FirstResembles(cache, tx, i + 1);
      }
    } else if cache != [] {
      assert FirstResembles(cache, tx, 0);
    }
  }

  /** A payment is matched in memory if and only if a cached row resembles it, the first of these does go through, and the
      transaction does not fail; then the row is paired with it. Else it goes on to the database. */
  lemma {:induction false} MemoryPairsIff(s: State, t: nat, h: Hash, fails: bool)
    requires Inv(s) && t !in s.tasks && h in s.txs && s.txs[h].version == V11 && s.txs[h].status == 2
    ensures var n, tx := Next(s, PaymentTries(t, h, fails)), s.txs[h];
      && (forall i :: FirstResembles(s.cache, tx, i) && GoesThrough(s, tx, s.cache[i].id, s.cache[i].sourceId) && !fails ==>
            Pairs(s, n, s.cache[i].id, tx) && n.tasks == s.tasks)
      && (!(exists i :: FirstResembles(s.cache, tx, i) && GoesThrough(s, tx, s.cache[i].id, s.cache[i].sourceId) && !fails) ==>
            n.rows == s.rows && n.ops == s.ops && n.tasks == s.tasks[t := SearchDb(h)])
  {
    var tx, cached := s.txs[h], FindCached(s.cache, s.txs[h]);
    NamedByHash(s, h);
    FirstIsFound(s.cache, tx);
    MemoryOutcome(s, t, h, fails);
    hide Inv, Resembles, Pairs, GoesThrough, FindCached, Next;
    if cached.Some? {
      var i :| FirstResembles(s.cache, tx, i);
      assert cached.value == s.cache[i];
    }
  }

  lemma MemoryOutcome(s: State, t: nat, h: Hash, fails: bool)
    requires Inv(s) && t !in s.tasks && h in s.txs && s.txs[h].version == V11 && s.txs[h].status == 2
    ensures var n, tx, cached := Next(s, PaymentTries(t, h, fails)), s.txs[h], FindCached(s.cache, s.txs[h]);
      if cached.Some? && GoesThrough(s, tx, cached.value.id, cached.value.sourceId) && !fails
      then Pairs(s, n, cached.value.id, tx) && n.tasks == s.tasks
      else n.rows == s.rows && n.ops == s.ops && n.tasks == s.tasks[t := SearchDb(h)]
  {
    var tx, cached := s.txs[h], FindCached(s.cache, s.txs[h]);
    NamedByHash(s, h);
    if cached.Some? {
      GuardsAre(s, tx, cached.value);
      if cached.value.id in s.rows {
        SettledPairs(s, cached.value.id, tx);
      }
    }
    hide Inv, MemoryMatch, MemoryGuards, Pairs, Settle, CloseBoth;
    InRows(s, tx, cached);
  }

  lemma InRows(s: State, tx: Transfer, cached: Option<Cached>)
    ensures cached.Some? && GoesThrough(s, tx, cached.value.id, cached.value.sourceId) ==> cached.value.id in s.rows
  {
  }

  lemma ResemblesIs(tx: Transfer)
    ensures forall c: Cached :: MemoryMatch(c, tx) <==> Resembles(c.target, c.sourceTime, tx)
  {
  }

  /** The expiry job takes one entry out of the cache, and the others keep their order. */
  lemma DropsOne(s: State, i: nat)
    requires i < |s.cache|
    ensures var n := Next(s, CacheDrops(i));
      && n == s.(cache := n.cache) && |n.cache| == |s.cache| - 1
      && forall j :: 0 <= j < |n.cache| ==> n.cache[j] == s.cache[if j < i then j else j + 1]
  {
  }

  // ---------- sources ----------

  /** A source goes on to its transaction if and only if it is confirmed and has no row of status 90 or more. */
  lemma SourceBeginsIff(s: State, t: nat, h: Hash, found: Option<nat>)
    requires t !in s.tasks && h in s.txs && IsRowOf(s.rows, s.txs[h], found)
    ensures var n := Next(s, SourceReads(t, h, found));
      && (t in n.tasks <==>
            s.txs[h].status == 2 && s.txs[h].version == V10 && !(found.Some? && found.value in s.rows && s.rows[found.value].status >= 90))
      && (t in n.tasks ==> n.tasks[t] == SourceRead(h, found)) && n.rows == s.rows && n.ops == s.ops
  {
    hide IsRowOf;
    RowFound(s, s.txs[h], found);
  }

  lemma RowFound(s: State, tx: Transfer, found: Option<nat>)
    requires IsRowOf(s.rows, tx, found)
    ensures found.Some? ==> found.value in s.rows
  {
  }

  ghost predicate HasRow(s: State, h: Hash)
  {
    exists id :: id in s.rows && s.rows[id].sourceId == h
  }

  lemma HasRowIs(s: State, h: Hash)
    requires Inv(s) && h in s.txs
    ensures Duplicate(s.rows, s.txs[h]) <==> HasRow(s, h)
  {
    NamedByHash(s, h);
    if HasRow(s, h) {
      var id :| id in s.rows && s.rows[id].sourceId == h;
      assert RowOk(s.txs, s.ops, s.rows[id]);
    }
  }

  lemma CacheAdds(cache: seq<Cached>, entry: Cached, recent: bool)
    ensures AddToCache(cache, entry, recent) ==
      if recent && (forall c :: c in cache ==> c.sourceId != entry.sourceId) then cache + [entry] else cache
  {
  }

  /** Its transaction leaves a row of status 0 that asks for what the builder made of it, or writes source time and target of
      the row it found; unless it fails or another row has come in between, when it leaves the rows alone. A recent new row is
      cached, even if its transaction fails late. */
  lemma {:induction false} SourceLeavesRow(s: State, t: nat, target: Target, payloadOp: int, outcome: Outcome, recent: bool)
    requires Inv(s) && t in s.tasks && s.tasks[t].SourceRead? && target.chain == s.txs[s.tasks[t].hash].targetChain
    ensures var n, SourceRead(h, found) := Next(s, SourceCommits(t, target, payloadOp, outcome, recent)), s.tasks[t];
      var tx := s.txs[h];
      && (found.Some? ==> found.value in s.rows)
      && n.rows == (if outcome != Commits || (found.None? && HasRow(s, h)) then s.rows
                    else if found.None? then s.rows[s.nextId := Row(h, tx.chain, tx.timestamp, target, 0, None)]
                    else s.rows[found.value := s.rows[found.value].(sourceTime := tx.timestamp, target := target)])
      && n.cache == (if found.None? && outcome != FailsEarly && !HasRow(s, h) && recent && (forall c :: c in s.cache ==> c.sourceId != h)
                     then s.cache + [Cached(s.nextId, h, tx.timestamp, target)] else s.cache)
      && n.ops == if outcome != Commits || (found.None? && HasRow(s, h)) || payloadOp == 1 then s.ops else s.ops[h := 1]
  {
    TaskFact(s, t);
    HasRowIs(s, s.tasks[t].hash);
    NotTheNext(s);
    assert s.tasks[t].hash in s.ops;
    CacheAdds(s.cache, Cached(s.nextId, s.tasks[t].hash, s.txs[s.tasks[t].hash].timestamp, target), recent);
    hide Inv, HasRow, Duplicate, AddToCache;
  }

  // ---------- every run ----------

  // At some moment of the run the row stood in the database with these values.
  ghost predicate Was(events: seq<Event>, id: nat, target: Target, sourceTime: int)
  {
    exists i :: 0 <= i <= |events| && WasAt(Run(events[..i]), id, target, sourceTime)
  }

  ghost predicate WasAt(s: State, id: nat, target: Target, sourceTime: int)
  {
    id in s.rows && s.rows[id].target == target && s.rows[id].sourceTime == sourceTime
  }

  // At some moment of the run the row asked for the payment.
  ghost predicate Fitted(events: seq<Event>, id: nat, tx: Transfer)
  {
    exists i :: 0 <= i <= |events| && FitsAt(Run(events[..i]), id, tx)
  }

  ghost predicate FitsAt(s: State, id: nat, tx: Transfer)
  {
    id in s.rows && (Asks(s.rows[id], tx) || Resembles(s.rows[id].target, s.rows[id].sourceTime, tx))
  }

  ghost predicate MakerWrote(events: seq<Event>, id: nat, h: Hash)
  {
    exists i :: 0 <= i < |events| && events[i].MakerPays? && events[i].id == id && events[i].payment == Some(h)
  }

  ghost predicate Founded(events: seq<Event>, id: nat, h: Hash)
  {
    MakerWrote(events, id, h) || (h in Run(events).txs && Fitted(events, id, Run(events).txs[h]))
  }

  lemma PrefixOf(before: seq<Event>, e: Event, i: nat)
    requires i <= |before|
    ensures (before + [e])[..i] == before[..i]
  {
  }

  lemma WasGrows(before: seq<Event>, e: Event, id: nat, target: Target, sourceTime: int)
    requires Was(before, id, target, sourceTime)
    ensures Was(before + [e], id, target, sourceTime)
  {
    hide Run, WasAt;
    var i :| 0 <= i <= |before| && WasAt(Run(before[..i]), id, target, sourceTime);
    PrefixOf(before, e, i);
    assert WasAt(Run((before + [e])[..i]), id, target, sourceTime);
  }

  lemma FittedGrows(before: seq<Event>, e: Event, id: nat, tx: Transfer)
    requires Fitted(before, id, tx)
    ensures Fitted(before + [e], id, tx)
  {
    hide Run, FitsAt;
    var i :| 0 <= i <= |before| && FitsAt(Run(before[..i]), id, tx);
    PrefixOf(before, e, i);
    assert FitsAt(Run((before + [e])[..i]), id, tx);
  }

  // Now is a moment of the run.
  lemma WasNow(events: seq<Event>, id: nat, target: Target, sourceTime: int)
    requires WasAt(Run(events), id, target, sourceTime)
    ensures Was(events, id, target, sourceTime)
  {
    hide Run, WasAt;
    assert events[..|events|] == events;
  }

  lemma FitsNow(events: seq<Event>, id: nat, tx: Transfer)
    requires FitsAt(Run(events), id, tx)
    ensures Fitted(events, id, tx)
  {
    hide Run, FitsAt;
    assert events[..|events|] == events;
  }

  lemma ResembledOnce(events: seq<Event>, id: nat, target: Target, sourceTime: int, tx: Transfer)
    requires Was(events, id, target, sourceTime) && Resembles(target, sourceTime, tx)
    ensures Fitted(events, id, tx)
  {
    hide Run, Resembles, Asks;
    var i :| 0 <= i <= |events| && WasAt(Run(events[..i]), id, target, sourceTime);
    assert FitsAt(Run(events[..i]), id, tx);
  }

  lemma RunStep(before: seq<Event>, e: Event)
    ensures Run(before + [e]) == Next(Run(before), e)
  {
    hide Next;
    assert (before + [e])[..|before|] == before;
  }

  lemma TransfersStay(s: State, e: Event)
    ensures forall h :: h in s.txs ==> h in Next(s, e).txs && Next(s, e).txs[h] == s.txs[h]
  {
    hide FindCached, AddToCache, CloseBoth, Finds, Duplicate, SetOp, MemoryGuards, Settle, IsRowOf;
  }

  lemma FoundedGrows(before: seq<Event>, e: Event, id: nat, h: Hash)
    requires Founded(before, id, h)
    ensures Founded(before + [e], id, h)
  {
    hide Run, Next, Fitted;
    RunStep(before, e);
    TransfersStay(Run(before), e);
    if MakerWrote(before, id, h) {
      var i :| 0 <= i < |before| && before[i].MakerPays? && before[i].id == id && before[i].payment == Some(h);
      assert (before + [e])[i] == before[i];
    } else {
      FittedGrows(before, e, id, Run(before).txs[h]);
    }
  }

  // What is in the cache, is about to be saved, or is named has its reason in the run.
  ghost predicate Reasons(events: seq<Event>)
  {
    var s := Run(events);
    && (forall c :: c in s.cache && c.id in s.rows ==> Was(events, c.id, c.target, c.sourceTime))
    && (forall t :: t in s.tasks && s.tasks[t].Matched? ==> Founded(events, s.tasks[t].id, s.tasks[t].hash))
    && (forall id, h :: Names(s.rows, id, h) ==> Founded(events, id, h))
  }

  // A cached row is new with its row, or was cached before.
  lemma NewCached(s: State, e: Event, c: Cached)
    requires Inv(s) && c in Next(s, e).cache && c.id in Next(s, e).rows
    ensures (c in s.cache && c.id in s.rows) || WasAt(Next(s, e), c.id, c.target, c.sourceTime)
  {
    NotTheNext(s);
    if c in s.cache {
      CachedFact(s, c);
    }
    hide Inv, CommitSource;
    match e
    case SourceCommits(t, target, payloadOp, outcome, recent) =>
      CommitAdds(s, t, target, payloadOp, outcome, recent);
    case _ =>
      CacheOnlyShrinks(s, e, c);
      hide Next;
  }

  lemma CommitAdds(s: State, t: nat, target: Target, payloadOp: int, outcome: Outcome, recent: bool)
    ensures var n := CommitSource(s, t, target, payloadOp, outcome, recent);
      && (forall c :: c in n.cache ==> c in s.cache || (c.id in n.rows ==> c.id in s.rows || WasAt(n, c.id, c.target, c.sourceTime)))
      && (forall c :: c in n.cache ==> c in s.cache || c.id == s.nextId)
      && (forall id :: id in n.rows ==> id in s.rows || id == s.nextId)
  {
    hide SetOp, Duplicate;
  }

  lemma CacheOnlyShrinks(s: State, e: Event, c: Cached)
    requires Inv(s) && !e.SourceCommits? && c in Next(s, e).cache && c.id in Next(s, e).rows
    ensures c in s.cache && c.id in s.rows
  {
    NextMoves(s, e, c.id);
    hide Inv, FindCached, CloseBoth, Finds, SetOp, MemoryGuards, Settle, IsRowOf;
  }

  // A match about to be saved is new by its search, or was there before.
  lemma NewMatched(s: State, e: Event, t: nat)
    requires t in Next(s, e).tasks && Next(s, e).tasks[t].Matched?
    ensures var task := Next(s, e).tasks[t];
      || (t in s.tasks && s.tasks[t] == task)
      || (task.hash in s.txs && (IsPayment(s, task.id, s.txs[task.hash]) || (task.id in s.rows && Asks(s.rows[task.id], s.txs[task.hash]))))
  {
    hide FindCached, AddToCache, CloseBoth, Duplicate, SetOp, MemoryGuards, Settle, IsRowOf, SearchRows;
    if e.PaymentSearches? && e.t in s.tasks && s.tasks[e.t].SearchDb? && s.tasks[e.t].hash in s.txs {
      SearchReturnsIff(s, e.t, e.pick);
      SearchElsewhere(s, e.t, e.pick);
      hide Asks, IsPayment;
    } else if e.PaymentSearches? {
      NoSearch(s, e.t, e.pick);
    }
  }

  lemma SearchElsewhere(s: State, t: nat, pick: Option<nat>)
    requires t in s.tasks && s.tasks[t].SearchDb?
    ensures var n := SearchRows(s, t, pick);
      && (forall u :: u in n.tasks && u != t ==> u in s.tasks && n.tasks[u] == s.tasks[u])
      && (t in n.tasks && n.tasks[t].Matched? ==> n.tasks[t].hash == s.tasks[t].hash)
  {
    hide Finds;
  }

  lemma NoSearch(s: State, t: nat, pick: Option<nat>)
    requires !(t in s.tasks && s.tasks[t].SearchDb? && s.tasks[t].hash in s.txs)
    ensures SearchRows(s, t, pick) == s
  {
  }

  lemma CachedReason(before: seq<Event>, e: Event, c: Cached)
    requires Reasons(before) && c in Run(before + [e]).cache && c.id in Run(before + [e]).rows
    ensures Was(before + [e], c.id, c.target, c.sourceTime)
  {
    RunKeeps(before);
    hide Run, Next, Inv, Was, WasAt, Founded;
    RunStep(before, e);
    var s := Run(before);
    NewCached(s, e, c);
    if c in s.cache && c.id in s.rows {
      WasGrows(before, e, c.id, c.target, c.sourceTime);
    } else {
      WasNow(before + [e], c.id, c.target, c.sourceTime);
    }
  }

  lemma MatchedReason(before: seq<Event>, e: Event, t: nat)
    requires Reasons(before) && t in Run(before + [e]).tasks && Run(before + [e]).tasks[t].Matched?
    ensures Founded(before + [e], Run(before + [e]).tasks[t].id, Run(before + [e]).tasks[t].hash)
  {
    RunKeeps(before);
    var s := Run(before);
    var task := Run(before + [e]).tasks[t];
    NamedTx(s);
    hide Run, Next, Inv, Was, Fitted, Asks;
    RunStep(before, e);
    NewMatched(s, e, t);
    if !(t in s.tasks && s.tasks[t] == task) && !IsPayment(s, task.id, s.txs[task.hash]) {
      AskedNow(before, task.id, s.txs[task.hash]);
    }
    hide Founded;
    assert IsPayment(s, task.id, s.txs[task.hash]) ==> Names(s.rows, task.id, s.txs[task.hash].hash);
    FoundedGrows(before, e, task.id, task.hash);
  }

  lemma NamedTx(s: State)
    requires Inv(s)
    ensures forall h :: h in s.txs ==> s.txs[h].hash == h
  {
  }

  lemma AskedNow(events: seq<Event>, id: nat, tx: Transfer)
    requires id in Run(events).rows && Asks(Run(events).rows[id], tx)
    ensures Fitted(events, id, tx)
  {
    hide Run, Asks, Resembles;
    FitsNow(events, id, tx);
  }

  // The three ways a row comes to name a payment.
  lemma NewName(s: State, e: Event, id: nat, h: Hash)
    requires Inv(s) && Names(Next(s, e).rows, id, h)
    ensures Names(s.rows, id, h) || (e.MakerPays? && e.id == id && e.payment == Some(h))
      || (e.PaymentSaves? && e.t in s.tasks && s.tasks[e.t] == Matched(h, id))
      || (exists c :: c in s.cache && c.id == id && id in s.rows && h in s.txs && Resembles(c.target, c.sourceTime, s.txs[h]))
  {
    NextMoves(s, e, id);
    OnlyThreeGive(s, e);
    hide Inv, Next;
    if !Names(s.rows, id, h) {
      assert Gives(s, e) == Some((id, h));
      GivenBy(s, e, id, h);
    }
  }

  lemma GivenBy(s: State, e: Event, id: nat, h: Hash)
    requires Inv(s) && Gives(s, e) == Some((id, h))
    ensures (e.MakerPays? && e.id == id && e.payment == Some(h))
      || (e.PaymentSaves? && e.t in s.tasks && s.tasks[e.t] == Matched(h, id))
      || (exists c :: c in s.cache && c.id == id && id in s.rows && h in s.txs && Resembles(c.target, c.sourceTime, s.txs[h]))
  {
    NamedTx(s);
    if e.PaymentTries? {
      var c := FindCached(s.cache, s.txs[e.h]).value;
      ResemblesIs(s.txs[e.h]);
      assert c in s.cache && c.id == id;
    }
    hide Inv, MemoryMatch, Resembles;
  }

  lemma NamedReason(before: seq<Event>, e: Event, id: nat, h: Hash)
    requires Reasons(before) && Names(Run(before + [e]).rows, id, h)
    ensures Founded(before + [e], id, h)
  {
    RunKeeps(before);
    var s := Run(before);
    hide Run, Next, Inv, Was, Fitted, Resembles;
    RunStep(before, e);
    NewName(s, e, id, h);
    if Names(s.rows, id, h) || (e.PaymentSaves? && e.t in s.tasks && s.tasks[e.t] == Matched(h, id)) {
      FoundedGrows(before, e, id, h);
    } else if e.MakerPays? && e.id == id && e.payment == Some(h) {
      assert (before + [e])[|before|] == e;
    } else {
      var c :| c in s.cache && c.id == id && id in s.rows && h in s.txs && Resembles(c.target, c.sourceTime, s.txs[h]);
      ResembledOnce(before, id, c.target, c.sourceTime, s.txs[h]);
      FoundedGrows(before, e, id, h);
    }
  }

  lemma {:induction false} RunReasons(events: seq<Event>)
    ensures Reasons(events)
  {
    if events != [] {
      var before, e := events[..|events| - 1], events[|events| - 1];
      assert events == before + [e];
      RunReasons(before);
      hide Run, Was, Founded, Names;
      forall c | c in Run(events).cache && c.id in Run(events).rows
        ensures Was(events, c.id, c.target, c.sourceTime)
      {
        CachedReason(before, e, c);
      }
      forall t | t in Run(events).tasks && Run(events).tasks[t].Matched?
        ensures Founded(events, Run(events).tasks[t].id, Run(events).tasks[t].hash)
      {
        MatchedReason(before, e, t);
      }
      forall id, h | Names(Run(events).rows, id, h)
        ensures Founded(events, id, h)
      {
        NamedReason(before, e, id, h);
      }
    }
  }

  /** In every run a settled row has asked for its payment: at some moment, unsettled, for exactly its symbol, address, chain and
      amount and with its sender among the makers; or for the same up to case, no more than a minute after the payment, and
      on Loopring with its nonce. Or else the maker's client had written the payment to it. */
  lemma {:induction false} SettledFits(events: seq<Event>, id: nat)
    requires id in Run(events).rows && Run(events).rows[id].status == 99
    ensures var s := Run(events);
      var payment := s.rows[id].targetId;
      && payment.Some? && payment.value in s.txs
      && var tx := s.txs[payment.value];
      || (exists i :: 0 <= i < |events| && events[i].MakerPays? && events[i].id == id && events[i].payment == payment)
      || (exists i :: 0 <= i <= |events| && FitsAt(Run(events[..i]), id, tx))
  {
    PairingOneToOne(events);
    RunReasons(events);
    hide Run, FitsAt, Inv;
    assert Names(Run(events).rows, id, Run(events).rows[id].targetId.value);
    assert Founded(events, id, Run(events).rows[id].targetId.value);
  }

  /** So has the row of a match about to be saved. */
  lemma {:induction false} MatchedFits(events: seq<Event>, t: nat)
    requires t in Run(events).tasks && Run(events).tasks[t].Matched?
    ensures var s, task := Run(events), Run(events).tasks[t];
      || (exists i :: 0 <= i < |events| && events[i].MakerPays? && events[i].id == task.id && events[i].payment == Some(task.hash))
      || (task.hash in s.txs && exists i :: 0 <= i <= |events| && FitsAt(Run(events[..i]), task.id, s.txs[task.hash]))
  {
    RunReasons(events);
    hide Run, FitsAt;
    assert Founded(events, Run(events).tasks[t].id, Run(events).tasks[t].hash);
  }
}
