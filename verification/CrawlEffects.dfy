/**
 What the crawler's jobs take up: which blocks a scan picks, which a check queues, and that a scan that goes well takes its
 blocks off the queue, so that blocks are not only kept but worked off.
 */
module CrawlEffects {
  import opened Wrappers
  import opened Sequences
  import opened JsSet
  import opened CrawlQueue
  import opened CrawlSafety

  // ---------- what a scan picks ----------

  function Idle(dataSet: seq<int>, processing: set<int>): set<int>
  {
    set b | b in dataSet && b !in processing
  }

  // The batch: idle blocks, each once, in the order of the queue, as many as fit, and none passed over for a later one.
  ghost predicate FirstIdle(dataSet: seq<int>, processing: set<int>, size: int, batch: seq<int>)
  {
    && |batch| == (if 0 < size < |Idle(dataSet, processing)| then size else |Idle(dataSet, processing)|)
    && (forall b :: b in batch ==> b in Idle(dataSet, processing))
    && InOrder(dataSet, batch)
    && (forall p, q :: 0 <= p < q < |dataSet| && dataSet[q] in batch && dataSet[p] in Idle(dataSet, processing) ==> dataSet[p] in batch)
  }

  // Earlier in the batch is earlier in the queue.
  ghost predicate InOrder(xs: seq<int>, batch: seq<int>)
  {
    forall i, j, p, q :: 0 <= i < j < |batch| && 0 <= p < |xs| && 0 <= q < |xs| && xs[p] == batch[i] && xs[q] == batch[j] ==> p < q
  }

  lemma {:induction false} ExceptInOrder(xs: seq<int>, busy: set<int>)
    requires Distinct(xs)
    ensures InOrder(xs, Except(xs, busy))
  {
    if xs != [] {
      var init, x := xs[..|xs| - 1], xs[|xs| - 1];
      ExceptInOrder(init, busy);
      ExceptIs(init, busy);
      var rest := Except(init, busy);
      var all := Except(xs, busy);
      forall i, j, p, q | 0 <= i < j < |all| && 0 <= p < |xs| && 0 <= q < |xs| && xs[p] == all[i] && xs[q] == all[j]
        ensures p < q
      {
        assert all[i] == rest[i] && rest[i] in Elements(rest);
        assert rest[i] in Elements(init);
        assert p < |init| && init[p] == rest[i];
        if j < |rest| {
          assert rest[j] in Elements(rest);
          assert q < |init| && init[q] == rest[j];
        }
      }
    }
  }

  lemma {:induction false} DistinctCount(xs: seq<int>)
    requires Distinct(xs)
    ensures |Elements(xs)| == |xs|
  {
    if xs != [] {
      var init, x := xs[..|xs| - 1], xs[|xs| - 1];
      DistinctCount(init);
      assert xs == init + [x];
      Appended(init, x);
      assert x !in Elements(init);
    } else {
      assert Elements(xs) == {};
    }
  }

  lemma IdleCount(dataSet: seq<int>, processing: set<int>)
    requires Distinct(dataSet)
    ensures Idle(dataSet, processing) == Elements(Except(dataSet, processing))
    ensures |Idle(dataSet, processing)| == |Except(dataSet, processing)|
  {
    ExceptIs(dataSet, processing);
    assert Idle(dataSet, processing) == Elements(dataSet) - processing;
    DistinctCount(Except(dataSet, processing));
  }

  lemma NextBatchIsFirst(dataSet: seq<int>, processing: set<int>, size: int)
    requires Distinct(dataSet)
    ensures FirstIdle(dataSet, processing, size, NextBatch(dataSet, processing, size))
  {
    var all := Except(dataSet, processing);
    var batch := NextBatch(dataSet, processing, size);
    IdleCount(dataSet, processing);
    ExceptInOrder(dataSet, processing);
    hide Except;
    assert batch <= all;
    forall b | b in batch
      ensures b in Idle(dataSet, processing)
    {
      assert b in Elements(all);
    }
    forall p, q | 0 <= p < q < |dataSet| && dataSet[q] in batch && dataSet[p] in Idle(dataSet, processing)
      ensures dataSet[p] in batch
    {
      assert dataSet[p] in Elements(all);
      var i :| 0 <= i < |all| && all[i] == dataSet[p];
      var j :| 0 <= j < |batch| && batch[j] == dataSet[q];
      assert all[j] == dataSet[q];
      assert i <= j;
      assert batch[i] == dataSet[p];
    }
  }

  /** A waiting crawler scans if and only if some block is idle; it takes the first idle blocks of the queue, in order, as
      many as fit its batch. */
  lemma {:induction false} ScanTakesFirst(events: seq<Event>, size: int)
    requires Run(events).crawler.Waiting?
    ensures var s, n := Run(events), Next(Run(events), CrawlStarts(size));
      if exists b :: b in s.dataSet && b !in s.processing then
        && n.crawler.Scanning? && FirstIdle(s.dataSet, s.processing, size, n.crawler.batch) && n.crawler.batch != []
        && n.crawler.left == Elements(n.crawler.batch) && n.crawler.acks == n.crawler.noAcks == []
        && n.processing == s.processing + Elements(n.crawler.batch) && n.dataSet == s.dataSet && n.db == s.db
      else n == s
  {
    RunKeeps(events);
    hide Run, FirstIdle, Inv;
    ScanStarts(Run(events), size);
  }

  lemma ScanStarts(s: State, size: int)
    requires Inv(s) && s.crawler.Waiting?
    ensures var n := Next(s, CrawlStarts(size));
      if exists b :: b in s.dataSet && b !in s.processing then
        && n.crawler.Scanning? && FirstIdle(s.dataSet, s.processing, size, n.crawler.batch) && n.crawler.batch != []
        && n.crawler.left == Elements(n.crawler.batch) && n.crawler.acks == n.crawler.noAcks == []
        && n.processing == s.processing + Elements(n.crawler.batch) && n.dataSet == s.dataSet && n.db == s.db
      else n == s
  {
    assert Distinct(s.dataSet);
    NextBatchIsFirst(s.dataSet, s.processing, size);
    IdleCount(s.dataSet, s.processing);
    SomeIdle(s.dataSet, s.processing);
    hide Inv, Except, FirstIdle, InOrder, Distinct, Elements;
    PickedCount(s.dataSet, s.processing, size);
  }

  lemma SomeIdle(dataSet: seq<int>, processing: set<int>)
    requires Distinct(dataSet)
    ensures |Idle(dataSet, processing)| > 0 <==> exists b :: b in dataSet && b !in processing
  {
    IdleCount(dataSet, processing);
    var idle := Except(dataSet, processing);
    if idle != [] {
      assert idle[0] in Elements(idle);
      assert idle[0] in dataSet && idle[0] !in processing;
    } else {
      ExceptIs(dataSet, processing);
      forall b | b in dataSet
        ensures b in processing
      {
        assert b in Elements(dataSet) && b !in Elements(idle);
      }
    }
  }

  lemma PickedCount(dataSet: seq<int>, processing: set<int>, size: int)
    ensures NextBatch(dataSet, processing, size) == [] <==> |Except(dataSet, processing)| == 0
  {
  }

  // ---------- a scan that goes well ----------

  function RunFrom(s: State, events: seq<Event>): State
  {
    if events == [] then s else Next(RunFrom(s, events[..|events| - 1]), events[|events| - 1])
  }

  // The first k blocks of the batch are fetched, read and stored.
  function Scans(batch: seq<int>, scan: Scan, k: nat): (events: seq<Event>)
    requires k <= |batch|
    ensures |events| == k
  {
    if k == 0 then [] else Scans(batch, scan, k - 1) + [BlockScans(batch[k - 1], scan)]
  }

  lemma RunFromStep(s: State, events: seq<Event>, e: Event)
    ensures RunFrom(s, events + [e]) == Next(RunFrom(s, events), e)
  {
    hide Next;
    assert (events + [e])[..|events + [e]| - 1] == events;
  }

  lemma GoodIsAcked(scan: Scan)
    requires Genuine(scan)
    ensures Judge(scan) == Acked
  {
  }

  // One block of the batch is stored.
  lemma ScansOne(s: State, b: int, scan: Scan)
    requires s.crawler.Scanning? && b in s.crawler.left && Genuine(scan)
    ensures var Scanning(batch, left, acks, noAcks) := s.crawler;
      Next(s, BlockScans(b, scan)) ==
        s.(crawler := Scanning(batch, left - {b}, acks + [b], noAcks), trace := s.trace.(stored := s.trace.stored + {b}))
  {
    GoodIsAcked(scan);
    hide Judge, Genuine;
  }

  // The state when these blocks of the batch are stored.
  function ScannedSoFar(s: State, batch: seq<int>, k: nat): State
    requires k <= |batch|
  {
    s.(crawler := Scanning(batch, Elements(batch[k..]), batch[..k], []), trace := s.trace.(stored := s.trace.stored + Elements(batch[..k])))
  }

  lemma ScanNext(s: State, batch: seq<int>, scan: Scan, k: nat)
    requires Distinct(batch) && 0 < k <= |batch| && Genuine(scan)
    ensures Next(ScannedSoFar(s, batch, k - 1), BlockScans(batch[k - 1], scan)) == ScannedSoFar(s, batch, k)
  {
    OneScannedWell(batch, k);
    ScansOne(ScannedSoFar(s, batch, k - 1), batch[k - 1], scan);
    assert s.trace.stored + Elements(batch[..k - 1]) + {batch[k - 1]} == s.trace.stored + Elements(batch[..k]);
    hide Next, Elements, Distinct;
  }

  lemma {:induction false} AfterScans(s: State, scan: Scan, k: nat)
    requires s.crawler.Scanning? && s.crawler.left == Elements(s.crawler.batch) && s.crawler.acks == s.crawler.noAcks == []
    requires Distinct(s.crawler.batch) && k <= |s.crawler.batch| && Genuine(scan)
    ensures RunFrom(s, Scans(s.crawler.batch, scan, k)) == ScannedSoFar(s, s.crawler.batch, k)
  {
    var batch := s.crawler.batch;
    if k == 0 {
      assert batch[0..] == batch && batch[..0] == [];
      assert s.trace.stored + Elements([]) == s.trace.stored;
    } else {
      hide Next, Genuine, Elements, Distinct, RunFrom, ScannedSoFar;
      AfterScans(s, scan, k - 1);
      RunFromStep(s, Scans(batch, scan, k - 1), BlockScans(batch[k - 1], scan));
      ScanNext(s, batch, scan, k);
    }
  }

  lemma OneScannedWell(batch: seq<int>, k: nat)
    requires Distinct(batch) && 0 < k <= |batch|
    ensures batch[k - 1] in Elements(batch[k - 1..]) && Elements(batch[k - 1..]) - {batch[k - 1]} == Elements(batch[k..])
    ensures batch[..k - 1] + [batch[k - 1]] == batch[..k] && Elements(batch[..k]) == Elements(batch[..k - 1]) + {batch[k - 1]}
    ensures Scans(batch, Scan(Row(true, None), Ok(()), true), k) != []
  {
    assert batch[k - 1..] == [batch[k - 1]] + batch[k..];
  }

  function Round(batch: seq<int>, scan: Scan): seq<Event>
  {
    Scans(batch, scan, |batch|) + [ScanEnds] + [AckLands(true)] + [AckEnds]
  }

  /** A batch all of whose blocks are fetched, read and stored leaves memory and LevelDB as a whole, and nothing else does;
      the crawler then waits again. */
  lemma {:induction false} RoundSettles(s: State, scan: Scan)
    requires s.crawler.Scanning? && s.crawler.left == Elements(s.crawler.batch) && s.crawler.acks == s.crawler.noAcks == []
    requires Distinct(s.crawler.batch) && s.crawler.batch != [] && Genuine(scan)
    ensures var n, batch := RunFrom(s, Round(s.crawler.batch, scan)), Elements(s.crawler.batch);
      && Elements(n.dataSet) == Elements(s.dataSet) - batch && n.db == s.db - batch && n.processing == s.processing - batch
      && n.trace.stored == s.trace.stored + batch && n.crawler.Waiting?
  {
    hide RunFrom, Next, Scans, ScannedSoFar, Genuine, Elements, Distinct;
    var batch := s.crawler.batch;
    AfterScans(s, scan, |batch|);
    var scans := Scans(batch, scan, |batch|);
    RunFromStep(s, scans, ScanEnds);
    RunFromStep(s, scans + [ScanEnds], AckLands(true));
    RunFromStep(s, scans + [ScanEnds] + [AckLands(true)], AckEnds);
    AllScannedWell(s, batch);
  }

  lemma AllScannedWell(s: State, batch: seq<int>)
    requires Distinct(batch) && batch != []
    ensures var n := Next(Next(Next(ScannedSoFar(s, batch, |batch|), ScanEnds), AckLands(true)), AckEnds);
      && Elements(n.dataSet) == Elements(s.dataSet) - Elements(batch) && n.db == s.db - Elements(batch)
      && n.processing == s.processing - Elements(batch) && n.trace.stored == s.trace.stored + Elements(batch) && n.crawler.Waiting?
  {
    assert batch[|batch|..] == [] && batch[..|batch|] == batch;
    NothingLeft();
    DeleteAllIs(s.dataSet, batch);
    hide Judge, DeleteAll, Elements;
  }

  lemma NothingLeft()
    ensures Elements([]) == {}
    ensures forall xs: seq<int> :: AddAll(xs, []) == xs
  {
  }

  /** From every reachable state, a restart and one scan of the whole queue that goes well work it off: memory and LevelDB
      are empty, and every block LevelDB held was stored. */
  lemma {:induction false} QueueDrains(events: seq<Event>, keys: seq<int>, scan: Scan)
    requires Distinct(keys) && Elements(keys) == Run(events).db && keys != [] && Genuine(scan)
    ensures var s := RunFrom(Run(events), [Crashes(keys), CrawlStarts(0)]);
      && s.crawler.Scanning? && s.crawler.batch == keys
      && var n := RunFrom(s, Round(keys, scan)); n.dataSet == [] && n.db == {} && Elements(keys) <= n.trace.stored
  {
    var s := Run(events);
    hide Run;
    var booted := Next(s, Crashes(keys));
    assert [Crashes(keys), CrawlStarts(0)] == [] + [Crashes(keys)] + [CrawlStarts(0)];
    RunFromStep(s, [], Crashes(keys));
    RunFromStep(s, [] + [Crashes(keys)], CrawlStarts(0));
    ExceptNothing(keys);
    var started := RunFrom(s, [Crashes(keys), CrawlStarts(0)]);
    assert started.crawler == Scanning(keys, Elements(keys), [], []);
    RoundSettles(started, scan);
    EmptyElements(RunFrom(started, Round(keys, scan)).dataSet);
    hide Round;
  }

  lemma {:induction false} ExceptNothing(xs: seq<int>)
    ensures Except(xs, {}) == xs
  {
    if xs != [] {
      ExceptNothing(xs[..|xs| - 1]);
    }
  }

  lemma EmptyElements(xs: seq<int>)
    ensures xs != [] ==> Elements(xs) != {}
  {
    if xs != [] {
      assert xs[0] in Elements(xs);
    }
  }

  // ---------- a scan that breaks ----------

  /** A scan breaks exactly when reading the transfers of a block that was fetched fails with null or undefined. */
  lemma BreaksIff(scan: Scan)
    ensures Judge(scan) == Breaks <==>
      scan.row.block && scan.handled == Err(Nullish) && !(scan.row.error.Some? && scan.row.error.value in {EmptyValue, OtherValue})
  {
  }

  /** Then the whole batch is idle again, whatever its other blocks met. */
  lemma BreakFreesBatch(s: State, b: int, scan: Scan)
    requires Inv(s) && s.crawler.Scanning? && b in s.crawler.left && Judge(scan) == Breaks
    ensures var n := Next(s, BlockScans(b, scan));
      && n.crawler.Waiting? && Elements(n.dataSet) == Elements(s.dataSet) && n.db == s.db
      && forall x :: x in s.crawler.batch ==> x in n.dataSet && x !in n.processing
  {
    AddAllIs(s.dataSet, s.crawler.batch);
    var n := Next(s, BlockScans(b, scan));
    assert n.dataSet == AddAll(s.dataSet, s.crawler.batch) && n.processing == s.processing - Elements(s.crawler.batch);
    InElements(n.dataSet);
    InElements(s.crawler.batch);
    hide Judge, AddAll, Distinct, Elements;
  }

  /** A scan that ends returns the blocks it could not handle, and goes on to acknowledge the others, if any. */
  lemma EndFreesRest(s: State)
    requires Inv(s) && s.crawler.Scanning? && s.crawler.left == {}
    ensures var n := Next(s, ScanEnds);
      && n.crawler == (if s.crawler.acks == [] then Waiting else Acking(s.crawler.acks))
      && Elements(n.dataSet) == Elements(s.dataSet) && n.processing == s.processing - Elements(s.crawler.noAcks) && n.db == s.db
  {
    AddAllIs(s.dataSet, s.crawler.noAcks);
    hide AddAll, Distinct;
  }

  // ---------- what a check queues ----------

  /** A check of a known height queues every block from the mark (or, after a start, from 100 blocks before it) up to the
      newest that is confirmed, and nothing else; without a mark it begins the batch limit below the height. */
  lemma CheckQueues(s: State, latest: int, batchLimit: int, confirmation: int)
    requires Inv(s) && s.checker.Resting? && latest != 0
    ensures var n := Next(s, Checks(latest, batchLimit, confirmation));
      var mark := if s.next == 0 then latest - batchLimit else s.next;
      var from, newest := if s.rpcLast == 0 && mark > 100 then mark - 100 else mark, latest - confirmation;
      && n.next == mark && n.file == mark && n.rpcLast == latest && n.db == s.db
      && (forall b :: b in n.dataSet <==> b in s.dataSet || from <= b <= newest)
      && (forall b :: b in n.processing <==> b in s.processing && !(from <= b <= newest))
      && n.checker == if from <= newest then Pushing(from, newest) else Resting
  {
    var n := Next(s, Checks(latest, batchLimit, confirmation));
    var mark := if s.next == 0 then latest - batchLimit else s.next;
    var from, newest := if s.rpcLast == 0 && mark > 100 then mark - 100 else mark, latest - confirmation;
    AddAllIs(s.dataSet, Sequence(from, newest));
    RangeIs(from, newest);
    assert Elements(n.dataSet) == Elements(s.dataSet) + Range(from, newest);
    assert n.processing == s.processing - Range(from, newest);
    forall b
      ensures b in n.dataSet <==> b in s.dataSet || from <= b <= newest
      ensures b in n.processing <==> b in s.processing && !(from <= b <= newest)
    {
      assert b in Elements(n.dataSet) <==> b in Elements(s.dataSet) || b in Range(from, newest);
    }
  }

  lemma InElements(xs: seq<int>)
    ensures forall b :: b in xs <==> b in Elements(xs)
  {
  }

  /** Once LevelDB has a range, the next one follows it without a gap: its mark is written as the first block after it, and
      a later check of the same process begins there. */
  lemma NextRangeFollows(s: State, latest: int, batchLimit: int, confirmation: int)
    requires Inv(s) && s.checker.Marking? && s.checker.hi != -1 && s.rpcLast != 0 && latest != 0 && latest - confirmation > s.checker.hi
    ensures var marked := Next(s, MarkLands(true));
      && marked.file == marked.next == s.checker.hi + 1 && marked.db == s.db && marked.checker.Resting?
      && Next(marked, Checks(latest, batchLimit, confirmation)).checker == Pushing(s.checker.hi + 1, latest - confirmation)
  {
    hide AddAll, Sequence, Inv;
  }

  /** After a restart the last hundred blocks before a mark above 100 are queued once more. */
  lemma RestartGoesBack(s: State, keys: seq<int>, latest: int, batchLimit: int, confirmation: int, b: int)
    requires Inv(s) && Distinct(keys) && Elements(keys) == s.db && s.file > 100 && latest != 0
    requires s.file - 100 <= b <= latest - confirmation
    ensures var n := Next(Next(s, Crashes(keys)), Checks(latest, batchLimit, confirmation));
            b in n.dataSet && b !in n.processing
  {
    BootKeeps(s, keys);
    hide Inv, AddAll, Sequence, Elements, Distinct;
    CheckQueues(Next(s, Crashes(keys)), latest, batchLimit, confirmation);
  }

  /** So are they after an empty answer to the question for the height. */
  lemma EmptyAnswerGoesBack(s: State, latest: int, batchLimit: int, confirmation: int)
    requires Inv(s) && s.checker.Resting? && s.next > 100 && latest != 0
    ensures var silent := Next(s, Checks(0, batchLimit, confirmation));
      && silent.dataSet == s.dataSet && silent.processing == s.processing && silent.db == s.db && silent.file == s.file
      && forall b :: b in Next(silent, Checks(latest, batchLimit, confirmation)).dataSet <==>
                       b in s.dataSet || s.next - 100 <= b <= latest - confirmation
  {
    NextKeeps(s, Checks(0, batchLimit, confirmation));
    hide Inv, AddAll, Sequence;
    CheckQueues(Next(s, Checks(0, batchLimit, confirmation)), latest, batchLimit, confirmation);
  }

  /** The first check of all queues the batch limit and a hundred blocks more, on a chain that has them. */
  lemma FirstCheckQueues(latest: int, batchLimit: int, confirmation: int)
    requires latest != 0
    ensures var from := if latest - batchLimit > 100 then latest - batchLimit - 100 else latest - batchLimit;
      forall b :: b in Next(Run([]), Checks(latest, batchLimit, confirmation)).dataSet <==> from <= b <= latest - confirmation
  {
    RunKeeps([]);
    hide Inv, AddAll, Sequence;
    CheckQueues(Run([]), latest, batchLimit, confirmation);
  }
}
