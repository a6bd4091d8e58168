/**
 What the crawler never does: lose a block. Whatever interleaving of the two jobs and whatever crashes, every
 block from the first start up to the highest mark ever written is in LevelDB or was acknowledged, and a block
 is acknowledged only after its transfers were stored, but for one kind of failed request.
 */
module CrawlSafety {
  import opened Wrappers
  import opened Sequences
  import opened JsSet
  import opened CrawlQueue

  function Done(s: State): set<int>
  {
    s.trace.stored + s.trace.writtenOff
  }

  // ---------- the invariant ----------

  predicate MarksOk(s: State)
  {
    && s.next == s.file
    && (s.trace.start.None? ==> s.file == 0 && s.checker.Resting?)
    && (s.trace.start.Some? ==> s.trace.start.value <= s.trace.highest && s.file <= s.trace.highest)
  }

  // What is being pushed starts no higher than the highest mark; what was pushed is there until it is done.
  predicate CheckerOk(s: State)
  {
    match s.checker
    case Resting => true
    case Pushing(lo, hi) => lo <= hi && lo <= s.trace.highest && Range(lo, hi) <= Elements(s.dataSet) + Done(s)
    case Marking(lo, hi) => lo <= hi && lo <= s.trace.highest && Range(lo, hi) <= s.db + Done(s)
  }

  predicate Partition(batch: seq<int>, left: set<int>, acks: seq<int>, noAcks: seq<int>)
  {
    && Distinct(batch) && Distinct(acks) && Distinct(noAcks)
    && Elements(batch) == left + Elements(acks) + Elements(noAcks)
    && left !! Elements(acks) !! Elements(noAcks)
  }

  predicate CrawlerOk(s: State)
  {
    match s.crawler
    case Waiting => true
    case Scanning(batch, left, acks, noAcks) =>
      Partition(batch, left, acks, noAcks) && Elements(batch) <= Elements(s.dataSet) && Elements(acks) <= Done(s)
    case Acking(acks) => Elements(acks) <= Done(s)
    case Forgetting(acks) => Elements(acks) <= Done(s)
  }

  // Blocks of the batch in progress.
  function Batch(s: State): set<int>
  {
    if s.crawler.Scanning? then Elements(s.crawler.batch) else {}
  }

  // Blocks in memory that LevelDB is still writing.
  function Writing(s: State): set<int>
  {
    if s.checker.Pushing? then Range(s.checker.lo, s.checker.hi) else {}
  }

  predicate MemoryOk(s: State)
  {
    && Distinct(s.dataSet)
    && s.processing <= Elements(s.dataSet)
    && s.processing <= Batch(s) + Done(s)
    && s.db <= Elements(s.dataSet) + Done(s)
    && Elements(s.dataSet) <= s.db + Done(s) + Writing(s) + s.trace.unsaved
  }

  predicate Inv(s: State)
  {
    MarksOk(s) && CheckerOk(s) && CrawlerOk(s) && MemoryOk(s)
  }

  // ---------- every event keeps it ----------

  lemma RangeIs(lo: int, hi: int)
    ensures forall b :: b in Range(lo, hi) <==> lo <= b <= hi
  {
    forall b | lo <= b <= hi
      ensures b in Sequence(lo, hi)
    {
      assert Sequence(lo, hi)[b - lo] == b;
    }
  }

  lemma CheckKeeps(s: State, latest: int, batchLimit: int, confirmation: int)
    requires Inv(s)
    ensures Inv(Check(s, latest, batchLimit, confirmation))
  {
    if s.checker.Resting? && latest != 0 {
      var from, safe := From(s, latest, batchLimit), latest - confirmation;
      AddAllIs(s.dataSet, Sequence(from, safe));
    }
  }

  lemma PushKeeps(s: State, ok: bool)
    requires Inv(s)
    ensures Inv(PushToStore(s, ok)) && Inv(MarkWritten(s, ok))
  {
  }

  lemma NextBatchIs(s: State, size: int)
    requires Distinct(s.dataSet)
    ensures var batch := NextBatch(s.dataSet, s.processing, size);
            Distinct(batch) && Elements(batch) <= Elements(s.dataSet) - s.processing
  {
    ExceptIs(s.dataSet, s.processing);
  }

  lemma StartKeeps(s: State, size: int)
    requires Inv(s)
    ensures Inv(StartCrawl(s, size))
  {
    NextBatchIs(s, size);
  }

  lemma NoAckIs(s: State, blocks: seq<int>)
    ensures Elements(NoAck(s, blocks).dataSet) == Elements(s.dataSet) + Elements(blocks)
    ensures Distinct(s.dataSet) ==> Distinct(NoAck(s, blocks).dataSet)
  {
    AddAllIs(s.dataSet, blocks);
  }

  lemma ScanKeeps(s: State, b: int, scan: Scan)
    requires Inv(s)
    ensures Inv(ScanBlock(s, b, scan))
  {
    hide Judge, Genuine, Distinct, Partition, Elements, AddAll, Range;
    if s.crawler.Scanning? && b in s.crawler.left {
      var Scanning(batch, left, acks, noAcks) := s.crawler;
      NoAckIs(s, batch);
      OneScanned(batch, left, acks, noAcks, b);
    }
  }

  lemma OneScanned(batch: seq<int>, left: set<int>, acks: seq<int>, noAcks: seq<int>, b: int)
    requires Partition(batch, left, acks, noAcks) && b in left
    ensures Partition(batch, left - {b}, acks + [b], noAcks) && Elements(acks + [b]) == Elements(acks) + {b}
    ensures Partition(batch, left - {b}, acks, noAcks + [b])
  {
    Appended(acks, b);
    Appended(noAcks, b);
    hide Distinct, Elements;
  }

  lemma FinishKeeps(s: State)
    requires Inv(s)
    ensures Inv(FinishScan(s))
  {
    if s.crawler.Scanning? {
      NoAckIs(s, s.crawler.noAcks);
    }
  }

  lemma AckKeeps(s: State, ok: bool)
    requires Inv(s)
    ensures Inv(AckInStore(s, ok)) && Inv(AckInMemory(s))
  {
    if s.crawler.Forgetting? {
      DeleteAllIs(s.dataSet, s.crawler.acks);
    }
  }

  lemma NextKeeps(s: State, e: Event)
    requires Inv(s)
    ensures Inv(Next(s, e))
  {
    hide Inv, Boot, Check, PushToStore, MarkWritten, StartCrawl, ScanBlock, FinishScan, AckInStore, AckInMemory;
    match e
    case Crashes(keys) => BootKeeps(s, keys);
    case Checks(latest, batchLimit, confirmation) => CheckKeeps(s, latest, batchLimit, confirmation);
    case PushLands(ok) => PushKeeps(s, ok);
    case MarkLands(ok) => PushKeeps(s, ok);
    case CrawlStarts(size) => StartKeeps(s, size);
    case BlockScans(b, scan) => ScanKeeps(s, b, scan);
    case ScanEnds => FinishKeeps(s);
    case AckLands(ok) => AckKeeps(s, ok);
    case AckEnds => AckKeeps(s, true);
  }

  lemma BootKeeps(s: State, keys: seq<int>)
    requires Inv(s)
    ensures Inv(Boot(s, keys))
  {
  }

  lemma {:induction false} RunKeeps(events: seq<Event>)
    ensures Inv(Run(events))
  {
    if events != [] {
      RunKeeps(events[..|events| - 1]);
      NextKeeps(Run(events[..|events| - 1]), events[|events| - 1]);
    }
  }

  // ---------- no block is lost ----------

  // Every block from the first start up to the highest mark is in LevelDB or done.
  ghost predicate Covered(s: State)
  {
    s.trace.start.Some? ==> forall b :: s.trace.start.value <= b < s.trace.highest ==> b in s.db || b in Done(s)
  }

  // The mark is 0 although marks were written before, and the recent block a fresh start picks leaves out one
  // that is neither queued nor done.
  ghost predicate Skips(s: State, e: Event)
  {
    && e.Checks? && s.checker.Resting? && e.latest != 0 && s.next == 0 && s.trace.start.Some?
    && exists b :: s.trace.highest <= b < e.latest - e.batchLimit && b !in s.db && b !in Done(s)
  }

  /** One event leaves no block behind exactly when it is not a fresh start that skips one. */
  lemma CoveredIff(s: State, e: Event)
    requires Inv(s) && Covered(s)
    ensures Covered(Next(s, e)) <==> !Skips(s, e)
  {
    if s.checker.Marking? {
      RangeIs(s.checker.lo, s.checker.hi);
    }
    if e.Checks? && s.trace.start.Some? && Covered(Next(s, e)) {
      CheckCovers(s, e.latest, e.batchLimit, e.confirmation);
    }
  }

  lemma CheckCovers(s: State, latest: int, batchLimit: int, confirmation: int)
    requires Inv(s) && s.trace.start.Some? && Covered(Check(s, latest, batchLimit, confirmation))
    ensures !Skips(s, Checks(latest, batchLimit, confirmation))
  {
  }

  ghost predicate NeverSkips(events: seq<Event>)
  {
    forall i :: 0 <= i < |events| ==> !Skips(Run(events[..i]), events[i])
  }

  /** With crashes allowed between any two writes, and restarts that go back and lower the mark, every block from
      the first start up to the highest mark ever written is still in LevelDB or was acknowledged. */
  lemma {:induction false} NoBlockLost(events: seq<Event>)
    requires NeverSkips(events)
    ensures Covered(Run(events))
  {
    if events != [] {
      var before := events[..|events| - 1];
      assert forall i :: 0 <= i < |before| ==> before[..i] == events[..i] && before[i] == events[i];
      NoBlockLost(before);
      RunKeeps(before);
      CoveredIff(Run(before), events[|events| - 1]);
    }
  }

  // Every height the node answers lies above the batch limit.
  predicate FarChecks(events: seq<Event>)
  {
    forall i :: 0 <= i < |events| ==> Far(events[i])
  }

  predicate Far(e: Event)
  {
    e.Checks? && e.latest != 0 ==> e.latest > e.batchLimit
  }

  // Marks are positive once there is one, and so is where a range starts.
  predicate MarksPositive(s: State)
  {
    && (s.trace.start.Some? ==> s.file > 0)
    && (!s.checker.Resting? ==> s.checker.lo > 0)
  }

  lemma FarStep(s: State, e: Event)
    requires Inv(s) && MarksPositive(s) && Far(e)
    ensures MarksPositive(Next(s, e)) && !Skips(s, e)
  {
    hide CrawlerOk, MemoryOk, Judge, AddAll, DeleteAll, Range, Sequence, NextBatch;
  }

  lemma {:induction false} FarNeverSkips(events: seq<Event>)
    requires FarChecks(events)
    ensures NeverSkips(events) && MarksPositive(Run(events))
  {
    hide Next, Skips;
    if events != [] {
      var before := events[..|events| - 1];
      assert forall i :: 0 <= i < |before| ==> before[..i] == events[..i] && before[i] == events[i];
      FarNeverSkips(before);
      RunKeeps(before);
      FarStep(Run(before), events[|events| - 1]);
    }
  }

  /** On a chain whose height is above the batch limit whenever it is read, no run loses a block. */
  lemma {:induction false} NoBlockLostFar(events: seq<Event>)
    requires FarChecks(events)
    ensures var s := Run(events);
      s.trace.start.Some? ==> forall b :: s.trace.start.value <= b < s.trace.highest ==> b in s.db || b in Done(s)
  {
    FarNeverSkips(events);
    NoBlockLost(events);
  }

  // ---------- what an acknowledgement means ----------

  // The request failed, with a value that is truthy and empty: the callback takes it for no error.
  predicate SilentFailure(scan: Scan)
  {
    scan.row.error.Some? && scan.row.error.value == EmptyValue
  }

  /** A block is acknowledged exactly when its transfers were stored, or its request failed silently and storing
      no transfers at all succeeded. A row never has both a block and an error. */
  lemma AckedIff(scan: Scan)
    requires scan.row.error.Some? ==> !scan.row.block
    ensures Judge(scan) == Acked <==> Genuine(scan) || (SilentFailure(scan) && scan.stores)
    ensures Genuine(scan) ==> !SilentFailure(scan)
  {
  }

  // A block is written off by exactly such a scan of it.
  ghost predicate WritesOff(s: State, e: Event, b: int)
  {
    && e.BlockScans? && e.b == b && s.crawler.Scanning? && b in s.crawler.left
    && SilentFailure(e.scan) && e.scan.stores
  }

  predicate WellFormed(e: Event)
  {
    e.BlockScans? ==> (e.scan.row.error.Some? ==> !e.scan.row.block)
  }

  lemma WrittenOffIff(s: State, e: Event, b: int)
    requires WellFormed(e)
    ensures b in Next(s, e).trace.writtenOff <==> b in s.trace.writtenOff || WritesOff(s, e, b)
  {
    if e.BlockScans? {
      AckedIff(e.scan);
    }
  }

  ghost predicate NoSilentFailure(events: seq<Event>)
  {
    forall i :: 0 <= i < |events| ==> WellFormed(events[i]) && !(events[i].BlockScans? && SilentFailure(events[i].scan))
  }

  lemma {:induction false} NothingWrittenOff(events: seq<Event>)
    requires NoSilentFailure(events)
    ensures Run(events).trace.writtenOff == {}
  {
    if events != [] {
      var before := events[..|events| - 1];
      assert forall i :: 0 <= i < |before| ==> before[i] == events[i];
      NothingWrittenOff(before);
      forall b
        ensures b !in Run(events).trace.writtenOff
      {
        WrittenOffIff(Run(before), events[|events| - 1], b);
      }
    }
  }

  /** When no request fails silently, every block up to the highest mark is still queued or its transfers were stored. */
  lemma {:induction false} EveryBlockStored(events: seq<Event>)
    requires NeverSkips(events) && NoSilentFailure(events)
    ensures var s := Run(events);
      s.trace.start.Some? ==> forall b :: s.trace.start.value <= b < s.trace.highest ==> b in s.db || b in s.trace.stored
  {
    NoBlockLost(events);
    NothingWrittenOff(events);
  }

  // ---------- memory, LevelDB and the batch ----------

  /** Memory and LevelDB differ only by blocks that are done, being written, or that LevelDB refused to write. */
  lemma {:induction false} MemoryFollowsStore(events: seq<Event>)
    ensures var s := Run(events);
      && s.db <= Elements(s.dataSet) + Done(s)
      && Elements(s.dataSet) <= s.db + Done(s) + Writing(s) + s.trace.unsaved
  {
    RunKeeps(events);
  }

  /** No queued block is stuck: what LevelDB holds and is not done is in memory, where the next batch can take it
      unless the batch in progress has it. */
  lemma {:induction false} NeverStuck(events: seq<Event>, b: int)
    ensures var s := Run(events);
      && s.processing <= Elements(s.dataSet)
      && (b in s.db && b !in Done(s) ==> b in s.dataSet && (b in Except(s.dataSet, s.processing) || b in Batch(s)))
  {
    RunKeeps(events);
    var s := Run(events);
    ExceptIs(s.dataSet, s.processing);
    assert b in Elements(s.dataSet) - s.processing ==> b in Elements(Except(s.dataSet, s.processing));
  }

  lemma {:induction false} DistinctMultiset(xs: seq<int>)
    requires Distinct(xs)
    ensures multiset(xs) == multiset(Elements(xs))
  {
    if xs != [] {
      var init, x := xs[..|xs| - 1], xs[|xs| - 1];
      DistinctMultiset(init);
      assert xs == init + [x];
      Appended(init, x);
      assert x !in Elements(init);
    } else {
      assert Elements(xs) == {};
    }
  }

  /** A scan that reaches its end has put every block of its batch in exactly one of acks and noAcks, once. */
  lemma {:induction false} BatchAccounting(events: seq<Event>)
    ensures var s := Run(events);
      s.crawler.Scanning? && s.crawler.left == {} ==>
        multiset(s.crawler.batch) == multiset(s.crawler.acks) + multiset(s.crawler.noAcks)
  {
    RunKeeps(events);
    var s := Run(events);
    if s.crawler.Scanning? && s.crawler.left == {} {
      DistinctMultiset(s.crawler.batch);
      DistinctMultiset(s.crawler.acks);
      DistinctMultiset(s.crawler.noAcks);
    }
  }

  // ---------- the two ways out, shown on runs ----------

  lemma RunPrefix(events: seq<Event>, k: nat)
    requires k < |events|
    ensures Run(events[..k + 1]) == Next(Run(events[..k]), events[k])
  {
    assert events[..k + 1][..k] == events[..k];
  }

  // The first range ends at block -1, so the mark is 0, and the next start is far ahead.
  const YOUNG_CHAIN := [Checks(4, 100, 5), PushLands(true), MarkLands(true), Checks(1000, 100, 5)]

  /** On a young chain a start forgets the blocks between a mark of 0 and the block it picks anew. */
  lemma YoungChainSkips()
    ensures !Covered(Run(YOUNG_CHAIN))
  {
    RunPrefix(YOUNG_CHAIN, 0);
    RunPrefix(YOUNG_CHAIN, 1);
    RunPrefix(YOUNG_CHAIN, 2);
    RunPrefix(YOUNG_CHAIN, 3);
    assert YOUNG_CHAIN[..4] == YOUNG_CHAIN;
    RangeIs(-96, -1);
    var s := Run(YOUNG_CHAIN[..3]);
    assert s.trace == Trace(Some(-96), 0, {}, {}, {}) && s.next == 0 && s.db == Range(-96, -1) && s.checker == Resting;
    assert 0 !in s.db;
  }

  /** When the last block of a batch fails silently, acknowledging the batch takes it out of LevelDB although its
      transfers were never stored. */
  lemma SilentFailureLoses(s: State, b: int, scan: Scan)
    requires s.crawler.Scanning? && s.crawler.left == {b} && b !in s.trace.stored
    requires scan.row.block == false && SilentFailure(scan) && scan.stores
    ensures var n := Next(Next(Next(s, BlockScans(b, scan)), ScanEnds), AckLands(true));
            b !in n.db && b !in n.trace.stored
  {
    var scanned := Next(s, BlockScans(b, scan));
    assert scanned.crawler.acks == s.crawler.acks + [b] && scanned.crawler.left == {};
    Appended(s.crawler.acks, b);
    hide AddAll, Elements;
  }
}
