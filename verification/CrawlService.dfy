/**
 The crawler's two classes as they are written: `DataProcessor` with its sets, LevelDB and file, and the
 scanning service with the jobs that call it. A method is what runs between two awaits, and is proved to do to
 the fields what the corresponding event of CrawlQueue does to its state; the scanning service keeps the invariant of CrawlSafety.
 */
module CrawlService {
  import opened Wrappers
  import opened Sequences
  import opened JsSet
  import opened CrawlQueue
  import opened CrawlSafety
  import opened CrawlEffects

  class DataProcessor {
    var dataSet: seq<int>
    var processingSet: set<int>
    var db: set<int>
    var file: int
    var nextMaxScanBlockNumber: int

    // A first start: no keys and no file.
    constructor ()
      ensures dataSet == [] && processingSet == {} && db == {} && file == 0 && nextMaxScanBlockNumber == 0
    {
      dataSet, processingSet, db, file, nextMaxScanBlockNumber := [], {}, {}, 0, 0;
    }

    // A new process on the same LevelDB and file: initMaxScanBlockNumber and initStoreData.
    method Reload(keys: seq<int>)
      modifies this
      ensures dataSet == keys && processingSet == {} && nextMaxScanBlockNumber == file
      ensures db == old(db) && file == old(file)
    {
      processingSet := {};
      nextMaxScanBlockNumber := file;
      dataSet := keys;
    }

    method ChangeMaxScanBlockNumber(blockNumber: int)
      modifies `file, `nextMaxScanBlockNumber
      ensures file == nextMaxScanBlockNumber == blockNumber
    {
      file := blockNumber;
      nextMaxScanBlockNumber := blockNumber;
    }

    method GetProcessNextBatchData(batchSize: int) returns (batch: seq<int>)
      requires Distinct(dataSet)
      modifies `processingSet
      ensures batch == NextBatch(dataSet, old(processingSet), batchSize)
      ensures FirstIdle(dataSet, old(processingSet), batchSize, batch)
      ensures processingSet == old(processingSet) + Elements(batch)
    {
      hide Except, Elements, Distinct, FirstIdle;
      NextBatchIsFirst(dataSet, processingSet, batchSize);
      batch := [];
      ghost var busy := processingSet;
      NothingYet(dataSet, busy);
      var i := 0;
      while i < |dataSet|
        invariant 0 <= i <= |dataSet|
        invariant batch == Except(dataSet[..i], busy)
        invariant processingSet == busy + Elements(batch)
        invariant Elements(batch) <= Elements(dataSet[..i])
        invariant batchSize > 0 ==> |batch| < batchSize
      {
        var data := dataSet[i];
        OneMore(dataSet, i, busy);
        if data !in processingSet {
          Appended(batch, data);
          processingSet := processingSet + {data};
          batch := batch + [data];
          if |batch| == batchSize {
            ExceptGrows(dataSet, i + 1, busy);
            return;
          }
        }
        i := i + 1;
      }
      assert dataSet[..i] == dataSet;
    }

    // The half of push before its await.
    method PushToMemory(blocks: seq<int>)
      modifies `dataSet, `processingSet
      ensures dataSet == AddAll(old(dataSet), blocks) && processingSet == old(processingSet) - Elements(blocks)
    {
      var i := 0;
      while i < |blocks|
        invariant 0 <= i <= |blocks|
        invariant dataSet == AddAll(old(dataSet), blocks[..i])
        invariant processingSet == old(processingSet) - Elements(blocks[..i])
      {
        dataSet := Add(dataSet, blocks[i]);
        processingSet := processingSet - {blocks[i]};
        assert blocks[..i + 1][..i] == blocks[..i];
        assert Elements(blocks[..i + 1]) == Elements(blocks[..i]) + {blocks[i]};
        i := i + 1;
      }
      assert blocks[..i] == blocks;
    }

    method PushToStore(blocks: set<int>)
      modifies `db
      ensures db == old(db) + blocks
    {
      db := db + blocks;
    }

    method DeleteStoreData(blocks: seq<int>)
      modifies `db
      ensures db == old(db) - Elements(blocks)
    {
      var i := 0;
      while i < |blocks|
        invariant 0 <= i <= |blocks|
        invariant db == old(db) - Elements(blocks[..i])
      {
        db := db - {blocks[i]};
        assert Elements(blocks[..i + 1]) == Elements(blocks[..i]) + {blocks[i]};
        i := i + 1;
      }
      assert blocks[..i] == blocks;
    }

    // The half of ack after its await.
    method AckInMemory(blocks: seq<int>)
      modifies `dataSet, `processingSet
      ensures dataSet == DeleteAll(old(dataSet), blocks) && processingSet == old(processingSet) - Elements(blocks)
    {
      var i := 0;
      while i < |blocks|
        invariant 0 <= i <= |blocks|
        invariant dataSet == DeleteAll(old(dataSet), blocks[..i])
        invariant processingSet == old(processingSet) - Elements(blocks[..i])
      {
        dataSet := Delete(dataSet, blocks[i]);
        processingSet := processingSet - {blocks[i]};
        assert blocks[..i + 1][..i] == blocks[..i];
        assert Elements(blocks[..i + 1]) == Elements(blocks[..i]) + {blocks[i]};
        i := i + 1;
      }
      assert blocks[..i] == blocks;
    }

    method NoAck(blocks: seq<int>)
      modifies `dataSet, `processingSet
      ensures dataSet == AddAll(old(dataSet), blocks) && processingSet == old(processingSet) - Elements(blocks)
    {
      PushToMemory(blocks);
    }
  }

  lemma NothingYet(xs: seq<int>, busy: set<int>)
    ensures Except(xs[..0], busy) == [] && Elements([]) == {}
  {
  }

  // ---------- the scanning service ----------

  class RpcScanningService {
    const dataProcessor: DataProcessor
    var rpcLastBlockNumber: int
    var checker: Checker
    var crawler: Crawler
    ghost var trace: Trace

    ghost function Abs(): State
      reads this, dataProcessor
    {
      State(dataProcessor.dataSet, dataProcessor.processingSet, dataProcessor.db, dataProcessor.file,
            dataProcessor.nextMaxScanBlockNumber, rpcLastBlockNumber, checker, crawler, trace)
    }

    ghost predicate Valid()
      reads this, dataProcessor
    {
      Inv(Abs())
    }

    constructor ()
      ensures fresh(dataProcessor) && Valid() && Abs() == Fresh
    {
      dataProcessor := new DataProcessor();
      rpcLastBlockNumber, checker, crawler := 0, Resting, Waiting;
      trace := Fresh.trace;
    }

    // The process died and was started again.
    method Restart(keys: seq<int>)
      requires Valid()
      requires Distinct(keys) && Elements(keys) == dataProcessor.db
      modifies this, dataProcessor
      ensures Abs() == Next(old(Abs()), Crashes(keys))
      ensures Valid()
    {
      NextKeeps(Abs(), Crashes(keys));
      hide Inv;
      dataProcessor.Reload(keys);
      rpcLastBlockNumber, checker, crawler := 0, Resting, Waiting;
      trace := trace.(unsaved := {});
    }

    // checkLatestHeight from the node's answer to its first write to LevelDB.
    method CheckLatestHeight(latest: int, batchLimit: int, targetConfirmation: int)
      requires Valid()
      requires checker.Resting?
      modifies this, dataProcessor
      ensures Abs() == Next(old(Abs()), Checks(latest, batchLimit, targetConfirmation))
      ensures Valid()
    {
      NextKeeps(Abs(), Checks(latest, batchLimit, targetConfirmation));
      hide Inv;
      var firstStart := rpcLastBlockNumber == 0;
      rpcLastBlockNumber := latest;
      if latest == 0 {
        return;
      }
      var lastScannedBlockNumber := dataProcessor.nextMaxScanBlockNumber;
      if lastScannedBlockNumber == 0 {
        lastScannedBlockNumber := latest - batchLimit;
        dataProcessor.ChangeMaxScanBlockNumber(lastScannedBlockNumber);
        trace := WriteMark(old(Abs()), lastScannedBlockNumber).trace;
      }
      if firstStart && lastScannedBlockNumber > 100 {
        lastScannedBlockNumber := lastScannedBlockNumber - 100;
      }
      var safetyBlockNumber := latest - targetConfirmation;
      if safetyBlockNumber >= lastScannedBlockNumber {
        dataProcessor.PushToMemory(Sequence(lastScannedBlockNumber, safetyBlockNumber));
        checker := Pushing(lastScannedBlockNumber, safetyBlockNumber);
      }
    }

    // createRangeScanData after LevelDB answered.
    method PushLanded(ok: bool)
      requires Valid()
      requires checker.Pushing?
      modifies this, dataProcessor
      ensures Abs() == Next(old(Abs()), PushLands(ok))
      ensures Valid()
    {
      NextKeeps(Abs(), PushLands(ok));
      hide Inv;
      if ok {
        dataProcessor.PushToStore(Range(checker.lo, checker.hi));
        checker := Marking(checker.lo, checker.hi);
      } else {
        trace := trace.(unsaved := trace.unsaved + Range(checker.lo, checker.hi));
        checker := Resting;
      }
    }

    method MarkRange(ok: bool)
      requires Valid()
      requires checker.Marking?
      modifies this, dataProcessor
      ensures Abs() == Next(old(Abs()), MarkLands(ok))
      ensures Valid()
    {
      NextKeeps(Abs(), MarkLands(ok));
      hide Inv;
      if ok {
        trace := WriteMark(Abs(), checker.hi + 1).trace;
        dataProcessor.ChangeMaxScanBlockNumber(checker.hi + 1);
      }
      checker := Resting;
    }

    method ExecuteCrawlBlock(batchLimit: int)
      requires Valid()
      requires crawler.Waiting?
      modifies this, dataProcessor
      ensures Abs() == Next(old(Abs()), CrawlStarts(batchLimit))
      ensures Valid()
    {
      NextKeeps(Abs(), CrawlStarts(batchLimit));
      assert Distinct(dataProcessor.dataSet);
      hide Inv;
      var blockNumbers := dataProcessor.GetProcessNextBatchData(batchLimit);
      if |blockNumbers| > 0 {
        crawler := Scanning(blockNumbers, Elements(blockNumbers), [], []);
      } else {
        assert Elements(blockNumbers) == {};
      }
    }

    // processBlock with its callback, for one block of the batch.
    method ProcessBlock(b: int, scan: Scan)
      requires Valid()
      requires crawler.Scanning? && b in crawler.left
      modifies this, dataProcessor
      ensures Abs() == Next(old(Abs()), BlockScans(b, scan))
      ensures Valid()
    {
      NextKeeps(Abs(), BlockScans(b, scan));
      hide Inv;
      var Scanning(batch, left, acks, noAcks) := crawler;
      match Judge(scan)
      case Acked =>
        crawler := Scanning(batch, left - {b}, acks + [b], noAcks);
        trace := if Genuine(scan) then trace.(stored := trace.stored + {b}) else trace.(writtenOff := trace.writtenOff + {b});
      case NotAcked =>
        crawler := Scanning(batch, left - {b}, acks, noAcks + [b]);
      case Breaks =>
        dataProcessor.NoAck(batch);
        crawler := Waiting;
    }

    method SettleBatch()
      requires Valid()
      requires crawler.Scanning? && crawler.left == {}
      modifies this, dataProcessor
      ensures Abs() == Next(old(Abs()), ScanEnds)
      ensures Valid()
    {
      NextKeeps(Abs(), ScanEnds);
      hide Inv;
      dataProcessor.NoAck(crawler.noAcks);
      crawler := if |crawler.acks| > 0 then Acking(crawler.acks) else Waiting;
    }

    method AckLanded(ok: bool)
      requires Valid()
      requires crawler.Acking?
      modifies this, dataProcessor
      ensures Abs() == Next(old(Abs()), AckLands(ok))
      ensures Valid()
    {
      NextKeeps(Abs(), AckLands(ok));
      hide Inv;
      if ok {
        dataProcessor.DeleteStoreData(crawler.acks);
        crawler := Forgetting(crawler.acks);
      } else {
        crawler := Waiting;
      }
    }

    method AckDone()
      requires Valid()
      requires crawler.Forgetting?
      modifies this, dataProcessor
      ensures Abs() == Next(old(Abs()), AckEnds)
      ensures Valid()
    {
      NextKeeps(Abs(), AckEnds);
      hide Inv;
      dataProcessor.AckInMemory(crawler.acks);
      crawler := Waiting;
    }
  }
}
