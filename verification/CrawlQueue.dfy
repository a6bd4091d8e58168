/**
 The crawler of one chain: the queue of blocks still to scan, kept in memory and in LevelDB, the file that
 remembers up to where blocks were queued, and the two jobs that work on them. `checkLatestHeight` queues the
 blocks that became safe; `executeCrawlBlock` scans a batch and takes out what it handled. Each runs under
 its own mutex, so the two interleave, and the process may crash between any two writes.

 An `Event` is what happens between two awaits, `Next` is what it does. An event that is not possible in a
 state changes nothing.
 */
module CrawlQueue {
  import opened Wrappers
  import opened Sequences
  import opened JsSet

  // ---------- what a request may throw ----------

  // Anything can be thrown: null or undefined, another value that counts as false, an object or array without
  // content, or something else, such as an Error.
  datatype Thrown = Nullish | FalsyValue | EmptyValue | OtherValue
  {
    predicate Truthy()
    {
      EmptyValue? || OtherValue?
    }

    predicate IsEmpty()
    {
      !OtherValue?
    }
  }

  // retryBlockRequest's result: a block, or none and perhaps the error of the last attempt.
  datatype Row = Row(block: bool, error: Option<Thrown>)

  // What scanning one block meets: its row, whether its transfers could be read, and whether they were stored.
  datatype Scan = Scan(row: Row, handled: Result<(), Thrown>, stores: bool)

  datatype Verdict = Acked | NotAcked | Breaks

  // executeCrawlBlock's callback. Its last log line reads a field of the error.
  function Callback(error: Option<Thrown>, transfers: bool, stores: bool): Verdict
  {
    if (error.None? || error.value.IsEmpty()) && transfers then
      if stores then Acked else NotAcked
    else if error.None? || error.value.Nullish? then Breaks
    else NotAcked
  }

  // scanByBlocks' processBlock. Reading the transfers of a missing block fails with a TypeError.
  function Judge(scan: Scan): Verdict
  {
    if scan.row.error.Some? && scan.row.error.value.Truthy() then Callback(scan.row.error, true, scan.stores)
    else if !scan.row.block then Callback(Some(OtherValue), false, scan.stores)
    else match scan.handled
      case Ok(_) => Callback(None, true, scan.stores)
      case Err(error) => Callback(Some(error), false, scan.stores)
  }

  // The block was fetched, read, and its transfers were stored.
  predicate Genuine(scan: Scan)
  {
    scan.row.block && !(scan.row.error.Some? && scan.row.error.value.Truthy()) && scan.handled.Ok? && scan.stores
  }

  // One attempt of a request: an answer, which may be empty, or an exception.
  datatype Attempt = Answered(empty: bool) | Threw(error: Thrown)

  // retryBlockRequest's loop. The error of a failed attempt is kept only when it was the last.
  method RetryBlockRequest(attempts: seq<Attempt>) returns (row: Row)
    ensures row.block <==> Answered(false) in attempts
    ensures row.error == if !row.block && attempts != [] && attempts[|attempts| - 1].Threw?
                         then Some(attempts[|attempts| - 1].error) else None
  {
    row := Row(false, None);
    var retry := 1;
    while retry <= |attempts|
      invariant 1 <= retry <= |attempts| + 1
      invariant Answered(false) !in attempts[..retry - 1]
      invariant retry <= |attempts| ==> row == Row(false, None)
      invariant retry > |attempts| ==>
        row == Row(false, if attempts != [] && attempts[|attempts| - 1].Threw? then Some(attempts[|attempts| - 1].error) else None)
    {
      match attempts[retry - 1] {
        case Answered(empty) =>
          if !empty {
            row := Row(true, None);
            return;
          }
        case Threw(error) =>
          if retry >= |attempts| {
            row := Row(false, Some(error));
          }
      }
      retry := retry + 1;
    }
  }

  // ---------- the state ----------

  datatype Checker =
    | Resting
    | Pushing(lo: int, hi: int)     // the blocks are in memory; LevelDB is writing them
    | Marking(lo: int, hi: int)     // LevelDB has them; the file is next

  datatype Crawler =
    | Waiting
    | Scanning(batch: seq<int>, left: set<int>, acks: seq<int>, noAcks: seq<int>)
    | Acking(acks: seq<int>)        // LevelDB is deleting them
    | Forgetting(acks: seq<int>)    // LevelDB has deleted them; memory is next

  // What the proofs follow and the program does not know.
  datatype Trace = Trace(
    start: Option<int>,     // the first mark ever written
    highest: int,           // the highest mark ever written
    stored: set<int>,       // blocks whose transfers were stored
    writtenOff: set<int>,   // blocks acknowledged though their request had failed
    unsaved: set<int>)      // blocks LevelDB refused to write since the last boot

  datatype State = State(
    dataSet: seq<int>,
    processing: set<int>,
    db: set<int>,
    file: int,              // 0 when there is no file
    next: int,              // nextMaxScanBlockNumber
    rpcLast: int,           // rpcLastBlockNumber, 0 since boot until the first answer
    checker: Checker,
    crawler: Crawler,
    trace: Trace)

  const Fresh := State([], {}, {}, 0, 0, 0, Resting, Waiting, Trace(None, 0, {}, {}, {}))

  // lo, lo + 1, ..., hi
  function Sequence(lo: int, hi: int): seq<int>
  {
    seq(if hi >= lo then hi - lo + 1 else 0, i requires 0 <= i => lo + i)
  }

  function Range(lo: int, hi: int): set<int>
  {
    Elements(Sequence(lo, hi))
  }

  function Max(a: int, b: int): int
  {
    if a >= b then a else b
  }

  // ---------- boot ----------

  // The fields are reloaded from LevelDB, in the order of its keys, and from the file; taken as one step.
  function Boot(s: State, keys: seq<int>): State
  {
    if Distinct(keys) && Elements(keys) == s.db
    then State(keys, {}, s.db, s.file, s.file, 0, Resting, Waiting, s.trace.(unsaved := {}))
    else s
  }

  // ---------- checkLatestHeight ----------

  // The mark checkLatestHeight starts from: a missing or zero mark is replaced by a recent block.
  function Mark(s: State, latest: int, batchLimit: int): int
  {
    if s.next == 0 then latest - batchLimit else s.next
  }

  // Since boot no height was known: go back 100 blocks.
  function From(s: State, latest: int, batchLimit: int): int
  {
    var mark := Mark(s, latest, batchLimit);
    if s.rpcLast == 0 && mark > 100 then mark - 100 else mark
  }

  // changeMaxScanBlockNumber
  function WriteMark(s: State, mark: int): State
  {
    var t := s.trace;
    s.(file := mark, next := mark,
       trace := if t.start.None? then t.(start := Some(mark), highest := mark) else t.(highest := Max(t.highest, mark)))
  }

  // The synchronous half of push: into memory, and out of the blocks being processed.
  function PushToMemory(s: State, blocks: seq<int>): State
  {
    s.(dataSet := AddAll(s.dataSet, blocks), processing := s.processing - Elements(blocks))
  }

  // Up to the first write to LevelDB. `latest` is what the node answered, 0 for an empty answer.
  function Check(s: State, latest: int, batchLimit: int, confirmation: int): State
  {
    if !s.checker.Resting? then s
    else if latest == 0 then s.(rpcLast := 0)
    else
      var marked := if s.next == 0 then WriteMark(s, latest - batchLimit) else s;
      var from := From(s, latest, batchLimit);
      var safe := latest - confirmation;
      var known := marked.(rpcLast := latest);
      if safe >= from then PushToMemory(known, Sequence(from, safe)).(checker := Pushing(from, safe)) else known
  }

  // LevelDB writes a batch as a whole or not at all.
  function PushToStore(s: State, ok: bool): State
  {
    match s.checker
    case Pushing(lo, hi) =>
      if ok then s.(db := s.db + Range(lo, hi), checker := Marking(lo, hi))
      else s.(checker := Resting, trace := s.trace.(unsaved := s.trace.unsaved + Range(lo, hi)))
    case _ => s
  }

  function MarkWritten(s: State, ok: bool): State
  {
    match s.checker
    case Marking(lo, hi) => if ok then WriteMark(s, hi + 1).(checker := Resting) else s.(checker := Resting)
    case _ => s
  }

  // ---------- executeCrawlBlock ----------

  // The first `size` blocks nobody is processing; all of them for a size of 0 or less.
  function NextBatch(dataSet: seq<int>, processing: set<int>, size: int): seq<int>
  {
    var idle := Except(dataSet, processing);
    if 0 < size < |idle| then idle[..size] else idle
  }

  function StartCrawl(s: State, size: int): State
  {
    var batch := NextBatch(s.dataSet, s.processing, size);
    if s.crawler.Waiting? && batch != []
    then s.(processing := s.processing + Elements(batch), crawler := Scanning(batch, Elements(batch), [], []))
    else s
  }

  function NoAck(s: State, blocks: seq<int>): State
  {
    s.(dataSet := AddAll(s.dataSet, blocks), processing := s.processing - Elements(blocks))
  }

  // One block of the batch is done, in any order. When the callback breaks, so does the whole scan.
  function ScanBlock(s: State, b: int, scan: Scan): State
  {
    match s.crawler
    case Scanning(batch, left, acks, noAcks) =>
      if b !in left then s else
        var t := s.trace;
        (match Judge(scan)
         case Acked =>
           s.(crawler := Scanning(batch, left - {b}, acks + [b], noAcks),
              trace := if Genuine(scan) then t.(stored := t.stored + {b}) else t.(writtenOff := t.writtenOff + {b}))
         case NotAcked =>
           s.(crawler := Scanning(batch, left - {b}, acks, noAcks + [b]))
         case Breaks =>
           NoAck(s, batch).(crawler := Waiting))
    case _ => s
  }

  function FinishScan(s: State): State
  {
    match s.crawler
    case Scanning(batch, left, acks, noAcks) =>
      if left != {} then s
      else NoAck(s, noAcks).(crawler := if acks == [] then Waiting else Acking(acks))
    case _ => s
  }

  function AckInStore(s: State, ok: bool): State
  {
    match s.crawler
    case Acking(acks) =>
      if ok then s.(db := s.db - Elements(acks), crawler := Forgetting(acks)) else s.(crawler := Waiting)
    case _ => s
  }

  function AckInMemory(s: State): State
  {
    match s.crawler
    case Forgetting(acks) =>
      s.(dataSet := DeleteAll(s.dataSet, acks), processing := s.processing - Elements(acks), crawler := Waiting)
    case _ => s
  }

  // ---------- runs ----------

  datatype Event =
    | Crashes(keys: seq<int>)
    | Checks(latest: int, batchLimit: int, confirmation: int)
    | PushLands(ok: bool)
    | MarkLands(ok: bool)
    | CrawlStarts(size: int)
    | BlockScans(b: int, scan: Scan)
    | ScanEnds
    | AckLands(ok: bool)
    | AckEnds

  function Next(s: State, e: Event): State
  {
    match e
    case Crashes(keys) => Boot(s, keys)
    case Checks(latest, batchLimit, confirmation) => Check(s, latest, batchLimit, confirmation)
    case PushLands(ok) => PushToStore(s, ok)
    case MarkLands(ok) => MarkWritten(s, ok)
    case CrawlStarts(size) => StartCrawl(s, size)
    case BlockScans(b, scan) => ScanBlock(s, b, scan)
    case ScanEnds => FinishScan(s)
    case AckLands(ok) => AckInStore(s, ok)
    case AckEnds => AckInMemory(s)
  }

  function Run(events: seq<Event>): State
  {
    if events == [] then Fresh else Next(Run(events[..|events| - 1]), events[|events| - 1])
  }
}
