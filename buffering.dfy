/** The buffer rules of `KinesisStream.prototype.write` and
    `scheduledFlush` (lib/kinesis-stream.js), as functions on values: a
    record over 1 MiB is ignored; a record that would exceed the record
    limit, or the byte limit of a buffer holding bytes, first sends the
    current buffer off whole and starts a new one. */
module Buffering {
  import opened Wrappers
  import opened PartitionKeys

  /** The hard per-record ceiling of PutRecords: data plus key at most 1 MiB. */
  const MaxRecordBytes: nat := 1048576

  /** `maxRecords` and `maxBytes` of one stream, taken to be integers of any sign. */
  datatype Limits = Limits(maxRecords: int, maxBytes: int)

  /** The result of pushing one record. */
  datatype Push =
    | TooLarge(recordSize: nat)                                       // ignored with a warning
    | Pushed(flushed: Option<seq<Record>>, records: seq<Record>, size: int)  // emitted batch, new buffer

  function SumSizes(rs: seq<Record>): nat
  {
    if rs == [] then 0 else SumSizes(rs[..|rs| - 1]) + SizeOf(rs[|rs| - 1])
  }

  function Flatten(batches: seq<seq<Record>>): seq<Record>
  {
    if batches == [] then [] else Flatten(batches[..|batches| - 1]) + batches[|batches| - 1]
  }

  function Max(a: int, b: int): int {
    if a < b then b else a
  }

  /** What `write` and `scheduledFlush` keep true of `buffer` and `size`. */
  predicate Inv(lim: Limits, records: seq<Record>, size: int)
  {
    // the running counter is the byte total of the buffer
    && size == SumSizes(records)
    // no buffered record is over the hard ceiling
    && (forall k :: 0 <= k < |records| ==> SizeOf(records[k]) <= MaxRecordBytes)
    // the record limit holds (a limit below one still admits one record)
    && |records| <= Max(1, lim.maxRecords)
    // the byte limit is exceeded only by a record that came in when the buffer held zero bytes
    && (|records| > 0 && size > lim.maxBytes ==> SumSizes(records[..|records| - 1]) == 0)
  }

  /** The guard at lib/kinesis-stream.js:65. */
  predicate RollsOver(lim: Limits, records: seq<Record>, size: int, recordSize: int): (r: bool)
    // an empty buffer is emitted too, when the record limit is below one
    ensures records == [] && size == 0 ==> (r <==> lim.maxRecords < 1)
  {
    |records| + 1 > lim.maxRecords || (size + recordSize > lim.maxBytes && size != 0)
  }

  /** Push one converted record into the buffer (`records`, `size`). */
  function PushRecord(lim: Limits, records: seq<Record>, size: int, rec: Record): (r: Push)
    ensures r.TooLarge? <==> SizeOf(rec) > MaxRecordBytes
    ensures r.TooLarge? ==> r.recordSize == SizeOf(rec)
    // the old buffer is emitted exactly when the guard holds
    ensures r.Pushed? ==> (r.flushed.Some? <==> RollsOver(lim, records, size, SizeOf(rec)))
    // on rollover the old buffer goes out whole and the record starts the new one
    ensures r.Pushed? && r.flushed.Some? ==> r.flushed.value == records && r.records == [rec]
    ensures r.Pushed? && r.flushed.None? ==> r.records == records + [rec]
    ensures r.Pushed? ==> r.size == (if r.flushed.Some? then 0 else size) + SizeOf(rec)
  {
    var s := SizeOf(rec);
    if s > MaxRecordBytes then TooLarge(s)
    else if RollsOver(lim, records, size, s) then Pushed(Some(records), [rec], s)
    else Pushed(None, records + [rec], size + s)
  }

  lemma SumSizesAppend(rs: seq<Record>, rec: Record)
    ensures SumSizes(rs + [rec]) == SumSizes(rs) + SizeOf(rec)
  {
    assert (rs + [rec])[..|rs|] == rs;
  }

  lemma FlattenAppend(batches: seq<seq<Record>>, batch: seq<Record>)
    ensures Flatten(batches + [batch]) == Flatten(batches) + batch
  {
    assert (batches + [batch])[..|batches|] == batches;
  }

  /** A record that rolls the buffer over starts a new buffer that keeps the invariant. */
  lemma RolloverKeepsInv(lim: Limits, rec: Record)
    requires SizeOf(rec) <= MaxRecordBytes
    ensures Inv(lim, [rec], SizeOf(rec))
  {
    assert [rec][..0] == [];
    assert SumSizes([rec]) == SizeOf(rec) by { assert [rec][..0] == []; }
  }

  /** A record appended without rollover keeps the invariant. */
  lemma AppendKeepsInv(lim: Limits, records: seq<Record>, size: int, rec: Record)
    requires Inv(lim, records, size) && SizeOf(rec) <= MaxRecordBytes
    requires !RollsOver(lim, records, size, SizeOf(rec))
    ensures Inv(lim, records + [rec], size + SizeOf(rec))
  {
    SumSizesAppend(records, rec);
    assert (records + [rec])[..|records|] == records;
    if size == 0 {
      assert SumSizes(records) == 0;
    }
  }

  /** An accepted write keeps the invariant. */
  lemma {:induction false} PushKeepsInv(lim: Limits, records: seq<Record>, size: int, rec: Record)
    requires Inv(lim, records, size)
    ensures PushRecord(lim, records, size, rec).Pushed? ==>
      var r := PushRecord(lim, records, size, rec); Inv(lim, r.records, r.size)
  {
    if SizeOf(rec) <= MaxRecordBytes {
      if RollsOver(lim, records, size, SizeOf(rec)) {
        RolloverKeepsInv(lim, rec);
      } else {
        AppendKeepsInv(lim, records, size, rec);
      }
    }
  }

  /** Nothing is split, lost or duplicated at a rollover: the emitted batch
      followed by the new buffer is the old buffer followed by the record. */
  lemma PushLosesNothing(lim: Limits, records: seq<Record>, size: int, rec: Record)
    ensures PushRecord(lim, records, size, rec).Pushed? ==>
      var r := PushRecord(lim, records, size, rec);
      (if r.flushed.Some? then r.flushed.value else []) + r.records == records + [rec]
  {
  }

  /** With the limit at one record or more, an accepted write leaves at most
      `maxRecords` records buffered. */
  lemma RecordLimitHolds(lim: Limits, records: seq<Record>, size: int)
    requires Inv(lim, records, size) && lim.maxRecords >= 1
    ensures |records| <= lim.maxRecords
  {
  }

  /** With positive record sizes, a buffer over `maxBytes` holds exactly one
      record: the oversized-but-legal one that arrived when it was empty. */
  lemma OverBudgetMeansAlone(lim: Limits, records: seq<Record>, size: int)
    requires Inv(lim, records, size)
    requires forall k :: 0 <= k < |records| ==> SizeOf(records[k]) > 0
    requires |records| > 0 && size > lim.maxBytes
    ensures |records| == 1
  {
  }

  /** The empty buffer that the constructor and every flush install satisfies the invariant. */
  lemma EmptyInv(lim: Limits)
    ensures Inv(lim, [], 0)
  {
  }
}
