/** The per-stream batching engine `KinesisStream` (lib/kinesis-stream.js):
    a buffer of records and its byte total, updated in place by `write`
    and by the interval timer's `scheduledFlush`, and the callback that
    drives the retry protocol. The PutRecords sink is a ghost log `sent`
    of every batch handed to it; the timer is the flag `timerActive`. */
module KinesisStreams {
  import opened Wrappers
  import opened PartitionKeys
  import opened Buffering
  import Retry

  const DefaultMaxRecords: int := 500
  const DefaultMaxBytes: int := 5242880
  const DefaultMaxRetries: int := 3
  const DefaultFlushRate: int := 60000

  /** The constructor's `options`, with its numeric settings taken to be
      integers; None is a property left `undefined`. */
  datatype Options = Options(
    maxRecords: Option<int>,
    maxBytes: Option<int>,
    maxRetries: Option<int>,
    msFlushRate: Option<int>,
    partitionKey: Option<string>,
    partitionKeyProperty: Option<string>,
    streamName: string)

  /** One PutRecords call: the batch id of the flush it belongs to, the
      records, and the attempt number the callback is bound with. */
  datatype Submission = Submission(batchId: string, records: seq<Record>, attempt: int)

  /** What `write` did with a line. */
  datatype WriteOutcome =
    | Threw(error: KeyError)       // the exception escaped `write`
    | Ignored(recordSize: nat)     // over 1 MiB: logged and dropped
    | Buffered(rolledOver: bool)   // appended, after emitting the old buffer if rolledOver

  /** The batches a flush started (attempt 0), in order. */
  function InitialBatches(sent: seq<Submission>): seq<seq<Record>>
  {
    if sent == [] then []
    else InitialBatches(sent[..|sent| - 1]) + (if sent[|sent| - 1].attempt == 0 then [sent[|sent| - 1].records] else [])
  }

  lemma InitialBatchesAppend(sent: seq<Submission>, s: Submission)
    ensures InitialBatches(sent + [s]) == InitialBatches(sent) + (if s.attempt == 0 then [s.records] else [])
  {
    assert (sent + [s])[..|sent|] == sent;
  }

  /** Flushed batches followed by the buffer are the accepted records. */
  ghost predicate NothingLost(sent: seq<Submission>, buffer: seq<Record>, accepted: seq<Record>)
  {
    Flatten(InitialBatches(sent)) + buffer == accepted
  }

  /** No PutRecords call carries an attempt number past `maxRetries`. */
  ghost predicate AttemptsBounded(sent: seq<Submission>, maxRetries: int)
  {
    forall k :: 0 <= k < |sent| ==> 0 <= sent[k].attempt <= Max(0, maxRetries)
  }

  /** The stream's invariant, over the values of its fields. */
  ghost predicate StreamInv(lim: Limits, maxRetries: int, buffer: seq<Record>, size: int,
                            accepted: seq<Record>, sent: seq<Submission>)
  {
    && Inv(lim, buffer, size)
    && NothingLost(sent, buffer, accepted)
    && AttemptsBounded(sent, maxRetries)
  }

  lemma AttemptsBoundedAppend(sent: seq<Submission>, maxRetries: int, sub: Submission)
    requires AttemptsBounded(sent, maxRetries) && 0 <= sub.attempt <= Max(0, maxRetries)
    ensures AttemptsBounded(sent + [sub], maxRetries)
  {
    var sent' := sent + [sub];
    forall k | 0 <= k < |sent'| ensures 0 <= sent'[k].attempt <= Max(0, maxRetries) {
      if k < |sent| { assert sent'[k] == sent[k]; }
    }
  }

  /** Handing the whole buffer to the sink moves its records, in order,
      from the buffer to the flushed batches. */
  lemma NothingLostFlush(sent: seq<Submission>, buffer: seq<Record>, accepted: seq<Record>, batchId: string)
    requires NothingLost(sent, buffer, accepted)
    ensures NothingLost(sent + [Submission(batchId, buffer, 0)], [], accepted)
  {
    InitialBatchesAppend(sent, Submission(batchId, buffer, 0));
    FlattenAppend(InitialBatches(sent), buffer);
  }

  /** A resubmission is not a new batch. */
  lemma NothingLostRetry(sent: seq<Submission>, buffer: seq<Record>, accepted: seq<Record>, sub: Submission)
    requires NothingLost(sent, buffer, accepted) && sub.attempt != 0
    ensures NothingLost(sent + [sub], buffer, accepted)
  {
    InitialBatchesAppend(sent, sub);
    var before := InitialBatches(sent);
    assert before + [] == before;
    assert InitialBatches(sent + [sub]) == before;
  }

  /** A write that rolls over keeps the invariant: the old buffer becomes a
      new batch and the record starts the new buffer. */
  lemma RolloverKeepsStreamInv(lim: Limits, maxRetries: int, buffer: seq<Record>, size: int,
                               accepted: seq<Record>, sent: seq<Submission>,
                               rec: Record, batchId: string)
    requires StreamInv(lim, maxRetries, buffer, size, accepted, sent)
    requires SizeOf(rec) <= MaxRecordBytes
    ensures StreamInv(lim, maxRetries, [rec], SizeOf(rec), accepted + [rec],
                      sent + [Submission(batchId, buffer, 0)])
  {
    RolloverKeepsInv(lim, rec);
    NothingLostFlush(sent, buffer, accepted, batchId);
    assert [] + [rec] == [rec];
    AttemptsBoundedAppend(sent, maxRetries, Submission(batchId, buffer, 0));
  }

  /** A write that does not roll over keeps the invariant. */
  lemma AppendKeepsStreamInv(lim: Limits, maxRetries: int, buffer: seq<Record>, size: int,
                             accepted: seq<Record>, sent: seq<Submission>, rec: Record)
    requires StreamInv(lim, maxRetries, buffer, size, accepted, sent)
    requires SizeOf(rec) <= MaxRecordBytes && !RollsOver(lim, buffer, size, SizeOf(rec))
    ensures StreamInv(lim, maxRetries, buffer + [rec], size + SizeOf(rec), accepted + [rec], sent)
  {
    AppendKeepsInv(lim, buffer, size, rec);
    assert Flatten(InitialBatches(sent)) + (buffer + [rec]) == accepted + [rec];
  }

  /** A scheduled flush keeps the invariant. */
  lemma FlushKeepsStreamInv(lim: Limits, maxRetries: int, buffer: seq<Record>, size: int,
                            accepted: seq<Record>, sent: seq<Submission>, batchId: string)
    requires StreamInv(lim, maxRetries, buffer, size, accepted, sent)
    ensures StreamInv(lim, maxRetries, [], 0, accepted, sent + [Submission(batchId, buffer, 0)])
  {
    EmptyInv(lim);
    NothingLostFlush(sent, buffer, accepted, batchId);
    AttemptsBoundedAppend(sent, maxRetries, Submission(batchId, buffer, 0));
  }

  /** Answering a call with a resubmission keeps the invariant. */
  lemma AnswerKeepsStreamInv(lim: Limits, maxRetries: int, buffer: seq<Record>, size: int,
                             accepted: seq<Record>, sent: seq<Submission>, k: nat,
                             resubmitted: seq<Record>)
    requires StreamInv(lim, maxRetries, buffer, size, accepted, sent)
    requires k < |sent| && sent[k].attempt < maxRetries
    ensures StreamInv(lim, maxRetries, buffer, size, accepted,
                      sent + [Submission(sent[k].batchId, resubmitted, sent[k].attempt + 1)])
  {
    var sub := Submission(sent[k].batchId, resubmitted, sent[k].attempt + 1);
    NothingLostRetry(sent, buffer, accepted, sub);
    AttemptsBoundedAppend(sent, maxRetries, sub);
  }

  /** As the constructor leaves a stream: nothing buffered, nothing sent,
      and the interval set exactly when `msFlushRate` is positive. */
  ghost predicate Unused(s: KinesisStream)
    reads s
  {
    && s.buffer == [] && s.size == 0 && s.accepted == [] && s.sent == []
    && s.timerActive == (s.msFlushRate > 0)
  }

  /** An unused stream satisfies its invariant. */
  lemma UnusedIsValid(s: KinesisStream)
    requires Unused(s)
    ensures s.Valid()
  {
    EmptyInv(s.Limits());
  }

  class KinesisStream {
    const maxRecords: int
    const maxBytes: int
    const maxRetries: int
    const msFlushRate: int
    const keys: KeyConfig
    const streamName: string
    const codec: JsonCodec

    var buffer: seq<Record>
    var size: int
    /** An interval timer is set and not yet cleared. */
    var timerActive: bool

    /** Every record `write` accepted, in order. */
    ghost var accepted: seq<Record>
    /** Every PutRecords call made, in order. */
    ghost var sent: seq<Submission>
    ghost var stopCalls: nat

    function Limits(): Buffering.Limits {
      Buffering.Limits(maxRecords, maxBytes)
    }

    ghost predicate Valid()
      reads this
    {
      StreamInv(Limits(), maxRetries, buffer, size, accepted, sent)
    }

    /** lib/kinesis-stream.js:12-52, with the client and logger left out. */
    constructor (opts: Options, codec: JsonCodec)
      ensures Valid()
      ensures maxRecords == opts.maxRecords.GetOr(DefaultMaxRecords)
      ensures maxBytes == opts.maxBytes.GetOr(DefaultMaxBytes)
      ensures maxRetries == opts.maxRetries.GetOr(DefaultMaxRetries)
      ensures msFlushRate == opts.msFlushRate.GetOr(DefaultFlushRate)
      ensures keys == KeyConfig(opts.partitionKey, opts.partitionKeyProperty)
      ensures streamName == opts.streamName && this.codec == codec
      ensures Unused(this)
      ensures stopCalls == 0
    {
      maxRecords := opts.maxRecords.GetOr(DefaultMaxRecords);
      maxBytes := opts.maxBytes.GetOr(DefaultMaxBytes);
      maxRetries := opts.maxRetries.GetOr(DefaultMaxRetries);
      msFlushRate := opts.msFlushRate.GetOr(DefaultFlushRate);
      keys := KeyConfig(opts.partitionKey, opts.partitionKeyProperty);
      streamName := opts.streamName;
      this.codec := codec;
      buffer := [];
      size := 0;
      timerActive := opts.msFlushRate.GetOr(DefaultFlushRate) > 0;
      accepted := [];
      sent := [];
      stopCalls := 0;
    }

    /** lib/kinesis-stream.js:121-133: hand `records` to the sink as attempt
        0 of a new batch. `batchId` is the uuid drawn for the batch. */
    method Flush(records: seq<Record>, batchId: string)
      modifies this`sent
      ensures sent == old(sent) + [Submission(batchId, records, 0)]
    {
      sent := sent + [Submission(batchId, records, 0)];
    }

    /** lib/kinesis-stream.js:54-73. `keyUuid` is what uuidV4() yields if the
        key falls back to it, `batchId` what it yields if a flush starts. */
    method Write(line: string, keyUuid: string, batchId: string) returns (outcome: WriteOutcome)
      requires Valid()
      modifies this`buffer, this`size, this`accepted, this`sent
      ensures Valid()
      // a line the key derivation throws on changes nothing
      ensures outcome.Threw? <==> ConvertToRecord(keys, codec, line, keyUuid).Failure?
      ensures outcome.Threw? ==> outcome.error == ConvertToRecord(keys, codec, line, keyUuid).error
      // a record over 1 MiB changes nothing and triggers no flush
      ensures outcome.Ignored? <==>
        ConvertToRecord(keys, codec, line, keyUuid).Success? && SizeOf(ConvertToRecord(keys, codec, line, keyUuid).value) > MaxRecordBytes
      ensures outcome.Ignored? ==>
        outcome.recordSize == SizeOf(ConvertToRecord(keys, codec, line, keyUuid).value)
      ensures !outcome.Buffered? ==>
        buffer == old(buffer) && size == old(size) && accepted == old(accepted) && sent == old(sent)
      // an accepted record lands whole, after the old buffer if that was emitted first
      ensures outcome.Buffered? ==>
        var rec := ConvertToRecord(keys, codec, line, keyUuid).value;
        && accepted == old(accepted) + [rec]
        && outcome.rolledOver == RollsOver(Limits(), old(buffer), old(size), SizeOf(rec))
        && (outcome.rolledOver ==>
              sent == old(sent) + [Submission(batchId, old(buffer), 0)] && buffer == [rec] && size == SizeOf(rec))
        && (!outcome.rolledOver ==>
              sent == old(sent) && buffer == old(buffer) + [rec] && size == old(size) + SizeOf(rec))
    {
      var converted := ConvertToRecord(keys, codec, line, keyUuid);
      if converted.Failure? {
        return Threw(converted.error);
      }
      var rec := converted.value;
      var recordSize := SizeOf(rec);
      if recordSize > MaxRecordBytes {
        return Ignored(recordSize);
      }
      var rolled := BufferRecord(rec, batchId);
      outcome := Buffered(rolled);
    }

    /** lib/kinesis-stream.js:65-72: append an accepted record, first
        emitting the old buffer whole if the record would break a limit. */
    method BufferRecord(rec: Record, batchId: string) returns (rolled: bool)
      requires Valid() && SizeOf(rec) <= MaxRecordBytes
      modifies this`buffer, this`size, this`accepted, this`sent
      ensures Valid()
      ensures accepted == old(accepted) + [rec]
      ensures rolled == RollsOver(Limits(), old(buffer), old(size), SizeOf(rec))
      ensures rolled ==> sent == old(sent) + [Submission(batchId, old(buffer), 0)] && buffer == [rec] && size == SizeOf(rec)
      ensures !rolled ==> sent == old(sent) && buffer == old(buffer) + [rec] && size == old(size) + SizeOf(rec)
      // the step `PushRecord` describes on values
      ensures PushRecord(Limits(), old(buffer), old(size), rec) == Pushed(if rolled then Some(old(buffer)) else None, buffer, size)
    {
      rolled := RollsOver(Limits(), buffer, size, SizeOf(rec));
      if rolled {
        StartBuffer(rec, batchId);
      } else {
        AppendRecord(rec);
      }
    }

    /** The rollover branch: the 'buffer.full' listener flushes the old
        buffer, which is then replaced by one holding just `rec`. */
    method StartBuffer(rec: Record, batchId: string)
      requires Valid() && SizeOf(rec) <= MaxRecordBytes
      modifies this`buffer, this`size, this`accepted, this`sent
      ensures Valid()
      ensures sent == old(sent) + [Submission(batchId, old(buffer), 0)]
      ensures buffer == [rec] && size == SizeOf(rec) && accepted == old(accepted) + [rec]
    {
      RolloverKeepsStreamInv(Limits(), maxRetries, buffer, size, accepted, sent, rec, batchId);
      Flush(buffer, batchId);
      buffer, size, accepted := [rec], SizeOf(rec), accepted + [rec];
    }

    /** The branch without rollover: append `rec` and add its size. */
    method AppendRecord(rec: Record)
      requires Valid() && SizeOf(rec) <= MaxRecordBytes
      requires !RollsOver(Limits(), buffer, size, SizeOf(rec))
      modifies this`buffer, this`size, this`accepted
      ensures Valid()
      ensures buffer == old(buffer) + [rec] && size == old(size) + SizeOf(rec)
      ensures accepted == old(accepted) + [rec]
    {
      AppendKeepsStreamInv(Limits(), maxRetries, buffer, size, accepted, sent, rec);
      buffer, size, accepted := buffer + [rec], size + SizeOf(rec), accepted + [rec];
    }

    /** lib/kinesis-stream.js:111-119. */
    method ScheduledFlush(batchId: string)
      requires Valid()
      modifies this`buffer, this`size, this`sent
      ensures Valid()
      ensures old(buffer) == [] ==> buffer == old(buffer) && size == old(size) && sent == old(sent)
      ensures old(buffer) != [] ==>
        sent == old(sent) + [Submission(batchId, old(buffer), 0)] && buffer == [] && size == 0
    {
      if |buffer| == 0 {
        return;
      }
      FlushKeepsStreamInv(Limits(), maxRetries, buffer, size, accepted, sent, batchId);
      Flush(buffer, batchId);
      buffer := [];
      size := 0;
    }

    /** One tick of the interval timer: it runs `scheduledFlush` only while
        the timer has not been cleared. */
    method TimerFires(batchId: string)
      requires Valid()
      modifies this`buffer, this`size, this`sent
      ensures Valid()
      ensures !timerActive || old(buffer) == [] ==> buffer == old(buffer) && size == old(size) && sent == old(sent)
      ensures timerActive && old(buffer) != [] ==>
        sent == old(sent) + [Submission(batchId, old(buffer), 0)] && buffer == [] && size == 0
    {
      if timerActive {
        ScheduledFlush(batchId);
      }
    }

    /** lib/kinesis-stream.js:135-168: the sink answered the `k`-th PutRecords
        call, which carried `records` as attempt `attempt` of batch `batchId`. */
    method Callback(batchId: string, records: seq<Record>, attempt: int, response: Retry.Response, ghost k: nat)
      returns (outcome: Retry.Outcome<Record>)
      requires Valid()
      requires k < |sent| && sent[k] == Submission(batchId, records, attempt)
      modifies this`sent
      ensures Valid()
      ensures outcome == Retry.Step(maxRetries, records, attempt, response)
      ensures outcome.Resubmit? ==> sent == old(sent) + [Submission(batchId, outcome.records, attempt + 1)]
      ensures !outcome.Resubmit? ==> sent == old(sent)
    {
      if response.TransportError? {
        return Retry.Abandoned;
      }
      if response.failedRecordCount > 0 && attempt < maxRetries {
        var failedRecords := Retry.CollectFailed(records, response.entries);
        AnswerKeepsStreamInv(Limits(), maxRetries, buffer, size, accepted, sent, k, failedRecords);
        sent := sent + [Submission(batchId, failedRecords, attempt + 1)];
        outcome := Retry.Resubmit(failedRecords, attempt + 1);
      } else {
        outcome := Retry.Finished(attempt, attempt == maxRetries, response.failedRecordCount > 0);
      }
    }

    /** lib/kinesis-stream.js:170-176: clear the interval. The buffer is left
        as it is, and the emitter listener stays registered, so a write can
        still roll the buffer over. */
    method Stop()
      modifies this`timerActive, this`stopCalls
      ensures !timerActive && stopCalls == old(stopCalls) + 1
      ensures old(Valid()) ==> Valid()
    {
      timerActive := false;
      stopCalls := stopCalls + 1;
    }
  }
}
