/** The partial-failure retry protocol of `KinesisStream.prototype.callback`
    (lib/kinesis-stream.js): after a PutRecords call, resubmit exactly the
    records whose response entry carries an ErrorCode, until `maxRetries`
    resubmissions have been made. */
module Retry {
  import opened Wrappers

  /** One element of `data.Records` in a PutRecords response; only its
      ErrorCode is consulted. */
  datatype Entry = Entry(errorCode: Option<string>)

  /** `if (record.ErrorCode)`: the code is present and not the empty string. */
  predicate Failing(e: Entry) {
    e.errorCode.Some? && e.errorCode.value != ""
  }

  /** The two arguments the sink hands the callback: a transport error
      `err`, or the response `data`. */
  datatype Response =
    | TransportError
    | Delivered(failedRecordCount: int, entries: seq<Entry>)

  /** What one callback invocation does. */
  datatype Outcome<T> =
    | Abandoned                                 // `err` was set: logged, nothing resubmitted
    | Resubmit(records: seq<T>, attempt: int)   // putRecords again with these records
    // final "Finished sending batch" log: `logged` is the `failed` field the
    // source writes, `undelivered` whether records really remained undelivered
    | Finished(retries: int, logged: bool, undelivered: bool)

  /** The records the forEach pushes into `failedRecords`: `records[index]`
      for each failing entry, in entry order. (An entry past the end of
      `records` would push `undefined`; it is skipped here.) */
  function FailedRecords<T>(records: seq<T>, entries: seq<Entry>): (r: seq<T>)
    ensures |r| <= |records| && |r| <= |entries|
  {
    if entries == [] then []
    else
      var i := |entries| - 1;
      FailedRecords(records, entries[..i]) + (if Failing(entries[i]) && i < |records| then [records[i]] else [])
  }

  /** The indices, in increasing order, of the failing entries that have a
      record (below `n`). */
  function FailedIndices(entries: seq<Entry>, n: nat): (idx: seq<nat>)
    ensures forall k :: 0 <= k < |idx| ==> idx[k] < n && idx[k] < |entries| && Failing(entries[idx[k]])
    ensures forall j, k :: 0 <= j < k < |idx| ==> idx[j] < idx[k]
  {
    if entries == [] then []
    else
      var i := |entries| - 1;
      FailedIndices(entries[..i], n) + (if Failing(entries[i]) && i < n then [i] else [])
  }

  /** Every failing entry below `n` has its index selected. */
  lemma {:induction false} FailedIndicesComplete(entries: seq<Entry>, n: nat, i: nat)
    requires i < |entries| && i < n && Failing(entries[i])
    ensures i in FailedIndices(entries, n)
  {
    var last := |entries| - 1;
    if i < last {
      assert entries[..last][i] == entries[i];
      FailedIndicesComplete(entries[..last], n, i);
    }
  }

  /** The resubmitted batch is exactly `records[i]` for the failing indices
      `i`, in original index order. */
  lemma {:induction false} FailedRecordsByIndex<T>(records: seq<T>, entries: seq<Entry>)
    ensures |FailedRecords(records, entries)| == |FailedIndices(entries, |records|)|
    ensures forall k :: 0 <= k < |FailedRecords(records, entries)| ==>
      FailedRecords(records, entries)[k] == records[FailedIndices(entries, |records|)[k]]
  {
    if entries != [] {
      FailedRecordsByIndex(records, entries[..|entries| - 1]);
    }
  }

  /** No record is invented or duplicated by the selection. */
  lemma {:induction false} FailedRecordsSubMultiset<T>(records: seq<T>, entries: seq<Entry>)
    ensures multiset(FailedRecords(records, entries)) <= multiset(records)
  {
    var f := FailedRecords(records, entries);
    var idx := FailedIndices(entries, |records|);
    FailedRecordsByIndex(records, entries);
    SelectStrictlyIncreasing(records, idx, f);
  }

  /** Picking elements at strictly increasing indices takes each element at
      most as often as it occurs. */
  lemma {:induction false} SelectStrictlyIncreasing<T>(records: seq<T>, idx: seq<nat>, f: seq<T>)
    requires |f| == |idx|
    requires forall k :: 0 <= k < |idx| ==> idx[k] < |records| && f[k] == records[idx[k]]
    requires forall j, k :: 0 <= j < k < |idx| ==> idx[j] < idx[k]
    ensures multiset(f) <= multiset(records)
    decreases |records|
  {
    if idx != [] {
      var last := |idx| - 1;
      var top := idx[last];
      var prefix := records[..top];
      assert records == prefix + [records[top]] + records[top + 1..];
      SelectStrictlyIncreasing(prefix, idx[..last], f[..last]);
      assert f == f[..last] + [records[top]];
    }
  }

  /** The loop at lib/kinesis-stream.js:142-155, which builds `failedRecords`
      with a forEach over the response entries. */
  method CollectFailed<T>(records: seq<T>, entries: seq<Entry>) returns (failed: seq<T>)
    ensures failed == FailedRecords(records, entries)
  {
    failed := [];
    var index := 0;
    while index < |entries|
      invariant 0 <= index <= |entries|
      invariant failed == FailedRecords(records, entries[..index])
    {
      assert entries[..index + 1][..index] == entries[..index];
      if Failing(entries[index]) && index < |records| {
        failed := failed + [records[index]];
      }
      index := index + 1;
    }
    assert entries[..index] == entries;
  }

  /** One callback invocation for a batch submitted on attempt `attempt`. */
  function Step<T>(maxRetries: int, records: seq<T>, attempt: int, response: Response): (r: Outcome<T>)
    // a transport error, and only that, is terminal without a final log
    ensures r.Abandoned? <==> response.TransportError?
    // partial failure with retries left: resubmit exactly the failed subset
    ensures r.Resubmit? <==> response.Delivered? && response.failedRecordCount > 0 && attempt < maxRetries
    ensures r.Resubmit? ==> r.attempt == attempt + 1 <= maxRetries
    ensures r.Resubmit? ==> r.records == FailedRecords(records, response.entries)
    // otherwise the batch is finished; the log says `attempt == maxRetries`,
    // while records remained undelivered exactly when some failed
    ensures r.Finished? ==> r.retries == attempt && r.logged == (attempt == maxRetries)
    ensures r.Finished? ==> (r.undelivered <==> response.failedRecordCount > 0)
    ensures r.Finished? && r.undelivered ==> attempt >= maxRetries
  {
    match response
    case TransportError => Abandoned
    case Delivered(count, entries) =>
      if count > 0 && attempt < maxRetries then Resubmit(FailedRecords(records, entries), attempt + 1)
      else Finished(attempt, attempt == maxRetries, count > 0)
  }

  /** Over every delivered answer that ends a batch whose attempt number
      stayed within `maxRetries`, the logged flag misreports the batch
      exactly when nothing failed on the last permitted attempt. */
  lemma {:induction false} LoggedFlagMisreports<T>(maxRetries: int, records: seq<T>, attempt: int, response: Response)
    requires response.Delivered? && 0 <= attempt <= maxRetries
    requires Step(maxRetries, records, attempt, response).Finished?
    ensures var r := Step(maxRetries, records, attempt, response);
      r.logged != r.undelivered <==> response.failedRecordCount <= 0 && attempt == maxRetries
  {
    var r := Step(maxRetries, records, attempt, response);
    if response.failedRecordCount > 0 {
      assert attempt == maxRetries && r.logged && r.undelivered;
    } else {
      assert !r.undelivered;
    }
  }

  /** Three partial failures, then a full success on the last permitted
      retry: the batch is delivered, yet the log says it failed. */
  lemma LoggedFlagWrongAfterSuccessfulLastRetry()
    ensures Step(3, ["line"], 3, Delivered(0, [Entry(None)])) == Finished(3, true, false)
  {
  }

  /** The batches one flush hands to the sink when the sink answers the
      i-th of them with `responses[i]`; the first is the flushed buffer. */
  function Run<T>(maxRetries: int, records: seq<T>, attempt: int, responses: seq<Response>): (r: seq<seq<T>>)
    ensures 1 <= |r| <= 1 + |responses| && r[0] == records
    decreases |responses|
  {
    [records] +
      if responses == [] then []
      else match Step(maxRetries, records, attempt, responses[0])
        case Resubmit(next, a) => Run(maxRetries, next, a, responses[1..])
        case _ => []
  }

  /** Resubmission stops at attempt `maxRetries`, whatever the sink answers. */
  lemma {:induction false} RunLength<T>(maxRetries: int, records: seq<T>, attempt: int, responses: seq<Response>)
    ensures |Run(maxRetries, records, attempt, responses)| <= 1 + (if attempt < maxRetries then maxRetries - attempt else 0)
    decreases |responses|
  {
    if responses != [] {
      match Step(maxRetries, records, attempt, responses[0])
      case Resubmit(next, a) => RunLength(maxRetries, next, a, responses[1..]);
      case _ =>
    }
  }

  /** One flush makes at most `maxRetries + 1` sink calls. */
  lemma FlushSinkCalls<T>(maxRetries: nat, records: seq<T>, responses: seq<Response>)
    ensures |Run(maxRetries, records, 0, responses)| <= maxRetries + 1
  {
    RunLength(maxRetries, records, 0, responses);
  }

  /** Every batch a flush sends holds only records of the flushed buffer,
      each at most as often as it was buffered. */
  lemma {:induction false} RunOnlyResendsBuffered<T>(maxRetries: int, records: seq<T>, attempt: int, responses: seq<Response>)
    ensures forall k :: 0 <= k < |Run(maxRetries, records, attempt, responses)| ==>
      multiset(Run(maxRetries, records, attempt, responses)[k]) <= multiset(records)
    decreases |responses|
  {
    var run := Run(maxRetries, records, attempt, responses);
    if responses != [] {
      match Step(maxRetries, records, attempt, responses[0])
      case Resubmit(next, a) =>
        FailedRecordsSubMultiset(records, responses[0].entries);
        RunOnlyResendsBuffered(maxRetries, next, a, responses[1..]);
        assert run == [records] + Run(maxRetries, next, a, responses[1..]);
      case _ =>
    }
  }

  /** The sink reports failures at indices 1 and 3 of a five-record batch:
      exactly the second and fourth records are resubmitted. */
  lemma FailuresAtOneAndThree<T>(a: T, b: T, c: T, d: T, e: T)
    ensures Step(3, [a, b, c, d, e], 0, Delivered(2, [Entry(None), Entry(Some("ProvisionedThroughputExceededException")),
      Entry(None), Entry(Some("InternalFailure")), Entry(None)])) == Resubmit([b, d], 1)
  {
    var records := [a, b, c, d, e];
    var entries := [Entry(None), Entry(Some("ProvisionedThroughputExceededException")),
      Entry(None), Entry(Some("InternalFailure")), Entry(None)];
    assert entries[..2][..1] == entries[..1] && entries[..3][..2] == entries[..2];
    assert entries[..4][..3] == entries[..3] && entries[..5][..4] == entries[..4] && entries[..5] == entries;
    assert FailedRecords(records, entries[..1]) == [];
    assert FailedRecords(records, entries[..2]) == [b];
    assert FailedRecords(records, entries[..3]) == [b];
    assert FailedRecords(records, entries[..4]) == [b, d];
  }
}
