# seguir-kinesis core, modelled in Dafny

seguir-kinesis ships log lines to Amazon Kinesis. A router (`Streams`) maps each source file to the set of Kinesis streams whose file patterns match it, and remembers the answer per file. Each stream (`KinesisStream`) buffers records. It sends the buffer as one PutRecords batch when a record would break the record limit or the byte limit, and also on an interval timer. It drops records over the 1 MiB PutRecords ceiling. It derives each record's partition key from a JSON field, a static key or a uuid. When a batch partly fails, it resubmits exactly the failed records, up to `maxRetries` times.

The model has seven modules:

- `Wrappers`: `Option` and `Result`.
- `Utf8`: the UTF-8 byte length that `Buffer.byteLength` computes.
- `PartitionKeys`: JSON values, key derivation, the `Record` type and `sizeOf`.
- `Retry`: failed-subset selection, one callback step, and the sequence of sink calls one flush makes.
- `Buffering`: the write and rollover rules as functions on values, with the buffer invariant.
- `KinesisStreams`: the class `KinesisStream`. `Write` and `ScheduledFlush` update its `buffer` and `size` in place. `Stop` clears its timer flag. `Callback` adds to the sink log when it resubmits. The PutRecords sink is a ghost log `sent` of every batch the stream submits. The ghost `accepted` holds every record `write` accepted.
- `Routing`: the class `Streams`. It holds the `streams` map from stream to pattern set and the `cache` map from file to route set.

Library calls the model does not define are given as parameters:

- `JsonCodec` gives `JSON.parse` (None where it throws) and `JSON.stringify`.
- `RegexEngine` gives `new RegExp` (whether a pattern compiles) and `RegExp.prototype.test`.
- `uuidV4()` is a string argument. `Write` takes one for the key and one for a batch id.

## Model

| member | source | states |
|---|---|---|
| Utf8.ByteLengthBounds | lib/kinesis-stream.js:178-180 | a string of n characters takes between n and 4n bytes |
| Utf8.ByteLengthAppend | lib/kinesis-stream.js:178-180 | the byte length of `Data + PartitionKey` is the sum of the two byte lengths |
| Utf8.ByteLength | lib/kinesis-stream.js:179 | `Buffer.byteLength` as the UTF-8 length; only the empty string has length 0 |
| PartitionKeys.Property | lib/kinesis-stream.js:85 | `obj[name]` throws exactly on `null`; a value found is the object's own field |
| PartitionKeys.GetPartitionKey | lib/kinesis-stream.js:82-109 | key derivation fails only when a field name is configured, with a SyntaxError exactly when the line is not JSON and a TypeError exactly when it is `null` |
| PartitionKeys.ConvertToRecord | lib/kinesis-stream.js:75-80 | the record's data is the line and its key is the derived key; it fails exactly when key derivation does, with the same error |
| PartitionKeys.SizeOf | lib/kinesis-stream.js:178-180 | a record's size is the UTF-8 length of data plus key, between 1 and 4 bytes per character |
| PartitionKeys.KeyFromStringField | lib/kinesis-stream.js:83-105 | a string field is the key verbatim |
| PartitionKeys.MissingFieldIsUndefined | lib/kinesis-stream.js:85-93 | a missing field gives the key "undefined" |
| PartitionKeys.NonStringFieldIsSerialised | lib/kinesis-stream.js:95-103 | a present non-string field gives its JSON serialisation as the key |
| PartitionKeys.NumericIdExample | lib/kinesis-stream.js:95-103 | with field "id", the line {"id": 42} gets the key "42" |
| PartitionKeys.PropertyTakesPriority | lib/kinesis-stream.js:82-108 | with a field name configured, the static key and the uuid have no effect |
| PartitionKeys.StaticKeyUsed | lib/kinesis-stream.js:108 | without a field name, a non-empty static key is used for every line |
| PartitionKeys.FreshKeyOtherwise | lib/kinesis-stream.js:108 | without a field name, an undefined or empty static key falls through to the uuid |
| PartitionKeys.RecordSizePositive | lib/kinesis-stream.js:75-108 | every record built has a positive size, given a non-empty uuid and that JSON.parse rejects "" |
| Buffering.RollsOver | lib/kinesis-stream.js:65 | the rollover guard; an empty buffer rolls over exactly when maxRecords is below 1 |
| Buffering.PushRecord | lib/kinesis-stream.js:56-72 | a record over 1 MiB is refused, with its size reported; the old buffer is emitted exactly when the guard holds, and then the new buffer is just the record; otherwise the record is appended; the new size is the record's size plus what stayed |
| Buffering.RolloverKeepsInv | lib/kinesis-stream.js:65-72 | a buffer restarted with one record of at most 1 MiB satisfies the invariant |
| Buffering.AppendKeepsInv | lib/kinesis-stream.js:65-72 | appending without rollover keeps the invariant |
| Buffering.PushKeepsInv | lib/kinesis-stream.js:65-72 | an accepted write keeps size equal to the byte total, every record at most 1 MiB, at most max(1, maxRecords) records, and the byte limit exceeded only when all records but the last are empty |
| Buffering.PushLosesNothing | lib/kinesis-stream.js:65-72 | the emitted batch followed by the new buffer is the old buffer followed by the record |
| Buffering.RecordLimitHolds | lib/kinesis-stream.js:65-72 | with maxRecords at least 1, the buffer never holds more than maxRecords records |
| Buffering.OverBudgetMeansAlone | lib/kinesis-stream.js:65-72 | with positive record sizes, a buffer over maxBytes holds exactly one record |
| Buffering.EmptyInv | lib/kinesis-stream.js:45-46 | the empty buffer with size 0 satisfies the invariant |
| Retry.FailedIndices | lib/kinesis-stream.js:143-146 | the selected indices are increasing, each has a record, and each entry carries an ErrorCode |
| Retry.FailedIndicesComplete | lib/kinesis-stream.js:143-146 | every entry that has a record and carries an ErrorCode is selected |
| Retry.FailedRecordsByIndex | lib/kinesis-stream.js:142-155 | the resubmitted batch is `records[i]` for the selected indices, in index order |
| Retry.FailedRecordsSubMultiset | lib/kinesis-stream.js:142-155 | the resubmitted batch neither invents nor duplicates a record |
| Retry.CollectFailed | lib/kinesis-stream.js:142-155 | the forEach loop builds exactly the failed subset |
| Retry.FailedRecords | lib/kinesis-stream.js:142-155 | the resubmitted batch is no longer than the batch or the response |
| Retry.Step | lib/kinesis-stream.js:135-168 | exactly a transport error abandons the batch; failures with retries left: the failed subset is resubmitted as attempt + 1 ≤ maxRetries; otherwise the batch finishes, logging `failed` as `attempt == maxRetries`, and the batch is undelivered exactly when records failed, which only happens once retries are exhausted |
| Retry.LoggedFlagMisreports | lib/kinesis-stream.js:161-166 | for every delivered answer that finishes a batch within its retries, the logged flag disagrees with the real outcome exactly when nothing failed on the last permitted attempt |
| Retry.LoggedFlagWrongAfterSuccessfulLastRetry | lib/kinesis-stream.js:161-166 | when the last allowed retry delivers everything, the logged flag is true although the batch did not fail |
| Retry.Run | lib/kinesis-stream.js:129-160 | the chain of sink calls one flush makes starts with the flushed buffer and has at most one call per answer, plus one |
| Retry.RunLength | lib/kinesis-stream.js:141-160 | from attempt a, a batch is resubmitted at most maxRetries − a more times, whatever the sink answers |
| Retry.FlushSinkCalls | lib/kinesis-stream.js:129-160 | one flush makes at most maxRetries + 1 PutRecords calls |
| Retry.RunOnlyResendsBuffered | lib/kinesis-stream.js:141-160 | every batch a flush sends holds only records of the flushed buffer, none more often than buffered |
| Retry.FailuresAtOneAndThree | lib/kinesis-stream.js:141-155 | in a batch of five where entries 1 and 3 fail, exactly records 1 and 3 are resubmitted, in that order |
| KinesisStreams.NothingLostFlush | lib/kinesis-stream.js:111-119 | sending the whole buffer moves its records, in order, onto the flushed batches |
| KinesisStreams.NothingLostRetry | lib/kinesis-stream.js:157-160 | a resubmission does not count as a new batch |
| KinesisStreams.RolloverKeepsStreamInv | lib/kinesis-stream.js:65-72 | a rollover keeps the stream invariant: the old buffer becomes one more initial batch and no record is lost |
| KinesisStreams.AppendKeepsStreamInv | lib/kinesis-stream.js:71-72 | an append keeps the stream invariant |
| KinesisStreams.FlushKeepsStreamInv | lib/kinesis-stream.js:111-119 | a scheduled flush keeps the stream invariant |
| KinesisStreams.AnswerKeepsStreamInv | lib/kinesis-stream.js:141-160 | a resubmission keeps the stream invariant, its attempt number staying within maxRetries |
| KinesisStreams.UnusedIsValid | lib/kinesis-stream.js:45-46 | a stream as constructed satisfies its invariant |
| KinesisStreams.KinesisStream.constructor | lib/kinesis-stream.js:12-52 | the defaults are 500 records, 5242880 bytes, 3 retries and 60000 ms; the buffer starts empty with size 0; the timer runs exactly when msFlushRate > 0 |
| KinesisStreams.KinesisStream.Flush | lib/kinesis-stream.js:121-133 | the records go to the sink as attempt 0 under the new batch id |
| KinesisStreams.KinesisStream.Write | lib/kinesis-stream.js:54-73 | a throwing line or a record over 1 MiB (whose size is reported) changes nothing and flushes nothing; an accepted record is appended, after the old buffer was emitted whole on rollover; the invariant holds afterwards |
| KinesisStreams.KinesisStream.BufferRecord | lib/kinesis-stream.js:65-72 | the record is appended; it rolls over exactly on the guard, and then the old buffer is sent whole first; the new buffer and size are what `PushRecord` gives |
| KinesisStreams.KinesisStream.StartBuffer | lib/kinesis-stream.js:65-72 | the old buffer is sent as attempt 0 and the buffer becomes just the record, with its size |
| KinesisStreams.KinesisStream.AppendRecord | lib/kinesis-stream.js:71-72 | the record is appended and its size added; nothing is sent |
| KinesisStreams.KinesisStream.ScheduledFlush | lib/kinesis-stream.js:111-119 | an empty buffer is left alone; otherwise the whole buffer is sent and reset to [] and 0 |
| KinesisStreams.KinesisStream.TimerFires | lib/kinesis-stream.js:48-51 | once the timer is cleared, or while the buffer is empty, a tick changes nothing; otherwise it sends the whole buffer and resets it |
| KinesisStreams.KinesisStream.Callback | lib/kinesis-stream.js:135-168 | the outcome is `Retry.Step`, with the final log's `failed` as written; only a resubmission adds a sink call, with the same batch id and attempt + 1 |
| KinesisStreams.KinesisStream.Stop | lib/kinesis-stream.js:170-176 | the timer is cleared; buffer and invariant are untouched |
| Routing.StreamOptions | lib/handlers/streams.js:33-41 | every setting but maxRecords is passed to the stream as configured |
| Routing.MaxRecordsNotForwarded | lib/handlers/streams.js:33-41 | a configured maxRecords is dropped, so every stream gets 500 |
| Routing.ElementsMembers | lib/handlers/streams.js:60-62 | the pattern set holds exactly the patterns added, duplicates collapsed |
| Routing.CompilingPrefix | lib/handlers/streams.js:60-62 | the patterns before the first one `new RegExp` rejects |
| Routing.MatchRoutes | lib/handlers/streams.js:75-82 | the nested loops collect exactly the streams with a pattern matching the file |
| Routing.Streams.constructor | lib/handlers/streams.js:6-8 | both maps start empty |
| Routing.Streams.AddConfiguredStream | lib/handlers/streams.js:32-44 | a fresh stream with the forwarded settings is registered with the definition's patterns |
| Routing.Streams.RegisterNext | lib/handlers/streams.js:32-44 | the next definition's fresh stream is registered with its patterns, the earlier registrations kept; it compiles exactly when all its patterns do |
| Routing.Streams.AddConfiguredStreams | lib/handlers/streams.js:31-45 | one fresh, unused stream per definition, with maxRecords 500 and its file patterns; it succeeds exactly when every pattern compiles, and otherwise stops at the first definition with a bad pattern |
| Routing.Streams.Destroy | lib/handlers/streams.js:48-52 | every registered stream is stopped exactly once, and no buffer is flushed or changed |
| Routing.Streams.AddStreamPatterns | lib/handlers/streams.js:54-63 | the stream's set becomes the old set (empty on first use) plus the patterns up to the first that does not compile; `ok` says whether all compiled |
| Routing.Streams.GetStreams | lib/handlers/streams.js:65-67 | exactly the registered streams |
| Routing.Streams.GetRoutes | lib/handlers/streams.js:69-86 | a cached file gets its cached set, empty or not, with nothing evaluated; otherwise it gets exactly the streams with a matching pattern, and only that file's cache entry is written |
| Routing.RoutesAreStable | lib/handlers/streams.js:69-86 | two lookups of one file agree even when patterns are added between them |

Three behaviours of the code that a reader may not expect are kept as written:

- A configured `maxRecords` never reaches a stream (`Routing.MaxRecordsNotForwarded`).
- With `maxRecords` below 1, each write first emits the current buffer, even an empty one, so one record stays buffered.
- The final log records the retry count and a `failed` flag, not the number of failed records. The model keeps that flag as written (`logged`) and, beside it, whether records remained undelivered (`undelivered`).

## Left out

- AWS client construction and the PutRecords transport (lib/handlers/streams.js:10-29, lib/kinesis-stream.js:129-132, 157-160). These are network calls. The sink is the ghost log `sent`, and the sink's answer is the `Response` passed to `Callback`.
- `setInterval`/`clearInterval`. The timer is the flag `timerActive`, and a tick is `TimerFires`, called from outside.
- The EventEmitter. The `buffer.full` emit is a direct call to `Flush`. `Stop` leaves the listener in place because the source's `removeListener` is given an unbound function and removes nothing. A write after `stop` can therefore still send a batch.
- bunyan logging, the batch id's use in log lines, and the `ErrorMessage` and `requestId` fields of a response. These are for observability only.
- The internals of `JSON.parse`, `JSON.stringify`, `RegExp` and `uuidV4`. They are parameters.
- PartitionKeys.Property: on arrays, strings, numbers and booleans every property reads as undefined. Array indices, `length` and inherited members such as `toString` are not modelled.
- Retry.FailedRecords: a failing response entry past the end of the batch would push `undefined` in the source. The model skips it. PutRecords answers with one entry per record.
- Utf8.ByteLength: lone UTF-16 surrogates, which Node encodes as 3 bytes, cannot occur in a Dafny string.
- Numeric settings (`maxRecords`, `maxBytes`, `maxRetries`, `msFlushRate`) are taken to be integers. A fractional value such as `maxRetries: 2.5`, which JavaScript would accept, is not modelled.
- Concurrency between in-flight flushes. Each callback is one sequential step on the shared `sent` log.
- Routing.Streams.AddConfiguredStreams: a SyntaxError from a bad pattern escapes the JavaScript constructor. Here it is a `false` result, with the streams registered so far left in place.
- Patterns are kept by source text. Two identical patterns are one set element here but two RegExp objects in the source. They match the same files.
- lib/handlers/config.js (schema validation, environment fallbacks) and index.js (listener wiring and the forEach over `getRoutes` that calls `write`) are not part of this model.

## Findings

| source | as written | input that shows it | evidently intended | confidence | as-written member | corrected member |
|---|---|---|---|---|---|---|
| lib/kinesis-stream.js:165 | the final log's `failed` is `attempt == maxRetries` | maxRetries 3: three partial failures, then a response with FailedRecordCount 0 at attempt 3 (or maxRetries 0 and a full success first time) | the batch failed exactly when FailedRecordCount > 0 remains | medium, not executed | Retry.LoggedFlagMisreports | Retry.Step |
