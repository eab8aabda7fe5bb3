# sqs-util: batching, bulk enqueue and draining, in Dafny

This project models the bulk transfer and draining engine of `sqs-util`. That is a thin
TypeScript layer over Amazon SQS. The model covers:

- **Batch splitters** of `src/utils.ts`:
  - `getBatch` empties the caller's array with `splice`.
  - `getConcurrentBatch` yields groups of `concurrency` batches.
  - `getEntries` turns records into `SendMessageBatch` entries. Each entry is named
    `uuid + "__" + offset`.
- **Reconciler** `processConcurrentBatches`: it sends one batch per call, waits for all of
  them to settle, and folds the outcomes into `{ successful, failed }`.
- **`Queue` class** of `src/queue.ts`:
  - parameter merging for `enqueue` and `dequeue`;
  - the windowed `bulkEnqueue` loop;
  - `dequeue` with its JSON parsing and its `delete` fan-out;
  - the `next` drain loop.

The SQS client is replaced by oracles:

- `SendMessageBatch` is a function from queue URL and batch to a settled outcome.
- The drain receives a script of `ReceiveMessage` outcomes.
- `JSON.stringify` and `JSON.parse` are function parameters. `parse` returns `None` where
  `JSON.parse` throws.
- The random UUID of a `getEntries` call is a parameter.

Messages and options are JSON values. Entries and parameter objects are `map<string, Json>`,
built the way `Object.assign` builds them.

Files and modules:

| file | module | models |
|---|---|---|
| `wrappers.dfy` | `Wrappers` | `Option` and `Result` |
| `types.dfy` | `Types` | JSON values, `Object.assign`, the SDK shapes the core reads, `BulkEnqueueResult` |
| `chunking.dfy` | `Chunking` | cutting a sequence into pieces of a fixed size, and the counting arithmetic |
| `entry_ids.dfy` | `EntryIds` | decimal offsets, the `uuid__k` identifier and `split('__')[1]` |
| `batching.dfy` | `Batching` | `getBatch`, `getConcurrentBatch`, `getEntries` |
| `reconciler.dfy` | `Reconciler` | `processConcurrentBatches` |
| `queue.dfy` | `QueueModel` | class `Queue`: `enqueue` and `dequeue` parameters, `bulkEnqueue`, `dequeue`, `delete`, `next` |

How each part is modelled:

- **`getBatch`** mutates the caller's array. It is a method over a `RecordArray` object
  whose `elems` field it splices. It is proved against `Chunks`, the reference definition
  of cutting into pieces.
- **`getConcurrentBatch`** and **`getEntries`** are pure generators. Each is a recursive
  function that mirrors its `for` loop. Lemmas tie each one to `Chunks`.
- **`processConcurrentBatches`** and **`bulkEnqueue`** keep their loops. They are methods
  proved against the folds `Reconcile` and `WindowedResult`.
- **`next`** is a method whose loop is proved equal to the recursive function `Drain`.

Two behaviours of the code worth knowing, both modelled as written:

- `next` also yields the empty result that ends the drain, then stops (src/queue.ts:105-108).
- `failed` lists the failures in batch order, the order in which `Promise.allSettled` reports
  the outcomes, not the order in which the calls settle (src/utils.ts:44-48).

## Model

| member | source | states |
|---|---|---|
| Types.Assign | src/utils.ts:36 | `Object.assign`: the keys are the union; a key of the later object overrides; keys only the earlier object has are kept |
| Types.StrField | src/utils.ts:53 | reading `entry.Id` / `entry.MessageBody`: defined exactly when the key holds a string, and then equal to it |
| Chunking.ChunksShape | src/utils.ts:8-13 | the pieces joined back give the input in order; each is non-empty and at most `size` long; all but the last are exactly `size`; no pieces exactly when the input is empty |
| Chunking.ChunksCount | src/utils.ts:33-34 | the number of pieces is the ceiling of `|s| / size` |
| Chunking.ChunksOfFull | src/queue.ts:55-72 | full windows followed by a shorter remainder are exactly the pieces of their concatenation |
| Chunking.ChunksExact | src/utils.ts:16-24 | a group of `size * c` records is cut into exactly `c` full batches |
| Chunking.ChunksAtMost | src/utils.ts:16-24 | a group of at most `size * c` records is cut into at most `c` batches |
| EntryIds.Decimal | src/utils.ts:36 | the offset text `${i + index}` is non-empty, all digits, and has no leading zero |
| EntryIds.DecimalRoundTrip | src/utils.ts:36 | reading the offset text as a number gives the offset back |
| EntryIds.FindSep | src/utils.ts:51 | the search for `'__'` finds the first occurrence at or after `from`, or reports none |
| EntryIds.SecondSegment | src/utils.ts:51 | `split('__')[1]`: undefined exactly when the text holds no `'__'`; otherwise a text at least two shorter that holds no `'__'` |
| EntryIds.DecodeId | src/utils.ts:51 | definition of `message.Id?.split('__')[1]`; its contract gives undefined for an absent `Id` and a decoded text shorter than the `Id` that holds no `'__'`; its value on the ids getEntries builds is pinned in `IdRoundTrip`, `RelabelRecoversOffset` and `RejectedEntryRecord` |
| EntryIds.EncodeId | src/utils.ts:31-36 | definition of `${idPrefix}${i + index}` with `idPrefix = uuid + '__'`; properties in `IdRoundTrip` and `DistinctOffsets` |
| EntryIds.IdRoundTrip | src/utils.ts:31-53 | `split('__')[1]` of `uuid + '__' + k` is the decimal text of `k`, for any prefix in which every `'_'` is followed by a character other than `'_'` (so the prefix does not end in `'_'`), such as a UUID |
| EntryIds.DistinctOffsets | src/utils.ts:31-36 | different offsets get different identifiers and different decoded texts |
| Batching.RecordArray.Splice | src/utils.ts:11 | `splice(0, n)` returns the first `n` elements (all of them when fewer remain) and leaves the rest |
| Batching.GetBatch | src/utils.ts:8-13 | empties the array; yields the pieces of the original array of size `batchSize`, in order, each numbered with its position |
| Batching.ReduceStep | src/utils.ts:19-23 | one `reduce` step never leaves the accumulator empty; definition mirroring the lines, properties in `ReduceIsChunks` |
| Batching.Reduce | src/utils.ts:18-24 | definition of the `reduce` over a slice; properties in `ReduceIsChunks` and `ReduceFromEmpty` |
| Batching.ReduceIsChunks | src/utils.ts:18-24 | the `reduce` step opens a new batch when the last one is full; folding it over values cuts them into batches of `batchSize` after the batches already closed |
| Batching.ReduceFromEmpty | src/utils.ts:18-24 | the `reduce` started from `[[]]` on a non-empty slice yields its pieces of size `batchSize` |
| Batching.ConcurrentFromIsChunks | src/utils.ts:16-26 | the loop from index `i` yields the groups of `batchSize * concurrency` records of `records[i..]`, each cut into batches |
| Batching.GetConcurrentBatch | src/utils.ts:15-28 | definition mirroring the `for` loop; properties in `GetConcurrentBatchIsChunks`, `GetConcurrentBatchCovers` and `GetConcurrentBatchSizes` |
| Batching.GetConcurrentBatchIsChunks | src/utils.ts:15-28 | getConcurrentBatch is: cut into groups of `batchSize * concurrency`, then cut each group into batches |
| Batching.GetConcurrentBatchCovers | src/utils.ts:15-28 | flattening the groups, then the batches, gives back the records in order |
| Batching.GetConcurrentBatchSizes | src/utils.ts:15-28 | every group holds 1..`concurrency` batches of 1..`batchSize` records; every group but the last is `concurrency` full batches; only the very last batch may be short |
| Batching.MakeEntry | src/utils.ts:35-36 | an entry keeps the options' keys and adds `Id` = prefix + `__` + offset and `MessageBody` = the serialised record, which override options of the same name |
| Batching.GetEntries | src/utils.ts:30-39 | definition mirroring the `for` loop; properties in `GetEntriesShape` and `GetEntriesAt` |
| Batching.GetEntriesShape | src/utils.ts:30-39 | getEntries yields ceil(n / batchSize) batches; sizes are 1..batchSize and all but the last are full; concatenated, they are the entries of every record in input order; no batch for an empty input |
| Batching.GetEntriesAt | src/utils.ts:33-36 | entry `t` of batch `j` is the entry of the record at global offset `j * batchSize + t`, under that offset |
| Reconciler.SuccessIds | src/utils.ts:50 | at most one id per reported success, each some success's `MessageId`; when every success has one, exactly those ids in reported order; fully determined by `SuccessIdsSingle` and `SuccessIdsAppend` |
| Reconciler.SuccessIdsSingle | src/utils.ts:50 | one success contributes its `MessageId` when it has one, and nothing otherwise |
| Reconciler.SuccessIdsAppend | src/utils.ts:50 | the ids of two runs of successes are the ids of each run, in reported order |
| Reconciler.Relabel | src/utils.ts:51 | `{ ...message, Id: message.Id?.split('__')[1] }`: the `Id` is decoded and every other field is kept |
| Reconciler.RejectedRecord | src/utils.ts:53 | definition of the failure pushed for one entry of a rejected batch; properties in `RejectedEntryRecord` and `RejectedBatchRecords` |
| Reconciler.Settle | src/utils.ts:49-54 | a rejected batch contributes no success and one failure per entry; a fulfilled one at most one success per reported success and one failure per reported failure |
| Reconciler.Reconcile | src/utils.ts:48-55 | definition of the `forEach` fold over the settled outcomes, in batch order; properties in `ReconcileAppend`, `ReconcileCount`, `ReconcileAllSucceeded` and `ReconcileOneRejected` |
| Reconciler.AllSettled | src/utils.ts:44-46 | one outcome per batch, in batch order, each the outcome of sending that batch to the queue URL |
| Reconciler.AllSettledAppend | src/utils.ts:44-46 | the outcomes of two runs of batches are the outcomes of each run, in order |
| Reconciler.PushSuccessIds | src/utils.ts:50 | the `Successful?.forEach` loop appends exactly `SuccessIds` of the response |
| Reconciler.PushRelabelled | src/utils.ts:51 | the `Failed?.forEach` loop appends every reported failure with its `Id` decoded by `split('__')[1]` |
| Reconciler.PushRejected | src/utils.ts:53 | for a rejected batch, the loop appends one failure per entry: decoded `Id`, the entry's body as `Message`, the reason as `Code`, no `SenderFault` |
| Reconciler.ProcessConcurrentBatches | src/utils.ts:41-58 | the result is the fold `Reconcile` of every batch's contribution over the settled outcomes, in batch order |
| Reconciler.ReconcileAppend | src/utils.ts:48-55 | reconciling two runs of batches is joining their results: one batch's outcome never disturbs the others' |
| Reconciler.ReconcileCount | src/utils.ts:48-55 | when every outcome accounts for each entry of its batch once, successes plus failures equal the number of entries |
| Reconciler.ReconcileAllSucceeded | src/utils.ts:48-55 | when every batch fully succeeds, there is no failure and one success per entry |
| Reconciler.ReconcileOneRejected | src/utils.ts:52-54 | one rejected batch among successful ones: the failures are exactly that batch's entries, and all other entries succeed |
| Reconciler.RejectedBatchRecords | src/utils.ts:53 | a rejected getEntries batch `j` fails every entry, in order, with `Id` = the decimal global offset, `Message` = that record's serialised body, `Code` = the reason |
| Reconciler.RejectedEntryRecord | src/utils.ts:53 | the failure recorded for one rejected entry carries the decimal offset of its record |
| Reconciler.RelabelRecoversOffset | src/utils.ts:51 | a failure the service reports for the entry at offset `k` is relabelled with `Id` = `k` in decimal, all other fields kept |
| QueueModel.WindowSize | src/queue.ts:58 | the window size is the first non-empty buffer length at which `batches.length >= concurrency` fires: `concurrency` itself, or 1 (after every batch) when `concurrency` is below 1 |
| QueueModel.ParseBody | src/queue.ts:84 | a message fails to parse exactly when it has a body that `JSON.parse` rejects, and the error carries that body; an absent body gives an absent value; a present one gives its parsed value |
| QueueModel.ParseBodies | src/queue.ts:84 | succeeds exactly when every present body parses; then one value per message, in order (absent body gives absent value); otherwise the first body that does not parse is the error |
| QueueModel.PushKeeps | src/queue.ts:55-64 | pushing one batch either completes a window, which is flushed, or leaves fewer than a window buffered; the flushed windows and the buffer are always the batches seen so far |
| QueueModel.Queue.constructor | src/queue.ts:29-37 | keeps the URL and the default options |
| QueueModel.Queue.EnqueueParams | src/queue.ts:40-44 | SendMessage parameters: defaults, overridden by the call's options, overridden by `MessageBody` = serialised object and `QueueUrl` = the queue's URL |
| QueueModel.Queue.DequeueParams | src/queue.ts:78-82 | ReceiveMessage parameters: defaults, overridden by the call's options, overridden by `QueueUrl` = the queue's URL |
| QueueModel.Queue.BulkEntries | src/queue.ts:51-55 | definition: the getEntries batches over `Object.assign({}, defaultOptions, options)`; properties in `BulkWindowShape` |
| QueueModel.Queue.WindowedResult | src/queue.ts:59-61 | definition of the window-by-window accumulation of results; properties in `WindowingTransparent` |
| QueueModel.Queue.FlushFullWindows | src/queue.ts:55-65 | after the loop, the flushed windows are full and, followed by fewer than a window of buffered batches, are all the batches; the result is the windows' results joined in order |
| QueueModel.Queue.Flush | src/queue.ts:59-63 | flushing a window appends its batches and appends its reconciled result |
| QueueModel.Queue.BulkEnqueue | src/queue.ts:50-75 | the windows sent are the getEntries batches (over defaults + options) cut into pieces of `concurrency`; the result is the same as reconciling all batches in one pass; nothing is sent for no objects |
| QueueModel.Queue.WindowingTransparent | src/queue.ts:55-72 | reconciling window by window equals reconciling all the batches of the windows at once |
| QueueModel.Queue.BulkWindowShape | src/queue.ts:50-75 | ceil(n / 10) batches in ceil(batches / concurrency) windows, all but the last full; every object is sent exactly once, in order, under its own offset |
| QueueModel.Queue.BulkAllSucceeded | src/queue.ts:50-75 | when the service accepts every entry, one success per object and no failure |
| QueueModel.Queue.BulkAccounted | src/queue.ts:50-75 | when every response accounts for its batch, successes plus failures equal the number of objects |
| QueueModel.Queue.BulkOneRejected | src/queue.ts:50-75 | when batch `j` is rejected and the rest succeed, the failures are exactly the objects of batch `j`, each with its offset as `Id`; every other object succeeds |
| QueueModel.Queue.BulkFortyOne | src/queue.ts:50-75 | 41 objects at concurrency 3: 5 batches in 2 windows of 3 and 2; 41 successes when all are accepted |
| QueueModel.Queue.Dequeue | src/queue.ts:77-99 | a rejected receive throws; no `Messages` gives no objects; otherwise it succeeds exactly when every body parses, returning the messages and one parsed value per message, in order |
| QueueModel.Queue.DeleteCalls | src/queue.ts:89-97 | `delete` issues one DeleteMessage per received message, in order, with the queue URL and that message's receipt handle; none when there are no messages |
| QueueModel.Queue.DeleteMatchesDequeue | src/queue.ts:84-97 | a dequeue's `delete` removes exactly the messages it returned: as many calls as parsed objects, with matching receipt handles |
| QueueModel.Queue.Drain | src/queue.ts:102-109 | definition of the run of yields the do-while loop produces over a receive script; properties in `DrainShape`, `DrainStopsAtFirstEmpty` and `DrainBacklog` |
| QueueModel.Queue.Next | src/queue.ts:102-109 | the do-while loop yields exactly the run `Drain` describes |
| QueueModel.Queue.DrainShape | src/queue.ts:102-109 | each yield is one successful dequeue, in order; all but the last have messages; the run ends Exhausted exactly when the last yield is empty; a throw comes from the outcome after the last yield |
| QueueModel.Queue.DrainStopsAtFirstEmpty | src/queue.ts:105-108 | with `j` non-empty results before the first empty one, the drain yields `j + 1` results, the last of them the empty one, and stops |
| QueueModel.DrainBacklog | src/queue.ts:102-109 | a backlog of `k` messages received `m` at a time drains in ceil(k / m) non-empty yields that hold the backlog in order, then one empty yield, then stops |

## Left out

- The SQS client and the network are not modelled. `SendMessageBatch` is a function
  parameter, and `ReceiveMessage` is a given sequence of outcomes.
- `enqueue` is modelled up to the parameters it builds (`EnqueueParams`). The SendMessage
  call itself and the `MessageId` it returns belong to the client.
- `Promise.allSettled` concurrency is not modelled. The outcomes arrive in batch order, which
  is the order `allSettled` reports them. Interleavings and timing are not modelled.
- The receive script does not depend on the `DequeueParams` sent with each call.
  Visibility timeouts and redelivery are the service's concern.
- `randomUUID` is a parameter. The identifier lemmas assume only that every `'_'` in the
  prefix is followed by a character other than `'_'` (so the prefix does not end in `'_'`),
  which holds for every UUID.
- `JSON.stringify` and `JSON.parse` are function parameters.
- JavaScript numbers are reals. Offsets are array indices, which stay far below `1e21`, where
  template literals would switch to exponent notation.
- Generators are run to completion. A consumer that stops early sees a prefix of the modelled
  yields. Laziness and interleaving with the consumer are not modelled.
- `batchSize` and `concurrency` are JavaScript numbers but are modelled as integers.
  Fractional values, `NaN` and infinities are not modelled. For example, with a `NaN`
  `concurrency` the test `batches.length >= concurrency` (src/queue.ts:58) never holds, so
  `bulkEnqueue` sends every batch in the final flush (src/queue.ts:69).
- Batching.GetBatch: requires `batchSize > 0` unless the array is empty. A zero or negative
  size makes `splice` remove nothing, so the source loops forever; `nat` excludes negative
  sizes.
- Batching.GetConcurrentBatch: requires positive `batchSize` and `concurrency` unless the input
  is empty. A zero step loops forever in the source, and so does a negative step (one size
  negative, the other positive), because `i` only decreases. Two negative sizes give a positive step:
  the source then terminates with one batch per group, because no batch length equals the
  negative `batchSize`; the model does not cover that case.
- Batching.GetEntries: requires a positive `batchSize` unless the input is empty. A zero or
  negative step never moves `i` past the end, so the source loops forever.
- `Code: item.reason` (src/utils.ts:53) stores the rejection value itself, in practice an
  `Error` object. The model keeps only its text: `Rejected` carries a string, and
  `ErrorEntry.code` is an optional string.
- The `delete` closure's DeleteMessage calls are fire-and-forget (`void Promise.allSettled`).
  Their outcomes and the `DeleteMessageCommandOutput` of `delete` are not modelled.
- A non-string `Id` or `MessageBody` is read as absent. getEntries always writes strings.
- `REGION`, `sleep`, `getAttributes`, `count`, `src/queue-manager.ts` and the stream adapters
  are not part of this model.
- The option types' `Omit<...>` restrictions are not modelled. Options are any JSON map.
