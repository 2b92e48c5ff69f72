# The asynchronous read machine of the File API for Boa

This project models how a File API embedding reads blobs off the JavaScript
thread, and proves what its scripts get to see. The parts are:

- the I/O bridge between the JavaScript thread and the workers: slots, operation
  ids, submission order, completions that arrive out of order, stale answers,
  shutdown (`Bridge`, and the mutable object `Io.IoBridge`);
- its three clients: promise reads (`Promises`), FileReader with its
  generations, packaging pump and re-entrant event handlers (`Readers` and the
  `Reader…` modules), demand-driven streams (`Streams` and the `Stream…`
  modules);
- the engine's queue of promise jobs, in which promises settle: which job
  settles what, in which order, and what shutdown leaves of it (`Jobs`,
  `JobOrder`, `Settlements`, and the runs in `Inputs`);
- the context that holds them together, with `poll_io` as a sequence of turns
  between which workers and the collector may act (`Context…`), and the objects
  that a host calls (`StreamObjects`, `ReaderObjects`, `HostObjects`);
- the bytes underneath: segmented blobs (`Blob`, `Workers`), the incremental
  UTF-8 decoder (`Utf8`), the structured-clone codec (`Clone`), the two-phase
  accounting of Blob parts and line endings (`Parts`), the MIME charset scanner
  (`Mime`) and the shutdown flag that threads race on (`Lifecycle`).

Each machine is a datatype with one function per critical section or job; its
laws are proved about these functions. The mutable classes carry out the same
steps on their fields, and each method's contract ties its fields to the
function, so that the laws hold of the objects. A context is *reached* when some
sequence of public calls, jobs, worker answers, collections and poll turns leads
to it from a fresh start (`Theorems.Reached`). A read is *owed* from the call that
hands out its promise until a reply or an outcome for it is queued as a job; it
*settles* when that job runs, or for a worker's error when the second job does
that the first one queues. Event handlers are arbitrary
finite scripts of public calls, to any depth. Clocks, executor refusals, worker
failures and packaging failures are parameters, so every theorem holds for all
of them.

## Model

| member | source | states |
|---|---|---|
| Bridge.ReserveOutcome | crates/boa_fapi/src/io.rs:948-990 | In every valid state a reservation succeeds exactly when the runtime is open, ids remain and a slot is free; the id handed out is the next one, a refusal changes at most the exhaustion mark, and the refusal for a full completion queue can never happen. |
| Bridge.QuotaHolds | crates/boa_fapi/src/io.rs:896-990 | After any sequence of critical sections the active counter equals the number of live tokens and does not exceed the limit. |
| Bridge.MintedIncreases | crates/boa_fapi/src/io.rs:948-990 | Over any run the ids handed out strictly increase, so none is used twice, not even once the 64-bit id space is exhausted. |
| Bridge.ReleaseTwiceIsOnce | crates/boa_fapi/src/io.rs:1023-1044 | Releasing an operation a second time reports that nothing was released and changes nothing, so no other operation loses its slot. |
| Bridge.PushWholeStored | crates/boa_fapi/src/io.rs:1210-1238 | The first completion of a live operation is always stored, every other one is dropped: the capacity guard never drops a live operation's answer. |
| Bridge.ReadyExactly | crates/boa_fapi/src/io.rs:1251-1317 | One drain hands out an operation if and only if it is in line, unmarked and completed, and every older unmarked operation in line is completed as well. |
| Bridge.FifoFromStart | crates/boa_fapi/src/io.rs:1210-1317 | From a fresh bridge, whatever order workers finish in, the ids handed out over the whole run strictly increase, and the next drain hands out exactly the completions that are ready, in id order, each as it was delivered. |
| Bridge.NothingLost | crates/boa_fapi/src/io.rs:1210-1317 | Over any run that neither releases its slot nor shuts down, a stored completion in line is handed out or still waits unchanged. |
| Bridge.UnreadReservationBlocks | crates/boa_fapi/src/io.rs:1246-1317 | A chunk operation that has reserved but not answered yet holds back every younger whole-blob completion; its first chunk lifts exactly that obstacle. |
| Bridge.UnreadReservationReached | crates/boa_fapi/src/io.rs:1246-1317 | Two reservations and one completion of the second lead to a state where the completed operation is not ready. |
| Io.IoBridge.Reserve | crates/boa_fapi/src/io.rs:948-990 | The bridge object's fields and answer after a reservation are those of the specification that the laws above are about. |
| Io.IoBridge.Unreserve | crates/boa_fapi/src/io.rs:1023-1044 | Releasing a slot clears the operation from every table and from the line and reports whether it was live. |
| Io.IoBridge.PushCompletion | crates/boa_fapi/src/io.rs:1210-1238 | The object stores or drops a completion exactly as the specification does. |
| Io.IoBridge.TakeCompletions | crates/boa_fapi/src/io.rs:1251-1317 | The loops of the drain return the specified completions in order and leave the specified tables. |
| Io.IoBridge.RequeueReaderCompletion | crates/boa_fapi/src/io.rs:1389-1404 | A completion over the poll budget goes back in front of its own queue. |
| Io.IoBridge.TakeReaderCompletions | crates/boa_fapi/src/io.rs:1364-1383 | Draining walks the line and returns each operation's reader completions together, oldest operation first. |
| Theorems.SlotsAreConserved | crates/boa_fapi/src/io.rs:948-1044 | In every reached running context the live tokens are the disjoint union of pending promise reads, pending FileReader operations and live streams, the active count is their number and within the limit, and the FileReader mirror counter equals its table. |
| Theorems.CallsSeeConsistency | crates/boa_fapi/src/filereader.rs:799-872 | The same conservation, and loading-means-owning, hold at every point at which a handler run by a public call can look, at any depth of `abort` within handlers. |
| Theorems.HandlersSeeConsistency | crates/boa_fapi/src/filereader.rs:1442-1678 | And at every point at which a handler of a FileReader job's event can look, before the job has gone on. |
| Theorems.LoadingOwns | crates/boa_fapi/src/filereader.rs:437-593 | In every reached running context a reader is loading if and only if it owns an operation, which is then its only one and of its current generation. |
| Theorems.OneWorkToken | crates/boa_fapi/src/filereader.rs:1725-1848 | Each live reader operation has exactly one of: a task with a worker, a queued completion, a drained completion, a pump job; so its queue never holds two entries. |
| ReaderTurns.RequeueKeeps | crates/boa_fapi/src/io.rs:1389-1404 | Putting a drained completion back under any poll budget keeps the whole FileReader invariant, and the operation's queue is then exactly that completion: nothing is lost or reordered. |
| Theorems.TracesUnbroken | crates/boa_fapi/src/filereader.rs:1442-1678 | In every reached context, whatever handlers did, no generation's event trace has taken a forbidden turn. |
| Outcomes.StartComesFirst | crates/boa_fapi/src/filereader.rs:1010-1220 | A generation's first event is `loadstart`, `error` or `abort`, and `loadstart` and `abort` are never anything but the first. |
| Outcomes.OneTerminalEvent | crates/boa_fapi/src/filereader.rs:1494-1678 | After `load`, `error` or `abort` a generation has at most one more event, its `loadend` on the same reader with the same numbers. |
| Outcomes.LoadendComesLast | crates/boa_fapi/src/filereader.rs:1616-1678 | `loadend` comes only after the terminal event of its generation. |
| Outcomes.LoadComesAfterFinalProgress | crates/boa_fapi/src/filereader.rs:1233-1366 | `load` reports all bytes and comes after a `progress` event with that same total. |
| Outcomes.ProgressRises | crates/boa_fapi/src/filereader.rs:1130-1220 | Progress of a generation strictly rises and stays below the total until the last event; neighbours before the last are 50 ms apart, unless the clock read the value that stands for never. |
| Theorems.PublishedIsWhole | crates/boa_fapi/src/filereader.rs:1233-1366 | Every published result holds exactly the content of the blob its generation asked for, no generation publishes twice, and exactly one `progress` with the full total lies before the publication and there is no other. |
| Theorems.ReplacedIsSilent | crates/boa_fapi/src/filereader.rs:897-906 | Once no reader has a generation any more, nothing is ever added to its events, whatever runs afterwards. |
| Theorems.ShutdownIsFinal | crates/boa_fapi/src/lifecycle.rs:144-154 | After shutdown no run ever fires an event, publishes a result, replies to an owed promise read or queues an outcome for an owed stream read. |
| Theorems.RepliesInOrder | crates/boa_fapi/src/promise_read.rs:229-341 | In every reached running context owed promise reads have got their replies, as queued jobs, in submission order, each once, with the exact bytes of the blob or an error. |
| Settlements.SettlementOrder | crates/boa_fapi/src/promise_read.rs:229-395 | Of the replies that wait in the queue, brought by however many polls, first those that are no worker errors settle and then the worker errors, both in submission order: at every later point of every run what has settled of them is a prefix of that, and all of it once all have settled. |
| Settlements.SettlementInOrderExactly | crates/boa_fapi/src/promise_read.rs:229-395 | Once all of them have settled, that was submission order if and only if no waiting worker error was followed by a waiting reply that is none. |
| JobOrder.InOrderExactly | crates/boa_fapi/src/promise_read.rs:319-395 | Moving the worker errors of a stretch of replies behind the others keeps submission order if and only if none of them is followed by one of the others. |
| Inputs.LaterReadSettlesFirst | crates/boa_fapi/src/promise_read.rs:319-395 | Two promise reads of which the first one's source fails, drained by one poll: the second settles first. |
| Settlements.SettlesOnce | crates/boa_fapi/src/promise_read.rs:229-341 | In every reached context no promise, of a promise read, a stream read or a call answered at once, has two jobs that settle it, run or waiting. |
| Settlements.SettledTruthfully | crates/boa_fapi/src/promise_read.rs:229-341 | Every owed promise read that has settled got the exact bytes of its blob or an error, even after shutdown. |
| Settlements.StreamSettlesInOrder | crates/boa_fapi/src/streams.rs:1987-2363 | In every reached context the stream outcomes that have settled are a prefix of those queued, and for each stream they are those of its first reads, in the order of the `read()` calls. |
| Settlements.SettlesAfterShutdown | crates/boa_fapi/src/lifecycle.rs:144-154 | From a shut-down context on, over every run, a promise settles or waits to settle if and only if a job about it was queued by then or its call came afterwards; once the queue is empty it has settled if and only if so. |
| Inputs.SettledAfterShutdown | crates/boa_fapi/src/lifecycle.rs:144-154 | Two polled promise reads, a shutdown, then the jobs: both promises settle after the shutdown. |
| Settlements.OwedNeverSettles | crates/boa_fapi/src/streams.rs:1695-1710 | A promise read or stream read that is still owed at shutdown never gets a job and never settles, whatever runs afterwards. |
| Inputs.ReadLeftPending | crates/boa_fapi/src/streams.rs:1695-1710 | A `read()` that waits for a worker when the runtime shuts down stays pending over every run. |
| Settlements.JobsRunDry | crates/boa_fapi/src/promise_read.rs:319-395 | From any idle context finitely many jobs empty the queue, second jobs included, and change nothing else. |
| Settlements.DrainsSeeNoShutdown | crates/boa_fapi/src/extension.rs:1661-1768 | In no reached context is the runtime shut down while a drained completion is in hand: the branches of the three loops for that case are dead. |
| Theorems.PromiseOwed | crates/boa_fapi/src/promise_read.rs:81-158 | A promise read that is still owed holds its slot and exactly one of a worker task, a queued completion and a drained completion. |
| Promises.ReadPromiseOutcome | crates/boa_fapi/src/promise_read.rs:81-158 | A promise read becomes owed exactly when the blob fits, a slot is granted and the executor takes the task; otherwise it is rejected at once for the reason given and holds no slot. |
| StreamResults.DeliveredBytes | crates/boa_fapi/src/streams.rs:1987-2171 | In bytes mode the values delivered, in read order, join to exactly the loaded prefix of the blob; all but the last are full chunks and none is empty. |
| StreamResults.DeliveredText | crates/boa_fapi/src/streams.rs:1987-2282 | In text mode no value is empty, and they join to the decoding of the loaded prefix without its unfinished tail, and at the end of the blob to the chunk-independent decoding of all of it. |
| StreamResults.ReadsSettleInOrder | crates/boa_fapi/src/streams.rs:1332-1446 | Settled reads are the first ones that were asked for, in order and each once; of a stream that ended all are settled, of a live one the rest is its queue. |
| StreamResults.OneRequest | crates/boa_fapi/src/streams.rs:2464-2529 | A live stream has one request or answer under way exactly while a read is owed, its queue strictly increases and equals the keys of the pending-reads table. |
| StreamResults.DataAdvances | crates/boa_fapi/src/streams.rs:1987-2171 | A data answer to a live stream is a full chunk, or the rest if that is less, of the blob right behind its cursor, and never empty. |
| StreamRuns.DataAnswersAreFew | crates/boa_fapi/src/streams.rs:1987-2171 | Over any run from a reached context the data answers settled for one stream number at most the blob's length divided by the chunk size, rounded up. |
| StreamRuns.ReachedAnswersAreFew | crates/boa_fapi/src/streams.rs:1987-2171 | The same bound over every whole run from a fresh start. |
| StreamResults.ClosedForGood | crates/boa_fapi/src/streams.rs:2182-2363 | Once one read was closed every later one closes the same way, and after the end of the blob that is `done`. |
| StreamCalls.ReadAnswers | crates/boa_fapi/src/streams.rs:1332-1446 | `read()` on a live stream owes a new promise; on an ended one it answers at once with its stored error or `done` and touches nothing. |
| StreamCalls.SweepLeavesNoLeak | crates/boa_fapi/src/streams.rs:1737-1879 | A cleanup sweep ends a live stream if and only if nothing can reach it: no stream object, no unsignalled reader object, no unsettled read. |
| StreamCalls.OldFinalizerIsHarmless | crates/boa_fapi/src/streams.rs:658-726 | Finalizing a reader object that has a successor on the same stream changes no stream and not the successor. |
| Outcomes.StreamBytes | crates/boa_fapi/src/streams.rs:1987-2171 | The byte delivery law, in every reached running context. |
| Outcomes.StreamText | crates/boa_fapi/src/streams.rs:1987-2282 | The text delivery law, in every reached running context. |
| Outcomes.StreamReadsInOrder | crates/boa_fapi/src/streams.rs:1332-1446 | The order of settled reads, in every reached running context. |
| Outcomes.StreamOneRequest | crates/boa_fapi/src/streams.rs:2464-2529 | The single request and the matching tables, in every reached running context. |
| Theorems.PollLeavesNoLeak | crates/boa_fapi/src/extension.rs:1657-1741 | The sweep at the end of the stream loop of `poll_io`, over all live streams, leaves exactly those that are still reachable. |
| Theorems.DeadBranchAfterShutdown | crates/boa_fapi/src/streams.rs:1375-1384 | In no reached context does `read()` take the branch for a runtime that was shut down; a call after shutdown is refused or answered in a job. |
| HostObjects.FileApiHandle.PollIo | crates/boa_fapi/src/extension.rs:1613-1768 | One `poll_io` on the objects is a sequence of the machine's turns that starts with a poll, ends idle in a reached context and leaves no live stream that nothing can reach; it returns the count of its three loops, of which the readers' part is within the budget. |
| HostObjects.FileApiHandle.RunPromiseJob | crates/boa_fapi/src/promise_read.rs:319-395 | Running the oldest promise job on the objects is exactly one step of the machine, and it is the next of the jobs that have run. |
| HostObjects.FileApiHandle.Call | crates/boa_fapi/src/streams.rs:872-1223 | Any public call, worker answer or collection on the objects, handlers included, is exactly one step of the machine, so the object stays in a reached context. |
| HostObjects.FileApiHandle.RunJob | crates/boa_fapi/src/filereader.rs:881-894 | One FileReader job on the objects, with its event's handlers run in the middle of it, is exactly one step of the machine. |
| StreamObjects.StreamRuntime.ReaderRead | crates/boa_fapi/src/streams.rs:1332-1446 | The tables and the answer after `read()` on the stream objects are those of the machine. |
| StreamObjects.StreamRuntime.CancelShared | crates/boa_fapi/src/streams.rs:1233-1323 | Cancelling a live stream on the objects closes its cell, settles its queue and returns its slot as the machine does. |
| StreamObjects.StreamRuntime.SettleCompletion | crates/boa_fapi/src/streams.rs:1891-1977 | Settling a drained completion on the objects is the machine's settlement, stale answers included, and the method says whether it counts: whether it found its live stream and its oldest demand. |
| StreamObjects.StreamRuntime.DrainCleanups | crates/boa_fapi/src/streams.rs:1737-1768 | The two loops of a sweep on the objects are the machine's sweep. |
| ReaderObjects.ReaderRuntime.StartRead | crates/boa_fapi/src/filereader.rs:437-593 | Starting a read on the objects, with every way it can fail, is the machine's start. |
| ReaderObjects.ReaderRuntime.Abort | crates/boa_fapi/src/filereader.rs:799-872 | `abort()` on the objects up to its first event is the machine's. |
| ReaderObjects.ReaderRuntime.RunPump | crates/boa_fapi/src/filereader.rs:1010-1220 | A pump job on the objects up to its first event is the machine's. |
| ReaderObjects.ReaderRuntime.SettleCompletion | crates/boa_fapi/src/filereader.rs:1804-1848 | A drained reader completion becomes at most one pump job, and the method says whether it did. |
| Utf8.ChunkIndependence | crates/boa_fapi/src/streams.rs:741-795 | However bytes are cut into chunks, the text emitted is the replacement decoding of the bytes without their incomplete tail, the tail of at most three bytes is what is kept, and flushing adds one U+FFFD per kept byte. |
| Utf8.LossyInvertsEncode | crates/boa_fapi/src/streams.rs:741-753 | The replacement decoding of well-formed UTF-8 is the text that it encodes, for every sequence of Unicode scalar values. |
| Utf8.DecodeChunks | crates/boa_fapi/src/streams.rs:741-795 | A decoder object fed any chunks and flushed returns the chunk-independent decoding of their concatenation. |
| Utf8.DecodedIsLossyWhen | crates/boa_fapi/src/streams.rs:728-761 | The flushed decoding equals the replacement decoding of the whole input if and only if at most one byte is left over or the second left-over byte could not follow its lead. |
| Utf8.TruncatedSequenceDiffers | crates/boa_fapi/src/streams.rs:728-761 | The bytes E2 82 decode to two U+FFFD, while their replacement decoding is one. |
| Blob.FromSegments | crates/boa_fapi_core/src/blob.rs:89-138 | A blob is built exactly when every segment lies in its source and the non-empty ones are within count and size; it then has exactly the bytes asked for, and each refusal names its reason. |
| Blob.ConcatShared | crates/boa_fapi_core/src/blob.rs:177-210 | Concatenation succeeds exactly within the limits and joins segments and content. |
| Blob.Slice | crates/boa_fapi_core/src/blob.rs:332-433 | For all 64-bit arguments a slice is a valid blob with no more segments whose content is the clamped range; it is refused only if the original itself exceeds the limits. |
| Blob.NegativeCountsFromEnd | crates/boa_fapi_core/src/blob.rs:332-360 | A negative start counts from the end and is cut off at the beginning; missing arguments mean the whole blob. |
| Blob.SlicesCompose | crates/boa_fapi_core/src/blob.rs:332-433 | A slice of a slice is one slice of the original, for all four arguments. |
| Blob.SliceOfConcat | crates/boa_fapi_core/src/blob.rs:177-433 | A slice of a concatenation is the concatenation of the two slices at the same places. |
| Blob.Materialize | crates/boa_fapi_core/src/blob.rs:252-296 | A whole read returns the content exactly when no source fails and no cancel is seen, else the first failure in segment order and no bytes. |
| Blob.ReadBlobRange | crates/boa_fapi/src/io.rs:760-812 | A range read returns exactly the range of the content, asks only segments that meet it, and reports the first failure otherwise. |
| Blob.BlobReader.ReadNext | crates/boa_fapi_core/src/blob.rs:501-574 | The k-th call returns the k-th chunk of the content, asking exactly the segments that meet it, and then nothing for ever; a failure reports the first source that failed, asks none behind it, gives no bytes and is replayed without asking again. |
| Blob.ReadTwice | crates/boa_fapi_core/src/blob.rs:461-574 | After a failed `read_next` the next call fails without asking any source, with the same failure if and only if it was a resource limit, a cancellation or a range error, and else with a range error. |
| Blob.DenialIsForgotten | crates/boa_fapi_core/src/blob.rs:461-574 | A reader over one byte whose source denies access reports the denial first and a range error from then on. |
| Workers.ExecuteChunk | crates/boa_fapi/src/io.rs:537-575 | A worker's chunk answer on segments is the machine's answer on the flat content, and it fails exactly when stopped or when a source it needs fails. |
| Workers.ExecuteWhole | crates/boa_fapi/src/io.rs:263-338 | A worker's whole-blob answer is the flat content or an error, and exactly when. |
| Workers.ReadersAgree | crates/boa_fapi/src/io.rs:537-738 | A whole read, the chunk answers at multiples of the chunk size and the reader's chunks agree on every byte. |
| Clone.DecodeExactly | crates/boa_fapi_core/src/clone.rs:199-509 | An input decodes to a payload if and only if the payload is encodable and its encoding is that input: encoding and decoding are inverse bijections. |
| Clone.PrefixFree | crates/boa_fapi_core/src/clone.rs:440-494 | No accepted input is a strict prefix of another. |
| Clone.TruncationIsMalformed | crates/boa_fapi_core/src/clone.rs:392-446 | Cutting an accepted input anywhere yields a malformed one, never another error or value. |
| Clone.OtherVersionsRefused | crates/boa_fapi_core/src/clone.rs:449-494 | Any other version number is refused as such, whatever follows it. |
| Clone.FilesNeedRoom | crates/boa_fapi_core/src/clone.rs:476-489 | Every encoded file takes at least 20 bytes, so the bound on the file count never rejects a real encoding. |
| Clone.Encode | crates/boa_fapi_core/src/clone.rs:199-227 | Encoding yields the wire form exactly for payloads within every ceiling, and no bytes otherwise. |
| Clone.Decode | crates/boa_fapi_core/src/clone.rs:449-509 | The cursor's steps compute the parse that the bijection is proved about, for every input and every error. |
| Clone.ValidatePayload | crates/boa_fapi_core/src/clone.rs:236-266 | Validation accepts exactly the payloads whose parts fit and whose encoding is within the ceiling, with four bytes too many allowed to a FileList. |
| Clone.ValidateThenEncode | crates/boa_fapi_core/src/clone.rs:199-266 | Validating and then encoding a payload: it passes and cannot be encoded if and only if it is a FileList with every part in bounds whose fields take one to four bytes more than the ceiling; it is encoded, into as many bytes as its fields take, if and only if parts and size are within bounds, and then it passes. |
| Clone.TooLongByFour | crates/boa_fapi_core/src/clone.rs:199-266 | A list of one file four bytes too long passes the validation and cannot be encoded. |
| Mime.MimeCharset | crates/boa_fapi/src/package.rs:205-338 | The scanner's index loops stay in bounds and terminate on every string and compute the recursive reading that the round trip is about. |
| Mime.CharsetRoundTrip | crates/boa_fapi/src/package.rs:205-338 | For every well-formed type and any list of parameters, however quoted, escaped or spaced, the charset read is the value of the first valid parameter named charset in any case, or none. |
| Parts.ConvertLineEndings | crates/boa_fapi_core/src/endings.rs:16-44 | The loop with one character of lookahead turns each of CR LF, CR and LF into the target and keeps every other character. |
| Parts.ConvertedJoinsLines | crates/boa_fapi_core/src/endings.rs:16-44 | Conversion is cutting the text into lines and joining them with the target. |
| Parts.ConvertedTwice | crates/boa_fapi_core/src/endings.rs:16-44 | Conversion keeps the lines, so converting twice equals converting once to the last target. |
| Parts.LineEndingByteLen | crates/boa_fapi/src/webidl.rs:451-475 | The counted length is the UTF-8 length of the converted text, for every text and target, or an error when it exceeds 64 bits. |
| Parts.AccountParts | crates/boa_fapi/src/webidl.rs:354-446 | The first phase accepts exactly the part lists whose lower bounds fit. |
| Parts.FirstPhaseAdmits | crates/boa_fapi/src/webidl.rs:423-504 | The cheap first phase never rejects parts that the exact second phase accepts. |
| Parts.PartsCollector.ProcessConverted | crates/boa_fapi/src/webidl.rs:483-504 | The second phase accepts exactly when count, segments and bytes fit, and the blob is then the parts' bytes in order. |
| Parts.PartsCollector.IntoBlobData | crates/boa_fapi/src/webidl.rs:279-283 | After an accepted second phase the last step cannot fail and keeps every segment. |
| Blob.OpenReader | crates/boa_fapi_core/src/blob.rs:303-321 | A reader is opened exactly for a chunk size in range and starts at the first byte. |
| Clone.Utf8Exactly | crates/boa_fapi_core/src/clone.rs:430-438 | The string check accepts every encoded sequence of scalar values, and the decoder of the whole recovers it. |
| Lifecycle.ShutdownFlag.Track | crates/boa_fapi/src/lifecycle.rs:90-107 | Run alone, tracking keeps the closer for a later close, or fires it at once if the flag is closed. |
| Lifecycle.ShutdownFlag.Close | crates/boa_fapi/src/lifecycle.rs:111-125 | Run alone, a close fires every kept closer once, in order, and keeps none. |
| Lifecycle.AtMostOnce | crates/boa_fapi/src/lifecycle.rs:90-125 | In every interleaving of concurrent track and close calls a closer fires at most once, only after a close and only if it was tracked. |
| Lifecycle.ExactlyOnce | crates/boa_fapi/src/lifecycle.rs:90-125 | When all calls have returned and one was a close, each tracked closer has fired exactly once. |
| Lifecycle.SomeCallMoves | crates/boa_fapi/src/lifecycle.rs:90-125 | While a call has not returned some call can move, so the lock never deadlocks. |

## Findings

Where a comment of the code promises more than the code does, the model follows
the code; these lemmas give the input and the exact condition.

| where | as written | input | intended | confidence |
|---|---|---|---|---|
| crates/boa_fapi/src/streams.rs:732-761 | flushing emits one U+FFFD per left-over byte | the bytes E2 82: `Utf8.TruncatedSequenceDiffers` | the comment: the same as the replacement decoding of the whole input; it is so if and only if at most one byte is left over or the second left-over byte could not follow its lead: `Utf8.DecodedIsLossyWhen` | proved |
| crates/boa_fapi/src/io.rs:1246-1317 | a chunk operation that has not answered yet holds back younger whole-blob completions | create a stream, start a promise read, let its worker finish: `Bridge.UnreadReservationReached` | the comment: chunk operations never block; a completed operation is handed out if and only if every older operation in line without a chunk answer is completed: `Bridge.ReadyExactly`, `Bridge.UnreadReservationBlocks` | proved |
| crates/boa_fapi/src/promise_read.rs:229-395 | the job of a worker's error only queues a second job, which rejects; every other reply settles in its one job | two promise reads, the first one's source fails, one poll drains both: `Inputs.LaterReadSettlesFirst` | the comments there and in crates/boa_fapi/src/io.rs:842-853: one job for each completion, and owed reads settle in submission order; they do if and only if no waiting worker error is followed by a waiting reply that is none: `Settlements.SettlementInOrderExactly` | proved |
| crates/boa_fapi/src/lifecycle.rs:133-154 | shutdown takes no job out of the engine's queue, the jobs do not look at the flag, and calls made later are answered in jobs | a poll, then shutdown, then the jobs: `Inputs.SettledAfterShutdown` | the comments, also at lines 3-21: after shutdown nothing settles; a promise does if and only if its job was queued by then or its call came later: `Settlements.SettlesAfterShutdown` (events and results are final: `Theorems.ShutdownIsFinal`) | proved |
| crates/boa_fapi/src/streams.rs:1375-1384 | the branch for reads after shutdown is dead, since shutdown has emptied the table it needs; the call is answered in a job | any unreleased reader after shutdown: `Theorems.DeadBranchAfterShutdown` | the comment: a `read()` made after shutdown never settles; it does, and exactly the reads that were owed before never settle: `Inputs.ReadLeftPending`, `Settlements.OwedNeverSettles` | proved |
| crates/boa_fapi_core/src/blob.rs:461-492 | every other class of failure is replayed as a range error | a source that answers "permission denied", read twice: `Blob.DenialIsForgotten` | the comment: the class is replayed; it is if and only if it was a resource limit, a cancellation or a range error: `Blob.ReadTwice` | proved |
| crates/boa_fapi_core/src/clone.rs:229-266 | the validation charges a FileList 12 of its 16 header bytes, and the last pushes then refuse it | a list of one file of 32 bytes less than the ceiling: `Clone.TooLongByFour` | the comment: accepted values always decode; an accepted value can be encoded if and only if its fields take no more than the ceiling: `Clone.ValidateThenEncode` | proved |

## Left out

- Text-flavour FileReader results and the legacy decoders behind them, blob URLs, the file system, snapshots and file identity, telemetry, media types, Web IDL number conversion.
- Boa's engine: prototypes, brand checks, realms, collection itself (a collected object is a step that may happen at any time), listener bookkeeping and exceptions thrown by listeners.
- Threads: a worker is a step that may answer any outstanding task at any time, truthfully or with an error; cancellation tokens are folded into the error. Mutex poisoning, allocation failure and borrow conflicts do not occur.
- Blob.BlobReader.ReadNext: drops the kind carried by a resource-limit error, as all readers do here; only that it is one is kept.
- Shared stream cells and reader natives are entries of tables keyed by operation or object number, not objects, so aliasing between Rust references is not captured; operation numbers are never reused, which is what the pointer comparison in the code relies on.
- Theorems.ReplacedIsSilent: generations are unbounded numbers; the code's counter wraps after 2^64 starts.
- Theorems.ShutdownIsFinal: the shutdown of bridge, readers and streams is one step, since one call makes it and no script runs in between.
- Promise reactions and thenables: what a script does when a promise settles is a public call between two jobs. FileReading jobs have a queue of their own, and the order in which the engine alternates between the two queues is arbitrary.
- Settlements.SettlementOrder: says nothing about a read that is refused at once; its own job may settle it before older reads that are still owed.
- Outcomes.ProgressRises: the spacing does not hold right after a progress event at a clock reading of the smallest 64-bit integer, which the code uses to mean that there was none.
- Lifecycle.AtMostOnce: interleavings are sequentially consistent; weaker memory orders are not modelled.
- Parts.AccountParts: the bytes copied from a buffer are assumed to be as many as were counted.
- Mime.CharsetRoundTrip: unterminated quoted strings are covered by the scanner's contract, not by the round trip; form feed counts as white space, as in crates/boa_fapi/src/package.rs:144-149.
- The preflight of a data URL's length, packaging failures, executor refusals and worker failures are parameters of the steps.
