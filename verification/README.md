# pako-tts job lifecycle, in Dafny

This project models the core of pako-tts, a text-to-speech HTTP server
written in Go. A client submits text. The server keeps a job record for it
in an in-memory registry and hands the job to a bounded FIFO buffer. A
worker takes the job from the buffer, asks the ElevenLabs provider for
audio, writes the audio into a file store, and marks the job completed or
failed. The client polls the job's status and downloads the result until
it expires; a periodic sweep deletes old files. A separate synchronous
endpoint synthesises short texts directly.

Everything is modelled sequentially, as immutable values and pure
functions:

- `Jobs`: the job record and its setters.
- `JobQueue`: the registry (`map<string, Job>`) with its pending buffer
  (`seq<Job>`, capacity `bufferSize`, a `closed` flag).
- `AudioStore`: the storage directory, as a map from file name to entry.
- `Worker`: one job's processing pipeline, and a worker's run loop.
- `Handlers`: the decision each HTTP handler makes.
- `ElevenLabs`: the provider adapter. The HTTP client is a function
  parameter.
- `VoiceCatalog`: the built-in voice table.
- `Voice`: voice settings and their merge.
- `ApiErrors`: the API error values.
- `Text`: the UTF-8 byte length that Go's `len` gives on a string.
- `EndToEnd`: properties that span several components.

The modelling choices:

- Time is an integer number of milliseconds; an hour is 3 600 000 ms.
- The clock, job IDs and provider answers are parameters. So are the
  operating-system failures of writing a file, listing the storage
  directory, and inspecting or removing an entry (in the sweep and in
  `Delete`).
- A Go `select` between a channel operation and the caller's context is a
  `Wakeup` parameter naming the case that fired. A call that would block
  is excluded by its precondition.
- Progress is an integer, because only the checkpoint literals 0, 10, 30,
  70, 90 and 100 are ever assigned.
- Records have value semantics. `UpdateJob` replaces the whole record in
  place of sharing a pointer.
- A synthesis failure leaves progress at 30%, because `processJob` asks the
  provider after the 30% checkpoint and before the 70% one
  (Worker.SynthesisFailure).

## Model

| member | source | states |
|---|---|---|
| Text.Utf8Len | internal/api/handlers/tts.go:68-72 | The length Go's `len` reports for a string is its UTF-8 byte count: between one and four bytes per character, zero only for the empty string |
| Text.AsciiByteLength | internal/queue/memory/worker.go:105 | A text's byte length equals its character count exactly when every character is ASCII |
| Voice.DefaultVoiceSettings | internal/domain/voice.go:23-37 | All five settings are present, with stability 0.0, similarity 1.0, style 0.0, speed 1.0 and speaker boost true |
| Voice.Merge | internal/domain/voice.go:40-79 | An absent `other` returns the receiver itself. Otherwise each field comes from `other` when present, else from the receiver, else stays absent when the receiver is absent |
| Voice.MergeFullyPopulated | internal/domain/voice.go:45-79 | Merging a fully populated `other` into anything yields `other` |
| Voice.MergeIntoNil | internal/domain/voice.go:45-79 | Merging into an absent receiver yields exactly `other`, absent fields staying absent |
| Voice.MergeSelf | internal/domain/voice.go:40-79 | Merging settings with themselves changes nothing |
| Voice.MergeAssociative | internal/domain/voice.go:40-79 | Merging is associative, so successive layers of overrides compose |
| Voice.MergeOntoDefaults | internal/domain/voice.go:23-79 | Any settings merged onto the defaults are fully populated |
| ApiErrors.ErrorText | internal/domain/errors.go:17-19 | The error text is the code, then ": ", then the message |
| ApiErrors.CodeOfErrorText | internal/domain/errors.go:17-19 | The code can be read back from the error text when it contains no colon |
| ApiErrors.WithDetails | internal/domain/errors.go:22-29 | The copy keeps the status, code and message and carries the new details; the original value is untouched |
| ApiErrors.WithMessage | internal/domain/errors.go:32-39 | The copy keeps the status, code and details and carries the new message; the original value is untouched |
| ApiErrors.CopyHelpersAlgebra | internal/domain/errors.go:22-39 | The two copy helpers commute, re-applying a value's own field is the identity, and the last write wins |
| ApiErrors.Standard | internal/domain/errors.go:42-105 | Each standard error has a 4xx/5xx status, a non-empty code, a non-empty message and no details |
| ApiErrors.StandardCodesIdentify | internal/domain/errors.go:42-105 | A standard error is recovered from its code |
| ApiErrors.StandardCodesDistinct | internal/domain/errors.go:42-105 | No two standard errors share a code |
| ApiErrors.GatingStatuses | internal/domain/errors.go:43-62 | JOB_NOT_FOUND is 404, RESULT_EXPIRED is 410 and JOB_NOT_COMPLETE is 425 |
| ApiErrors.NewErrorResponse | internal/domain/errors.go:113-115 | The envelope wraps the identical error value |
| Jobs.StatusNameRoundTrip | internal/domain/job.go:12-17 | Each status's wire name identifies it |
| Jobs.NewJob | internal/domain/job.go:39-51 | A new job is queued at progress 0, has no start, completion, estimate or expiry, has no error or result, and carries the request fields unchanged |
| Jobs.SetProcessing | internal/domain/job.go:54-58 | Status becomes processing and the start time is now; every other field is unchanged |
| Jobs.SetCompleted | internal/domain/job.go:61-69 | Status completed, completion now, the result path, progress 100, and expiry exactly `retentionHours` × 3600 × 1000 ms after now; the rest unchanged |
| Jobs.SetFailed | internal/domain/job.go:72-77 | Status failed, completion now and the message; progress, result path, estimate and expiry untouched |
| Jobs.UpdateProgress | internal/domain/job.go:80-83 | Only the progress and the estimate change, and the estimate may become absent |
| Jobs.IsExpired | internal/domain/job.go:86-91 | A job without an expiry is never expired; one with an expiry is expired exactly when the instant is strictly after it |
| Jobs.IsComplete | internal/domain/job.go:94-96 | Complete exactly when the status is terminal (completed or failed) |
| Jobs.ExpiryWindow | internal/domain/job.go:61-91 | A result completed at `t` is expired exactly at the instants strictly after `t` plus the retention |
| Jobs.NeverExpiresWithoutCompletion | internal/domain/job.go:72-91 | A job with no expiry, failed or not, never expires |
| Jobs.TerminalSettersComplete | internal/domain/job.go:54-96 | Both terminal setters make a job complete, whatever its prior state; marking processing makes it incomplete |
| JobQueue.NewQueue | internal/queue/memory/queue.go:20-25 | A new queue is empty, open, valid and has the requested capacity |
| JobQueue.Enqueue | internal/queue/memory/queue.go:28-43 | A closed queue answers Canceled and changes nothing. Otherwise the job is registered under its ID first, then either appended to the buffer or, when the context fires, left registered but unbuffered with the context's error |
| JobQueue.Dequeue | internal/queue/memory/queue.go:46-56 | Hands out the oldest buffered job; a closed, empty buffer reports drained; a fired context reports its error; the registry is untouched |
| JobQueue.GetJob | internal/queue/memory/queue.go:59-68 | Succeeds exactly for a registered ID, returning its record; otherwise JOB_NOT_FOUND |
| JobQueue.UpdateJob | internal/queue/memory/queue.go:71-80 | Succeeds exactly for a registered ID and then replaces only that record; it never inserts |
| JobQueue.ListJobs | internal/queue/memory/queue.go:83-94 | Returns each registered job whose status matches, once, and nothing else |
| JobQueue.DeleteJob | internal/queue/memory/queue.go:97-103 | Removes exactly that ID; other records and the buffer are unchanged |
| JobQueue.Close | internal/queue/memory/queue.go:106-115 | Marks the queue closed and keeps the registry and buffer |
| JobQueue.Stats | internal/queue/memory/queue.go:118-137 | The total is the registry size, each count is the number of jobs in that status, and the four counts sum to the total |
| JobQueue.TallyAll | internal/queue/memory/queue.go:122-135 | One pass over the registry counts every job once under its status |
| JobQueue.ClosedRejectsEnqueue | internal/queue/memory/queue.go:29-33 | Closing twice is closing once, and a closed queue refuses every enqueue without change |
| JobQueue.EnqueueThenGet | internal/queue/memory/queue.go:34-39 | A successfully enqueued job is returned by GetJob |
| JobQueue.CancelledWhileFull | internal/queue/memory/queue.go:34-42 | A cancelled enqueue on a full buffer returns the error, yet the job stays registered as queued and is not buffered |
| JobQueue.NoOvertaking | internal/queue/memory/queue.go:36-56 | The first dispatch after an enqueue hands out the oldest job already waiting, and the newcomer only when none was |
| JobQueue.DeleteThenGet | internal/queue/memory/queue.go:97-103 | After deletion the ID is not found, and deleting again changes nothing |
| JobQueue.DrainClosed | internal/queue/memory/queue.go:46-56 | A closed queue still yields all its buffered jobs in order, and only then reports drained |
| AudioStore.FileName | internal/storage/filesystem/storage.go:41 | The entry name is the job ID, a dot, and the format |
| AudioStore.FileNameInjective | internal/storage/filesystem/storage.go:41 | Different (ID, format) pairs name different entries when formats have no dot |
| AudioStore.Store | internal/storage/filesystem/storage.go:37-55 | Succeeds exactly when the write is allowed and the name is not a directory; then it writes (or overwrites) that one entry with the write time and returns the joined path |
| AudioStore.Retrieve | internal/storage/filesystem/storage.go:58-78 | Opens the mp3 entry, else the wav entry, with the matching content type; fails when neither exists, whatever other entries exist |
| AudioStore.Delete | internal/storage/filesystem/storage.go:81-93 | Touches only the job's mp3 and wav entries. Each of them goes exactly when it is removable (a file or an empty directory) and its removal does not fail; a failure is ignored |
| AudioStore.Exists | internal/storage/filesystem/storage.go:96-109 | Holds exactly when Retrieve would succeed |
| AudioStore.GetPath | internal/storage/filesystem/storage.go:112-121 | The mp3 path, else the wav path, else the empty string exactly when nothing exists |
| AudioStore.StoreThenRetrieve | internal/storage/filesystem/storage.go:37-78 | Retrieve after Store gives back the same bytes with the format's content type, unless an mp3 entry shadows a wav one |
| AudioStore.Mp3Wins | internal/storage/filesystem/storage.go:63-74 | When an mp3 entry exists it is served, whatever else exists; with neither an mp3 nor a wav entry the job has no result and an empty path |
| AudioStore.DeleteThenExists | internal/storage/filesystem/storage.go:81-109 | When both names are removable and neither removal fails, the job has no audio afterwards; deleting again changes nothing |
| AudioStore.CleanupExpired | internal/storage/filesystem/storage.go:124-166 | An unreadable directory fails the sweep. Otherwise exactly the removable files modified strictly before the cutoff are removed, whatever their names, and their number is returned |
| AudioStore.FreshEntriesSurvive | internal/storage/filesystem/storage.go:137-146 | Directories, and files modified at or after the cutoff, survive a sweep |
| Worker.EstimateDuration | internal/queue/memory/worker.go:172-178 | At least two seconds for any text |
| Worker.EstimateMonotone | internal/queue/memory/worker.go:172-178 | The estimate is monotone in the length, 2000 ms for an empty text, and each 1000 bytes add 5000 ms |
| Worker.RequestOf | internal/queue/memory/worker.go:111-116 | The synthesis request carries the job's text, voice, format and settings |
| Worker.Running | internal/queue/memory/worker.go:97-146 | The running records are processing and keep the request. Their progress is the start value, 10, 30, then 70 and 90 when reached. The estimate is attached at 10, 30 and 70 and cleared at 90 |
| Worker.Checkpoints | internal/queue/memory/worker.go:97-162 | The persisted trace is the running records closed by one terminal record, completed at the finishing instant; the first external call is to the provider |
| Worker.ProcessJob | internal/queue/memory/worker.go:93-168 | A deleted job is dropped with no call made. Otherwise the trace starts processing and ends terminal, keeps the request, and the registry ends holding its last record with nothing else changed |
| Worker.EstimateAttached | internal/queue/memory/worker.go:104-146 | The estimate is the estimating instant plus 2000 ms plus 5 ms per byte of text. It is shown at 10%, 30% and 70% and cleared at 90% |
| Worker.ProgressMonotone | internal/queue/memory/worker.go:97-162 | Persisted progress never decreases |
| Worker.SynthesisFailure | internal/queue/memory/worker.go:122-129 | A provider error fails the job at 30% with the provider's message, no result path, and no call to the storage |
| Worker.ReadFailure | internal/queue/memory/worker.go:135-142 | A stream-read error fails the job at 70% with that message, no result path, and no call to the storage |
| Worker.StoreFailure | internal/queue/memory/worker.go:148-155 | A write error fails the job at 90% with the storage's message; the storage and the result path are unchanged |
| Worker.CompletionIff | internal/queue/memory/worker.go:148-162 | A job completes exactly when synthesis, the read and the write all succeed. It then holds the written path at progress 100, and expires the retention after it finished. The storage was called with the job's ID, the drained bytes and the job's format, and the file holds those bytes |
| Worker.Run | internal/queue/memory/worker.go:63-91 | The worker claims buffered jobs oldest first and never re-buffers one. It stops at cancellation or when the closed buffer is drained. Every claimed job still registered ends terminal; every other record is unchanged |
| Handlers.WriteError | internal/api/middleware/error.go:11-15 | The reply carries the error's own status and the envelope of that error |
| Handlers.ResolveVoice | internal/api/handlers/jobs.go:93-96 | An empty voice becomes the configured default; any other is kept |
| Handlers.ResolveFormat | internal/api/handlers/jobs.go:98-107 | An empty format means mp3; only mp3 and wav are accepted, everything else is INVALID_FORMAT |
| Handlers.ValidateSubmission | internal/api/handlers/jobs.go:77-112 | Checks in order: an undecodable body, then empty text (VALIDATION_ERROR), then the format. Success fills the voice, format and provider defaults |
| Handlers.SubmitJob | internal/api/handlers/jobs.go:74-136 | An invalid request leaves the queue alone. A valid one enqueues a fresh job: a refused enqueue answers INTERNAL_ERROR, success answers 201 with the ID and "queued" |
| Handlers.StatusView | internal/api/handlers/jobs.go:153-178 | The view reports the record's fields. The optional instants appear exactly when set, the error message exactly when non-empty |
| Handlers.GetJobStatus | internal/api/handlers/jobs.go:139-181 | An unknown ID answers JOB_NOT_FOUND; otherwise 200 with the record's view |
| Handlers.GetJobResult | internal/api/handlers/jobs.go:184-229 | Gating order: not found, then not completed (with the current status), then expired. A storage failure is also reported as expired. Otherwise the stored entry is served with the storage's content type under the file name ID.format |
| Handlers.ResultGating | internal/api/handlers/jobs.go:198-204 | Jobs that are still running, and jobs that failed, answer 425 for their result |
| Handlers.SubmitThenStatus | internal/api/handlers/jobs.go:114-135 | After a successful submission the job reports queued at 0% with no optional fields, its result answers 425, and it is at the tail of the buffer |
| Handlers.OrphanOnCancel | internal/api/handlers/jobs.go:117-122 | A submission cancelled before buffering answers 500, yet the job is registered as queued and never buffered |
| Handlers.ClosedRefusesSubmission | internal/api/handlers/jobs.go:117-122 | A closed queue never accepts a submission and is left unchanged |
| Handlers.ValidateTts | internal/api/handlers/tts.go:53-105 | Checks in order: the body, empty text, UTF-8 length above the limit (TEXT_TOO_LONG with both lengths), the format, then availability. Success builds the request from the text, the resolved voice and format, and the settings |
| Handlers.SynthesizeTTS | internal/api/handlers/tts.go:50-122 | The provider is asked exactly once when every check passes and never otherwise. Its error becomes PROVIDER_UNAVAILABLE carrying its message; its audio is served with its content type |
| Handlers.LengthLimitCountsBytes | internal/api/handlers/tts.go:68-74 | The limit is inclusive and counts bytes: an ASCII text passes exactly when its length is within the limit, and a two-byte character exceeds a limit of one |
| Handlers.EndpointsAgree | internal/api/handlers/jobs.go:83-107 | Within the length limit, the asynchronous and synchronous endpoints accept the same requests, refuse the same ones with the same error, and build the same request |
| ElevenLabs.NewProvider | internal/provider/elevenlabs/provider.go:26-31 | A new adapter has no call in flight |
| ElevenLabs.OutputFormatFor | internal/provider/elevenlabs/provider.go:49-54 | "wav" maps to "pcm_22050" and every other value to "mp3_22050_32" |
| ElevenLabs.ValueOr | internal/provider/elevenlabs/provider.go:152-164 | Both helpers return the value a settings pointer holds, or the given default for a nil pointer |
| ElevenLabs.SettingsBlock | internal/provider/elevenlabs/provider.go:57-64 | A block is sent exactly when settings are given. Missing fields default to 0.5, 0.75, 0.0 and true |
| ElevenLabs.BuildRequest | internal/provider/elevenlabs/provider.go:44-64 | The text passes unchanged, the format is translated, and the settings block is attached |
| ElevenLabs.SpeedIsDropped | internal/provider/elevenlabs/provider.go:57-64 | The speed setting never influences the request |
| ElevenLabs.Synthesize | internal/provider/elevenlabs/provider.go:39-84 | Client and read errors come back unchanged. Success returns the drained bytes, the client's content type and their exact size. The in-flight count ends where it started |
| ElevenLabs.ToVoice | internal/provider/elevenlabs/provider.go:94-110 | The ID, name and preview pass through, the provider is "elevenlabs", and language and gender come from the labels or are empty |
| ElevenLabs.ListVoices | internal/provider/elevenlabs/provider.go:87-114 | A client error is returned unchanged. Otherwise one voice per listed voice, in the same order |
| ElevenLabs.ProviderConstants | internal/provider/elevenlabs/provider.go:34-36 | The name is "elevenlabs", at most 4 jobs run concurrently, and a new adapter reports 0 active jobs |
| VoiceCatalog.GetVoiceID | internal/provider/elevenlabs/voices.go:17-22 | A known name maps to its ID; any other input is returned unchanged |
| VoiceCatalog.DefaultVoiceIsAdam | internal/provider/elevenlabs/voices.go:4-14 | The default voice is Adam's ID |
| VoiceCatalog.IdsAreNotNames | internal/provider/elevenlabs/voices.go:4-11 | No voice ID in the table is also a name |
| VoiceCatalog.GetVoiceIDIdempotent | internal/provider/elevenlabs/voices.go:17-22 | Resolving twice is resolving once |
| EndToEnd.ProcessedResultIsServed | internal/queue/memory/worker.go:148-162 | Within the retention window, a job the worker completed is served with exactly the provider's bytes, the format's content type and its own file name (unless an mp3 shadows a wav result) |
| EndToEnd.ExpiredResultIsSwept | internal/api/handlers/jobs.go:206-210 | Once a completed job has expired its result answers 410, and a sweep with the same retention removes its file unless removal fails |
| EndToEnd.SweepSparesFreshResult | internal/storage/filesystem/storage.go:128-146 | No sweep removes a result file before the retention, counted from its write, has passed |
| EndToEnd.ElevenLabsFeedsWorker | internal/provider/elevenlabs/provider.go:39-84 | With the ElevenLabs adapter as provider, PCM audio is requested exactly when the stored file is announced as `audio/wav`, and a completed job's file holds exactly the drained response body |

## Left out

- Concurrency: goroutines, the worker pool's Start/Stop, the WaitGroup, mutexes and atomic counters. `Run` models one worker alone on the queue. The race where `Close` shuts the channel while a concurrent `Enqueue` is about to send (a panic in Go) cannot arise sequentially.
- Worker.Run: a cancellation arriving while the worker is blocked on an empty, open buffer is modelled as cancellation before the next claim. Both end the loop the same way.
- The periodic cleanup scheduler (`StartCleanupScheduler`) is a ticker loop around `CleanupExpired` and is not modelled.
- The ElevenLabs HTTP client is a function parameter. The model ID it fills in, its health check (`IsAvailable`, a boolean input to `ValidateTts`) and the provider's `Info`/`Status` reports are not modelled.
- HTTP transport: JSON decoding (a body either decodes or does not), JSON encoding, routing, headers, and `io.Copy` streaming of the response. A failure while streaming is only logged.
- Timestamps are kept as instants. The `2006-01-02T15:04:05Z` text form is not modelled.
- AudioStore.Join applies no `filepath.Clean` to the base path or the name; it concatenates with one slash. Paths therefore differ from Go's for a base path with `./` or `..` (such as the default `./audio_cache`, which Go shortens to `audio_cache`), a trailing slash, or a job ID containing `/` or `..`.
- AudioStore.Exists and AudioStore.GetPath: an `os.Stat` that fails for an entry that is present (a permission error, say) is not modelled; every present entry counts as found.
- File writes either succeed or fail whole; a partial write is not modelled. `os.Open` permission errors are not modelled: any entry with the file's name opens, as a directory does in Go.
- `time.Duration` is int64 nanoseconds, so a huge retention or text length would overflow in Go; the model's integers are unbounded.
- JobStatus is an open string type in Go; the model has exactly the four statuses the code assigns. A record with any other status would count only in the total in `Stats`.
- Progress is an `int`. Go uses float64, but only the literal checkpoint values are ever assigned.
- Voice-setting values are `real`s that are only chosen, never computed.
- Logging is not modelled.
