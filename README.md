# A verified model of the transcription service

This project models the core of a GPU transcription service.

- The service takes a transcription request that points at an audio file by URL or by path.
- faster-whisper turns the audio into timed text segments.
- Optionally, pyannote labels who spoke when. The service then aligns each text segment with the speaker turn that overlaps it most, merges consecutive rows of one speaker, and renders the result as `SPEAKER_n: [HH:MM:SS - HH:MM:SS]--text` lines.
- Requests arrive in three ways:
  - an HTTP endpoint gated by a semaphore;
  - a RunPod serverless handler;
  - a Redis queue, which a front end fills and a background worker drains with at most `max_concurrency` jobs in flight.
- The front end also runs an autoscaler. It shuts the GPU pod down after the queue has been empty for `QUEUE_IDLE_TIMEOUT` seconds and starts it again when work arrives.

## How the model is built

Each core source file is one Dafny module:

- `Requests` (`schemas/requests.py`)
- `TranscriptionUtils` (`utils/transcription_utils.py`)
- `SttService`, `DiarizationService` and `TranscriptionService` (the three services)
- `TranscriptionController` and `QueueController` (the controllers)
- `RunpodHandler`
- `WhisperModels` (`models/whisper_model.py`)
- `QueueWorker` and `GpuSemaphore` (the worker and semaphore in `main.py`)
- `GpuQueueApi` (`gpu_queue_api.py`)

Shared helper modules:

- `Wrappers`: Option and Result.
- `Errors`: Python exceptions and FastAPI's `HTTPException`.
- `JsonValue`: decoded JSON and Python truthiness.
- `Text`: `strip`, `lower`, `int()`, `str()`, `join` and `split`.
- `Sorting`: a stable sort by key, proved stable.
- `Config`: the settings and their defaults.

Conventions:

- **Times** are whole centiseconds, since the source rounds them to two decimals.
- **External calls are parameters.** The recognizer, the diarization pipeline, the downloader, the model constructor, Redis's answers and the clock are passed in as function values or plain values.
- **State the source updates in place is a class:**
  - the autoscaler's globals;
  - the semaphore, the worker and its running jobs;
  - the lazily loaded model and pipeline caches;
  - the handler's service instance;
  - the speaker table that `combine_consecutive_speakers` edits row by row (an array).

  Each class method is proved against a pure function of the old state. The properties are then proved about that function.

## Model

| member | source | states |
|---|---|---|
| TranscriptionUtils.ConvertSegments | build_code/src/utils/transcription_utils.py:30-39 | one row per segment in order, id shifted down by one, times and text kept |
| TranscriptionUtils.Duration | build_code/src/utils/transcription_utils.py:104-112 | for well-formed intervals the overlap length is non-negative exactly when the two intervals meet, and never exceeds either interval |
| TranscriptionUtils.AllOverlaps | build_code/src/utils/transcription_utils.py:76-100 | the candidate table holds exactly the (segment, turn) pairs that overlap |
| TranscriptionUtils.Best | build_code/src/utils/transcription_utils.py:115-116 | idxmax per segment id: absent iff no candidate has that id; otherwise a candidate of maximal overlap, the first such in table order |
| TranscriptionUtils.GroupIds | build_code/src/utils/transcription_utils.py:115-116 | groupby keys: strictly increasing and exactly the ids present |
| TranscriptionUtils.Combine | build_code/src/utils/transcription_utils.py:72-118 | the combined table has strictly increasing segment ids |
| TranscriptionUtils.CombineRowIsBest | build_code/src/utils/transcription_utils.py:104-118 | every combined row is an overlapping (segment, turn) pair with the largest overlap among that segment's candidates |
| TranscriptionUtils.CombineCovers | build_code/src/utils/transcription_utils.py:82-118 | every segment that overlaps some turn appears in the combined table |
| TranscriptionUtils.CombineEmptyIff | build_code/src/utils/transcription_utils.py:96-98 | the combined table is empty iff no segment overlaps any turn |
| TranscriptionUtils.ChosenTurn | build_code/src/utils/transcription_utils.py:104-116 | an independent reference: for one segment, the earliest turn of maximal overlap, or none when no turn overlaps |
| TranscriptionUtils.BestIsChosenTurn | build_code/src/utils/transcription_utils.py:72-118 | the table's best row for a segment is exactly the pair with the reference turn |
| TranscriptionUtils.CombineKeepsChosenTurn | build_code/src/utils/transcription_utils.py:72-118 | the segment paired with its reference turn is in the combined table |
| TranscriptionUtils.MergeRuns | build_code/src/utils/transcription_utils.py:134-153 | merging never grows the table, is empty iff its input is, keeps the last row's speaker and end, and leaves no two adjacent rows with one speaker |
| TranscriptionUtils.RunsFlatten | build_code/src/utils/transcription_utils.py:134-148 | cutting the rows into speaker runs loses and reorders nothing |
| TranscriptionUtils.RunsUniform | build_code/src/utils/transcription_utils.py:134-148 | each run has a single speaker |
| TranscriptionUtils.RunsMaximal | build_code/src/utils/transcription_utils.py:134-148 | adjacent runs have different speakers |
| TranscriptionUtils.MergeRunsIsRunRows | build_code/src/utils/transcription_utils.py:134-153 | merging yields one row per maximal run: first start, last end, texts joined by single spaces |
| TranscriptionUtils.MergeRunsNoop | build_code/src/utils/transcription_utils.py:134-153 | a table with no repeated adjacent speaker is left as it is |
| TranscriptionUtils.MergeRunsKeepsStartOrder | build_code/src/utils/transcription_utils.py:134-154 | merging a start-ordered table keeps it start-ordered |
| TranscriptionUtils.ConsecutiveSpeakersIdempotent | build_code/src/utils/transcription_utils.py:131-156 | on a start-ordered table, combining consecutive speakers twice equals combining once |
| TranscriptionUtils.ConsecutiveSpeakers | build_code/src/utils/transcription_utils.py:131-156 | the result is ordered by start, holds exactly the merged runs, is no longer than the input and is empty iff the input is |
| TranscriptionUtils.FoldIntoMerges | build_code/src/utils/transcription_utils.py:140-148 | folding row c into row c-1's run and blanking row c-1 keeps the non-blank prefix equal to the merge of the rows so far |
| TranscriptionUtils.CombineConsecutiveSpeakers | build_code/src/utils/transcription_utils.py:131-156 | the in-place row walk over an array, then dropna and sort, returns the merged runs ordered by start |
| TranscriptionUtils.Hms | build_code/src/utils/transcription_utils.py:172-179 | `%H:%M:%S` of gmtime: eight characters with colons at positions 2 and 5, hours mod 24, minutes and seconds mod 60 |
| TranscriptionUtils.HmsValue | build_code/src/utils/transcription_utils.py:172-179 | the three fields read back give the whole seconds modulo one day |
| TranscriptionUtils.FormatDiarizedTextLines | build_code/src/utils/transcription_utils.py:169-185 | splitting the output on newlines gives one line per row, in order, then an empty tail |
| TranscriptionUtils.FormatDiarizedText | build_code/src/utils/transcription_utils.py:169-185 | the text is empty iff there are no rows, and otherwise ends with a newline |
| TranscriptionUtils.FormatSegmentsIsJoinedLines | build_code/src/utils/transcription_utils.py:198-206 | the transcript is empty for no segments; otherwise it is the `[time] text` lines joined by " \n" with trailing whitespace stripped |
| TranscriptionUtils.FormatSegmentsWithTimestamps | build_code/src/utils/transcription_utils.py:198-206 | the result has no whitespace at either end, so stripping it again changes nothing |
| Requests.FromPayload | build_code/src/schemas/requests.py:9-71 | a parsed request satisfies every field validator; a rejection names at least one field error |
| Requests.DumpRoundTrip | build_code/src/schemas/requests.py:9-71 | parsing the dump of any valid request gives that request back |
| Requests.EmptyPayloadDefaults | build_code/src/schemas/requests.py:21-40 | an empty payload gives the declared defaults |
| Requests.UnknownTaskRejected | build_code/src/schemas/requests.py:46-52 | a task other than transcribe or translate is reported against the task field |
| Requests.BadLanguageRejected | build_code/src/schemas/requests.py:54-63 | a language code outside 2..3 characters is reported against the language field |
| Requests.FewSpeakersRejected | build_code/src/schemas/requests.py:65-71 | a speaker count below 1 is reported against num_speakers |
| Requests.LanguageValidationIdempotent | build_code/src/schemas/requests.py:54-63 | validating an already validated (stripped, lower-cased) language code changes nothing |
| Text.StripIsClean | build_code/src/services/stt_service.py:81 | a stripped text has no whitespace at either end and stripping again changes nothing |
| Text.PyIntOfNatToString | build_code/src/services/diarization_service.py:125-131 | int(str(n)) == n, the round trip the label rewrite relies on |
| Text.NatToStringInjective | build_code/src/services/diarization_service.py:125-131 | distinct numbers render as distinct decimal strings |
| Sorting.SortBy | build_code/src/utils/transcription_utils.py:154 | the output is ordered by key and is a permutation of the input |
| Sorting.SortedIsFixed | build_code/src/utils/transcription_utils.py:154 | sorting an ordered sequence leaves it unchanged |
| Sorting.SortByStable | build_code/src/utils/transcription_utils.py:154 | elements with equal keys come out in the order they went in |
| Sorting.SortPermutationOfRange | build_code/src/services/transcription_service.py:225 | sorting items whose indices are 0..n-1 in any order puts index i at position i |
| SttService.Options | build_code/src/services/stt_service.py:57-69 | word timestamps and VAD always on, beam size from the settings, the language lower-cased when given and omitted otherwise |
| SttService.FullTextIsJoin | build_code/src/services/stt_service.py:75-84 | the full text is the segment texts joined by single spaces and stripped |
| SttService.FullText | build_code/src/services/stt_service.py:75-84 | the full text has no whitespace at either end, so stripping it again changes nothing |
| SttService.SegmentsDict | build_code/src/services/stt_service.py:154-166 | one row per segment, in order, id shifted down by one |
| SttService.DiarizedOutputCases | build_code/src/services/stt_service.py:132-150 | the plain text is returned exactly when no segment overlaps a turn; otherwise the rendering of the merged rows |
| SttService.DiarizedOutputLines | build_code/src/services/stt_service.py:132-150 | with newline-free texts and labels, the diarized output splits into exactly one line per merged row |
| SttService.DiarizedOutput | build_code/src/services/stt_service.py:132-150 | with no turns, or no segment aligned, the plain text; otherwise a non-empty rendering ending in a newline |
| SttService.SttService.GetVadOptions | build_code/src/services/stt_service.py:23-33 | the VAD options are built from the settings once and then served from the cache |
| SttService.SttService.Transcribe | build_code/src/services/stt_service.py:35-92 | a recognizer error propagates; otherwise the segments in generation order, their joined stripped text, the language and the duration |
| SttService.SttService.ProcessWithDiarization | build_code/src/services/stt_service.py:97-152 | the transcription plus the diarized rendering of its segments against the speaker turns |
| DiarizationService.CanonicalLabelInjective | build_code/src/services/diarization_service.py:125-131 | corrected relabelling: distinct pyannote speakers always get distinct labels |
| DiarizationService.CanonicalLabelAsWritten | build_code/src/services/diarization_service.py:125-131 | as written: a label not starting `SPEAKER_0` is kept unchanged, only a `SPEAKER_0` label that does not start `SPEAKER_00` can raise, and a rewritten label keeps the `SPEAKER_` prefix |
| DiarizationService.CanonicalLabel | build_code/src/services/diarization_service.py:125-131 | corrected relabelling: raises only where the code as written raises, with the same error, and succeeds wherever it succeeds |
| DiarizationService.CanonicalLabelOfPyannote | build_code/src/services/diarization_service.py:125-131 | corrected relabelling: `SPEAKER_k` becomes `SPEAKER_{k+1}` |
| DiarizationService.AsWrittenAgreesBelowTen | build_code/src/services/diarization_service.py:125-131 | below ten speakers, the code as written and the corrected relabelling agree |
| DiarizationService.AsWrittenMergesSpeakers | build_code/src/services/diarization_service.py:125-131 | as written, SPEAKER_09 and SPEAKER_10 both become SPEAKER_10 |
| DiarizationService.ConvertTracks | build_code/src/services/diarization_service.py:122-142 | for any label rewrite: succeeds iff every label rewrites, with one relabelled turn per track in order; otherwise fails with the first failing label's error |
| DiarizationService.ConvertPyannoteTracks | build_code/src/services/diarization_service.py:122-142 | intended behaviour, with the corrected rewrite: pyannote-numbered tracks always convert, speaker k becomes `SPEAKER_{k+1}`, and distinct speakers keep distinct labels |
| DiarizationService.AsWrittenTableBelowTen | build_code/src/services/diarization_service.py:122-142 | with at most ten pyannote speakers, the table built with the rewrite as written equals the intended one |
| DiarizationService.AsWrittenTableMergesSpeakers | build_code/src/services/diarization_service.py:122-142 | as written, the rows of `SPEAKER_09` and `SPEAKER_10` both get `SPEAKER_10`, where the corrected rewrite keeps them apart |
| DiarizationService.EffectiveNumSpeakers | build_code/src/services/diarization_service.py:99 | a requested non-zero count is used; otherwise the configured default |
| DiarizationService.InputOf | build_code/src/services/diarization_service.py:108-111 | the pipeline gets the file path iff a non-empty path is given, the waveform otherwise |
| DiarizationService.TableOf | build_code/src/services/diarization_service.py:122-158 | for any label rewrite: a pipeline error propagates, no tracks give an empty table, and a table has one row per track |
| DiarizationService.BuildTable | build_code/src/services/diarization_service.py:122-142 | for any label rewrite, the track loop computes exactly ConvertTracks |
| DiarizationService.DiarizationService.InitializePipeline | build_code/src/services/diarization_service.py:30-77 | loads at most once: an initialised service keeps its pipeline; a load failure is returned and leaves the service uninitialised |
| DiarizationService.DiarizationService.Diarize | build_code/src/services/diarization_service.py:79-158 | initialises on demand, then the table of the pipeline run with the effective speaker count and the chosen input, relabelled with the rewrite as written |
| DiarizationService.DiarizationService.Cleanup | build_code/src/services/diarization_service.py:160-168 | releases the pipeline and marks the service uninitialised |
| TranscriptionService.SelectTask | build_code/src/services/transcription_service.py:272-274 | translate_to_english forces "translate"; otherwise the requested task |
| TranscriptionService.SelectedTaskIsKnown | build_code/src/services/transcription_service.py:272-274 | for a valid request the chosen task is transcribe or translate |
| TranscriptionService.NumSpeakersOf | build_code/src/services/transcription_service.py:279-280 | a speaker count is passed iff diarization is enabled, and it is the effective count |
| TranscriptionService.NumSpeakersPositive | build_code/src/services/transcription_service.py:279-280 | with a positive default, a valid request never asks for fewer than one speaker |
| TranscriptionService.NoTranslationForEnglish | build_code/src/services/transcription_service.py:320 | no translation without translate_to_english, nor for English audio in any letter case |
| TranscriptionService.ResponseSegments | build_code/src/services/transcription_service.py:310-315 | no segments gives None; otherwise one row per segment, id shifted down by one |
| TranscriptionService.DispatcherUrl | build_code/src/services/transcription_service.py:375 | the endpoint followed by exactly "/transcribtion/data" |
| TranscriptionService.DispatcherPayload | build_code/src/services/transcription_service.py:376 | a one-key object whose "data" is the response |
| TranscriptionService.Preprocess | build_code/src/services/transcription_service.py:205-215 | no URL is a ValueError; otherwise the download's outcome, tagged with the index and request |
| TranscriptionService.ItemOf | build_code/src/services/transcription_service.py:232-247 | each batch item carries its index and exactly one of a response or an error |
| TranscriptionService.PrepFailureSkipsCompute | build_code/src/services/transcription_service.py:232-240 | a failed preparation is reported as its own error and never reaches the computation |
| TranscriptionService.CleanedExactly | build_code/src/services/transcription_service.py:242-247 | a path is removed iff some item prepared successfully with that non-empty path |
| TranscriptionService.CpuWorkers | build_code/src/services/transcription_service.py:202 | min(n, 4): at least one worker for a non-empty batch, never more than the batch or four |
| TranscriptionService.SortCompleted | build_code/src/services/transcription_service.py:217-225 | whatever order preparations complete in, sorting by index restores the request order |
| TranscriptionService.Prepare | build_code/src/services/transcription_service.py:205-225 | collects the completions and returns the preparations in request order |
| TranscriptionService.RunPrepared | build_code/src/services/transcription_service.py:232-256 | one computed item per preparation in order, and the list of files removed |
| TranscriptionService.ProcessBatch | build_code/src/services/transcription_service.py:180-257 | result i is request i's outcome for every i, and the files removed are exactly those prepared |
| TranscriptionService.Process | build_code/src/services/transcription_service.py:30-174 | no URL gives HTTP 400 before any download, and nothing is removed |
| TranscriptionService.ProcessAgreesWithBatch | build_code/src/services/transcription_service.py:30-174 | the single-request path computes what a one-item batch computes, differing only in how a missing URL is reported |
| TranscriptionController.Precheck | build_code/src/controllers/transcription.py:22-32 | 503 when the service is not ready; otherwise 400 iff neither audio_url nor audio_file is given |
| TranscriptionController.GatedError | build_code/src/controllers/transcription.py:34-49 | inside the semaphore an HTTP error passes through and anything else becomes a 500 |
| TranscriptionController.UngatedError | build_code/src/controllers/transcription.py:51-59 | without the semaphore every error becomes a 500 whose detail embeds the error's text |
| TranscriptionController.GatedAndUngatedDiffer | build_code/src/controllers/transcription.py:34-59 | the two paths report an error alike iff it is not an HTTP error |
| TranscriptionController.MissingUrlAnswers | build_code/src/controllers/transcription.py:34-59 | a missing URL is a 400 when gated and a 500 "Transcription failed: 400: audio_url is required" when not |
| TranscriptionController.Transcribe | build_code/src/controllers/transcription.py:13-59 | the answer to the request, with the semaphore's count the same after the call as before |
| TranscriptionController.FileOnlyRequestGated | build_code/src/controllers/transcription.py:28-49 | a request with only audio_file passes the precheck and is then refused with 400 |
| TranscriptionController.Answer | build_code/src/controllers/transcription.py:13-59 | a failed precheck answers whatever processing gives; a success is exactly a passed precheck with a processing success; every failure is an HTTP error, and a 500 on the ungated path |
| QueueController.Status | build_code/src/controllers/queue.py:14-37 | available plus active slots equal the maximum; without a semaphore every slot is available; pending comes from the state |
| QueueController.Size | build_code/src/controllers/queue.py:40-53 | the queue size is the status's pending count |
| QueueController.Pending | build_code/src/controllers/queue.py:21-26 | an absent pending count reads as 0, a present one as itself |
| QueueController.LockIrrelevant | build_code/src/controllers/queue.py:21-26 | whether a pending lock exists changes neither answer |
| QueueController.StatusOfGate | build_code/src/controllers/queue.py:14-37 | for a consistent semaphore, active slots are the permits held and both counts lie within the maximum |
| GpuSemaphore.Semaphore.Acquire | build_code/src/main.py:94 | takes one free permit, keeping free plus held equal to the capacity |
| GpuSemaphore.Semaphore.Release | build_code/src/main.py:82 | returns one held permit, keeping free plus held equal to the capacity |
| QueueWorker.DecodeJobAsWritten | build_code/src/main.py:99-107 | a non-object entry, or a non-object "request", raises; otherwise the validated job or a logged rejection |
| QueueWorker.DecodeJob | build_code/src/main.py:99-107 | never raises, and accepts exactly what the code as written accepts, with the same job |
| QueueWorker.SubmittedJobAccepted | build_code/src/main.py:99-107 | every entry the front end enqueues decodes to its job id and the original request |
| QueueWorker.BareRequestAccepted | build_code/src/main.py:101-102 | a bare request dump is accepted with job id "<unknown>" |
| QueueWorker.AsWrittenCrashesOnNonObjects | build_code/src/main.py:99-107 | `[]` and `{"request": "x"}` raise as written, and are discarded by the corrected decoder |
| QueueWorker.Worker.Iterate | build_code/src/main.py:94-111 | an accepted job takes a permit and starts running; every other pop gives its permit back |
| QueueWorker.Worker.IterateAsWritten | build_code/src/main.py:94-111 | as written, a raising decode leaves one permit held by no job |
| QueueWorker.Worker.RunJobWithSlot | build_code/src/main.py:70-82 | a finished job leaves the running set, records its outcome and frees its permit |
| QueueWorker.StartedBy | build_code/src/main.py:94-109 | a pop starts at most one job, and only the one the decoding accepted from the popped entry |
| QueueWorker.PopStep | build_code/src/main.py:94-111 | a pop that does not raise leaves finished jobs alone, appends the started job to the running ones, and keeps free permits plus running jobs constant |
| QueueWorker.FinishStep | build_code/src/main.py:70-82 | a finishing job leaves the running jobs and is recorded with the outcome of processing its own request; free permits plus running jobs stay constant |
| QueueWorker.RunConservesPermits | build_code/src/main.py:70-114 | over any events, free permits plus running jobs stay equal to their starting total, and free permits never go negative |
| QueueWorker.RunAccountsForJobs | build_code/src/main.py:70-114 | the running and finished jobs at the end are those at the start plus exactly the jobs the pops started |
| QueueWorker.StartedFromPops | build_code/src/main.py:94-109 | every started job is the decoding of an entry some pop delivered |
| QueueWorker.RunKeepsOutcomes | build_code/src/main.py:70-82 | finished jobs are only appended, each with the outcome of processing its own request |
| QueueWorker.DecodersAgreeOnRuns | build_code/src/main.py:99-107 | the written and the corrected decoding start the same jobs, so their runs agree where nothing raises |
| QueueWorker.PopStepAsWritten | build_code/src/main.py:94-109 | as written, a pop raises exactly when a permit was taken for an entry the written decoding cannot handle, and that permit is not given back |
| QueueWorker.RunAsWrittenLeaks | build_code/src/main.py:85-114 | as written, a run that never raises is the corrected run; once it has raised, free permits plus running jobs stay one below the capacity for good |
| QueueWorker.AsWrittenRaisedStays | build_code/src/main.py:85-114 | once the loop has raised, it stays raised whatever events follow |
| QueueWorker.AsWrittenRunStalls | build_code/src/main.py:85-114 | as written, a worker with one permit whose first pop is `[]` never has a free permit again; the corrected worker gives it straight back |
| QueueWorker.RunWorker | build_code/src/main.py:85-114 | without a client it raises RuntimeError and changes nothing; otherwise, with the corrected decoding, the worker ends in the state Run gives for the events, so free permits plus running jobs equal the capacity |
| QueueWorker.RunWorkerAsWritten | build_code/src/main.py:85-114 | as written: the worker ends in the state RunAsWritten gives; the first raising decode ends the loop with that error and leaves one permit held by no job, while started jobs still finish |
| QueueWorker.StartWorker | build_code/src/main.py:137-138 | the semaphore gets max_concurrency permits; a negative value is a ValueError |
| GpuQueueApi.SubmitJob | gpu_queue_api.py:126-143 | 503 and nothing pushed without a client; otherwise the entry is pushed and the answer is queued or a 500 |
| GpuQueueApi.JobPayload | gpu_queue_api.py:132-134 | the entry is an object with exactly the keys job_id and request, the job id as a string and the request as an object |
| GpuQueueApi.SubmittedEntryRoundTrip | gpu_queue_api.py:132-140 | the pushed entry carries the job id and a request dump that parses back to the request |
| GpuQueueApi.QueueSize | gpu_queue_api.py:155-161 | 503 without a client; otherwise the list length |
| GpuQueueApi.ReadDepth | gpu_queue_api.py:169-174 | no client reads as an empty queue; a read error is reported as a failed read |
| GpuQueueApi.FailedReadIsIgnored | gpu_queue_api.py:169-174 | a failed read changes no state and calls nothing |
| GpuQueueApi.EmptyQueueStartsTimer | gpu_queue_api.py:176-179 | the first empty poll starts the idle timer and calls nothing |
| GpuQueueApi.Next | gpu_queue_api.py:168-190 | one poll makes at most one call: a shutdown leaves the pod stopped with the request flag set, a start leaves it running and happens only when it was stopped; a failed read changes nothing; the pod state changes only with a call |
| GpuQueueApi.Run | gpu_queue_api.py:164-190 | a sequence of polls makes at most one call per poll, and changes the pod state only if it makes a call |
| GpuQueueApi.ShutdownWhenIdleLongEnough | gpu_queue_api.py:176-183 | shutdown is called iff the queue is empty, the timer has run at least the timeout, and no shutdown is pending |
| GpuQueueApi.WorkRestartsPod | gpu_queue_api.py:184-188 | work clears the timer and the pending shutdown, and starts the pod iff it was not running |
| GpuQueueApi.ShutdownAtMostOnce | gpu_queue_api.py:164-190 | while no work arrives, at most one shutdown is called, and none once one is pending |
| GpuQueueApi.ShutdownExactlyOnce | gpu_queue_api.py:164-190 | an idle queue polled at least the timeout after the timer started calls shutdown exactly once |
| GpuQueueApi.Autoscaler.TriggerShutdown | gpu_queue_api.py:282-293 | stops a running pod, and the call is logged |
| GpuQueueApi.Autoscaler.TriggerStart | gpu_queue_api.py:295-306 | starts a stopped pod, and the call is logged |
| GpuQueueApi.Autoscaler.Iterate | gpu_queue_api.py:168-190 | one poll updates the globals and makes the calls of the step function |
| GpuQueueApi.Autoscaler.Loop | gpu_queue_api.py:164-190 | a sequence of polls updates the globals and makes the calls of the run function |
| RunpodHandler.CheckInput | build_code/src/handlers/runpod_handler.py:71-84 | a missing or falsy input is refused with the missing-input error; a success is the input object |
| RunpodHandler.Validate | build_code/src/handlers/runpod_handler.py:71-93 | input checks first; then either a well-formed request or a ValidationError whose message lists the field errors |
| RunpodHandler.Answer | build_code/src/handlers/runpod_handler.py:35-115 | a validation error is returned as is; a processing error becomes an error dict of its text and type name |
| RunpodHandler.NoAudioNeverProcessed | build_code/src/handlers/runpod_handler.py:80-84 | an input with neither audio source gets the missing-audio error whatever processing would do |
| RunpodHandler.DumpedRequestProcessed | build_code/src/handlers/runpod_handler.py:87-115 | the dump of a valid request with a URL validates back to that request, and its response is returned |
| RunpodHandler.BadTaskReported | build_code/src/handlers/runpod_handler.py:87-93 | an unknown task is reported as a ValidationError |
| RunpodHandler.Handler.GetService | build_code/src/handlers/runpod_handler.py:27-32 | the service is created on first use and reused afterwards |
| RunpodHandler.Handler.Handle | build_code/src/handlers/runpod_handler.py:35-115 | answers the event, and creates the service only after validation succeeds |
| WhisperModels.SelectDevice | build_code/src/models/whisper_model.py:35-38 | "auto" picks cuda iff it is available, otherwise cpu; any other setting is used as is |
| WhisperModels.SelectComputeType | build_code/src/models/whisper_model.py:41-47 | "auto" picks int8_float16 on cuda and int8 elsewhere; any other setting is used as is |
| WhisperModels.DefaultChoices | build_code/src/models/whisper_model.py:35-47 | with the default settings the model runs int8_float16 on a GPU and int8 on a CPU |
| WhisperModels.WhisperModelLoader.Load | build_code/src/models/whisper_model.py:22-64 | a loaded model is returned without rebuilding; otherwise one build, cached only on success |
| WhisperModels.WhisperModelLoader.Unload | build_code/src/models/whisper_model.py:66-73 | drops the cached model |
| WhisperModels.ModelCache.GetWhisperModel | build_code/src/models/whisper_model.py:76-89 | the module-level model is built at most once while builds succeed |
| WhisperModels.ModelCache.Preload | build_code/src/models/whisper_model.py:92-97 | builds the model unless one is cached, and reports a failed build |
| WhisperModels.GetTwice | build_code/src/models/whisper_model.py:76-89 | two requests build at most twice, and at most once when the first succeeds, returning the same model |

## Left out

- Requests.FromPayload: only the field validators and the JSON types this service sees are modelled. Pydantic's coercions (e.g. "5" to 5), `HttpUrl` parsing of `audio_url` and the exact layout of a `ValidationError` are not; `RunpodHandler.ValidationText` approximates its text.
- Text.Lower: only ASCII letters are lower-cased, and `int()` reads only ASCII digits.
- Floating point is not modelled. Times are whole centiseconds. Rounding to two decimals, `processing_time`, cost and the billing fields of `extra_data` are taken as given.
- Redis, HTTP, RunPod's API, faster-whisper, pyannote, `torch`, CUDA and the file system are parameters or logs. Their own behaviour is not modelled.
- Concurrency is not modelled:
  - `as_completed` is a completion-order permutation;
  - the worker's interleaving of pops and finishing jobs is a sequence of events;
  - waiting on a semaphore is a precondition, or in the worker a pop skipped while no permit is free;
  - the event loop is not modelled.
- QueueWorker.RunWorker: runs a finite sequence of events rather than `while True`, and the `BRPOP` timeout is a `NoData` pop.
- GpuQueueApi.Autoscaler.Loop: runs a finite sequence of polls. The poll interval's sleep and the five-second simulated start and stop delays are not modelled. The clock is an integer parameter.
- GpuQueueApi.QueueIdleTimeout: a constant at its default of 30. The environment override is not modelled, nor are `AUTOSCALER_ENABLED` and the commented-out RunPod GraphQL calls.
- The lifespan hooks are not modelled: the Redis ping at start-up, task cancellation at shutdown, and authentication errors.
- The health and languages endpoints and `schemas/responses.py` are not modelled, since they only echo constants.
- `utils/audio_processing.py` (download, decoding, resampling) is not part of this model. Its outcome is the `Downloader` parameter.
- TranscriptionUtils.CombineConsecutiveSpeakers: pandas' default `sort_values` is not guaranteed stable. The model sorts stably (Sorting.SortByStable), so rows with equal starts keep their table order, which is one of the orders pandas may give.
- TranscriptionUtils.CombineConsecutiveSpeakers: a pandas chained assignment that might write to a copy is taken to write to the table, as the code evidently means.
- TranscriptionUtils.ConvertSegments: the round to two decimals in `segment_to_dataframe` is absorbed by the centisecond times.
- SttService.SttService.Transcribe: a recognizer whose segment generator fails part way is modelled as failing before any segment.
- DiarizationService.ConvertPyannoteTracks: states the intended relabelling, through the corrected rewrite. The service as written relabels with DiarizationService.CanonicalLabelAsWritten and merges `SPEAKER_09` with `SPEAKER_10` (DiarizationService.AsWrittenTableMergesSpeakers; see Findings).
- DiarizationService.DiarizationService.InitializePipeline: pipeline hyperparameters, the Hugging Face token and moving the pipeline to the GPU are not modelled. The speaker table's `track` column is an integer.
- TranscriptionService.Process: the sequence of service calls inside `_process_single_prepared` is the `ItemRunner` parameter; only its decisions are modelled. `process` and `_process_single_prepared` share that computation.
- TranscriptionService.ResponseSegments: upper-casing of the response language and the `processing_time` and cost fields are not modelled.
- TranscriptionService.DispatcherPayload: delivery of the dispatcher POST and the swallowing of its errors are not modelled.
- QueueWorker.Job: `str(job_id)` is kept as the JSON value, since it is only logged.
- WhisperModels.WhisperModelLoader.Unload: `torch.cuda.empty_cache` and garbage collection are not modelled.

## Findings

| source | as written | input that shows it | evidently intended | confidence | as-written member | corrected member |
|---|---|---|---|---|---|---|
| build_code/src/services/diarization_service.py:125-131 | only labels starting `SPEAKER_0` are renumbered (`int(piece) + 1`); `SPEAKER_10` and above pass through unchanged | a recording with eleven speakers: pyannote's `SPEAKER_09` becomes `SPEAKER_10`, and its `SPEAKER_10` stays `SPEAKER_10` | every pyannote label renumbered from one, so distinct speakers keep distinct labels | not executed | DiarizationService.AsWrittenMergesSpeakers | DiarizationService.CanonicalLabelInjective |
| build_code/src/main.py:99-107 | a decoded entry is used with `.get` and `TranscriptionRequest(**...)`, and only JSON and validation errors are caught | the queue entry `[]`, or `{"request": "x"}`: an AttributeError or TypeError ends the worker task while it holds a semaphore permit | a malformed entry is logged and discarded, and its permit released, like an undecodable one | not executed | QueueWorker.Worker.IterateAsWritten | QueueWorker.Worker.Iterate |
