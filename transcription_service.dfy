/** The transcription orchestrator: the decisions taken for one request (the
    task, the speaker count, whether the diarized path and the translation
    run, the response segments, the dispatcher call), the single-request path
    with its 400 and its clean-up, and the micro-batch executor: per-item
    preparation whose failures stay with their item, sequential computation
    whose exceptions stay with their item, temp-file clean-up on every path,
    and one result per request in index order. Downloading and the per-item
    computation are parameters; the thread pool is a completion order. */
module TranscriptionService {
  import opened Wrappers
  import opened Text
  import opened Errors
  import opened JsonValue
  import opened Requests
  import opened Sorting
  import opened TranscriptionUtils
  import opened DiarizationService

  // ---------------------------------------------------------------------------
  // Decisions for one request
  // ---------------------------------------------------------------------------

  /** The task: "translate" when translation to English is asked for, the requested task otherwise. */
  function SelectTask(request: TranscriptionRequest): (task: string)
    ensures request.translateToEnglish ==> task == "translate"
    ensures !request.translateToEnglish ==> task == request.task
  {
    if request.translateToEnglish then "translate" else request.task
  }

  /** A validated request always yields a task the recogniser accepts. */
  lemma SelectedTaskIsKnown(request: TranscriptionRequest)
    requires WellFormed(request)
    ensures IsTask(SelectTask(request))
  {
  }

  /** The speaker count reported and handed to diarization: none without
      diarization, else the requested count or the default when it is absent or 0. */
  function NumSpeakersOf(request: TranscriptionRequest, default: int): (n: Option<int>)
    ensures n.None? <==> !request.enableDiarization
    ensures n.Some? ==> n.value == EffectiveNumSpeakers(request.numSpeakers, default)
  {
    if request.enableDiarization then Some(EffectiveNumSpeakers(request.numSpeakers, default)) else None
  }

  /** A validated request with diarization on hands a positive count on when the default is positive. */
  lemma NumSpeakersPositive(request: TranscriptionRequest, default: int)
    requires WellFormed(request) && request.enableDiarization && default >= 1
    ensures NumSpeakersOf(request, default).value >= 1
  {
  }

  /** The diarized path runs when diarization is on and its table has rows. */
  predicate UsesDiarizedPath(request: TranscriptionRequest, table: Option<seq<Turn>>)
  {
    request.enableDiarization && table.Some? && |table.value| > 0
  }

  /** A second, translating pass runs when translation was asked for and the
      detected language is known and not English. */
  predicate NeedsTranslation(request: TranscriptionRequest, language: Option<string>)
  {
    request.translateToEnglish && language.Some? && language.value != "" && Lower(language.value) != "en"
  }

  /** Without a request for translation no second pass runs, and English never
      gets one whatever its case. */
  lemma NoTranslationForEnglish(request: TranscriptionRequest, language: Option<string>)
    ensures !request.translateToEnglish ==> !NeedsTranslation(request, language)
    ensures language == Some("EN") || language == Some("en") || language == Some("En") || language == Some("eN") ==>
              !NeedsTranslation(request, language)
  {
    if language.Some? && |language.value| == 2 {
      assert Lower(language.value) == [LowerChar(language.value[0]), LowerChar(language.value[1])];
    }
  }

  /** The segments of the response: none when nothing was recognised, else one
      per segment in order, its id one less, times and text unchanged. */
  function ResponseSegments(segments: seq<WhisperSegment>): (r: Option<seq<TextRow>>)
    ensures r.None? <==> |segments| == 0
    ensures r.Some? ==> |r.value| == |segments|
    ensures r.Some? ==> forall i :: 0 <= i < |segments| ==>
              r.value[i] == TextRow(segments[i].id - 1, segments[i].start, segments[i].end, segments[i].text)
  {
    if |segments| == 0 then None else Some(ConvertSegments(segments))
  }

  /** Results are sent on when the request names a non-empty dispatcher endpoint. */
  predicate ShouldDispatch(request: TranscriptionRequest)
  {
    request.dispatcherEndpoint.Some? && request.dispatcherEndpoint.value != ""
  }

  /** The dispatcher address: the endpoint followed by "/transcribtion/data". */
  function DispatcherUrl(endpoint: string): (url: string)
    ensures |url| == |endpoint| + 19
    ensures StartsWith(url, endpoint)
    ensures url[|endpoint|..] == "/transcribtion/data"
  {
    endpoint + "/transcribtion/data"
  }

  /** The body posted to the dispatcher: the response dump under "data". */
  function DispatcherPayload(response: map<string, Json>): (p: Json)
    ensures p.JObj? && p.fields.Keys == {"data"} && p.fields["data"] == JObj(response)
  {
    JObj(map["data" := JObj(response)])
  }

  // ---------------------------------------------------------------------------
  // Items, preparation and computation
  // ---------------------------------------------------------------------------

  /** `not request.audio_url`: absent or empty. */
  predicate HasAudioUrl(request: TranscriptionRequest)
  {
    request.audioUrl.Some? && request.audioUrl.value != ""
  }

  /** A prepared audio item: the temporary file and its waveform. */
  datatype Audio = Audio(path: string, waveform: Waveform)

  /** Downloading and normalising audio from a URL, or the exception it raises. */
  type Downloader = string -> Result<Audio, PyError>

  datatype TranscriptionResponse = TranscriptionResponse(
    text: string,
    diarizedText: string,
    translation: Option<string>,
    diarizedTranslation: Option<string>,
    language: Option<string>,
    duration: Option<nat>,
    segments: Option<seq<TextRow>>,
    numSpeakers: Option<int>,
    extraData: map<string, Json>)

  /** The computation for one prepared item, or the exception it raises. */
  type ItemRunner = (TranscriptionRequest, Audio) -> Result<TranscriptionResponse, PyError>

  const MissingUrlInBatch := Raised("ValueError", "audio_url is required")
  const MissingUrlInProcess := HttpException(400, "audio_url is required")

  /** `(index, audio_file_path, waveform_dict, request, error)` from the preparation step. */
  datatype PrepResult = PrepResult(index: int, request: TranscriptionRequest, audio: Result<Audio, PyError>)

  /** _preprocess: a missing URL is a ValueError; otherwise the download's outcome. */
  function Preprocess(index: int, request: TranscriptionRequest, download: Downloader): (p: PrepResult)
    ensures p.index == index && p.request == request
    ensures !HasAudioUrl(request) ==> p.audio == Failure(MissingUrlInBatch)
    ensures HasAudioUrl(request) ==> p.audio == download(request.audioUrl.value)
  {
    if !HasAudioUrl(request) then PrepResult(index, request, Failure(MissingUrlInBatch))
    else PrepResult(index, request, download(request.audioUrl.value))
  }

  /** `(index, response, error)`: exactly one of response and error is set. */
  datatype BatchItem = BatchItem(index: int, response: Option<TranscriptionResponse>, error: Option<PyError>)

  function ItemOf(index: int, outcome: Result<TranscriptionResponse, PyError>): (b: BatchItem)
    ensures b.index == index && (b.response.Some? <==> b.error.None?)
  {
    if outcome.Success? then BatchItem(index, Some(outcome.value), None)
    else BatchItem(index, None, Some(outcome.error))
  }

  /** The outcome of one prepared item: its preparation error, or what the
      computation gives for it. */
  function Computed(p: PrepResult, run: ItemRunner): Result<TranscriptionResponse, PyError>
  {
    if p.audio.Failure? then Failure(p.audio.error) else run(p.request, p.audio.value)
  }

  /** An item whose preparation failed reports that error and its computation
      is never consulted. */
  lemma PrepFailureSkipsCompute(p: PrepResult, run1: ItemRunner, run2: ItemRunner)
    requires p.audio.Failure?
    ensures ItemOf(p.index, Computed(p, run1)) == ItemOf(p.index, Computed(p, run2))
    ensures ItemOf(p.index, Computed(p, run1)) == BatchItem(p.index, None, Some(p.audio.error))
  {
  }

  function PrepIndex(p: PrepResult): int { p.index }

  function ItemIndex(b: BatchItem): int { b.index }

  /** The file a prepared item leaves behind, if any. */
  function CleanupOf(p: PrepResult): seq<string>
  {
    if p.audio.Success? && p.audio.value.path != "" then [p.audio.value.path] else []
  }

  /** The files removed over a sequence of prepared items, in item order. */
  function Cleaned(prep: seq<PrepResult>): seq<string>
  {
    if |prep| == 0 then [] else Cleaned(prep[..|prep| - 1]) + CleanupOf(prep[|prep| - 1])
  }

  /** Exactly the non-empty paths of the successfully prepared items are removed. */
  lemma {:induction false} CleanedExactly(prep: seq<PrepResult>, path: string)
    ensures path in Cleaned(prep) <==>
              exists i :: 0 <= i < |prep| && prep[i].audio.Success? && prep[i].audio.value.path == path && path != ""
    decreases |prep|
  {
    if |prep| > 0 {
      var init := prep[..|prep| - 1];
      CleanedExactly(init, path);
      assert forall i :: 0 <= i < |init| ==> init[i] == prep[i];
    }
  }

  // ---------------------------------------------------------------------------
  // The batch
  // ---------------------------------------------------------------------------

  /** The preparation threads: min(batch size, 4). */
  function CpuWorkers(n: nat): (w: nat)
    ensures n > 0 ==> 1 <= w
    ensures w <= n && w <= 4
    ensures w == n || w == 4
  {
    if n <= 4 then n else 4
  }

  /** The order in which the n preparations complete: each index exactly once. */
  predicate IsCompletionOrder(order: seq<nat>, n: nat)
  {
    && |order| == n
    && (forall k :: 0 <= k < |order| ==> order[k] < n)
    && (forall j, k :: 0 <= j < k < |order| ==> order[j] != order[k])
  }

  /** The preparation results in completion order. */
  function Completed(requests: seq<TranscriptionRequest>, download: Downloader, order: seq<nat>): (c: seq<PrepResult>)
    requires forall k :: 0 <= k < |order| ==> order[k] < |requests|
    ensures |c| == |order|
    ensures forall k :: 0 <= k < |order| ==> c[k] == Preprocess(order[k], requests[order[k]], download)
  {
    seq(|order|, k requires 0 <= k < |order| => Preprocess(order[k], requests[order[k]], download))
  }

  /** The preparation results in index order: item i is request i's. */
  function PreparedAll(requests: seq<TranscriptionRequest>, download: Downloader): (prep: seq<PrepResult>)
    ensures |prep| == |requests|
    ensures forall i :: 0 <= i < |requests| ==> prep[i] == Preprocess(i, requests[i], download)
  {
    seq(|requests|, i requires 0 <= i < |requests| => Preprocess(i, requests[i], download))
  }

  /** Sorting the completed preparations by index puts request i's at position i,
      whatever the completion order. */
  lemma SortCompleted(requests: seq<TranscriptionRequest>, download: Downloader, order: seq<nat>)
    requires IsCompletionOrder(order, |requests|)
    ensures SortBy(Completed(requests, download, order), PrepIndex) == PreparedAll(requests, download)
  {
    var c := Completed(requests, download, order);
    var s := SortBy(c, PrepIndex);
    SortPermutationOfRange(c, PrepIndex);
    forall i | 0 <= i < |s|
      ensures s[i] == Preprocess(i, requests[i], download)
    {
      assert s[i] in multiset(c);
      var k :| 0 <= k < |c| && c[k] == s[i];
    }
  }

  /** The batch items for prepared items, in the same order. */
  function Items(prep: seq<PrepResult>, run: ItemRunner): (items: seq<BatchItem>)
    ensures |items| == |prep|
    ensures forall i :: 0 <= i < |prep| ==> items[i] == ItemOf(prep[i].index, Computed(prep[i], run))
  {
    seq(|prep|, i requires 0 <= i < |prep| => ItemOf(prep[i].index, Computed(prep[i], run)))
  }

  /** Phase 1: every request is prepared, the results are collected as they
      complete and then sorted by index. */
  method Prepare(requests: seq<TranscriptionRequest>, download: Downloader, order: seq<nat>)
    returns (prep: seq<PrepResult>)
    requires IsCompletionOrder(order, |requests|)
    ensures prep == PreparedAll(requests, download)
  {
    prep := [];
    for k := 0 to |order|
      invariant prep == Completed(requests, download, order[..k])
    {
      prep := prep + [Preprocess(order[k], requests[order[k]], download)];
    }
    assert order[..|order|] == order;
    SortCompleted(requests, download, order);
    prep := SortBy(prep, PrepIndex);
  }

  /** Phase 2: the items are computed one after the other; a preparation error
      is recorded without computing, a computation's exception is recorded for
      its item alone, and every prepared file is removed afterwards. */
  method RunPrepared(prep: seq<PrepResult>, run: ItemRunner)
    returns (results: seq<BatchItem>, cleaned: seq<string>)
    ensures results == Items(prep, run)
    ensures cleaned == Cleaned(prep)
  {
    results := [];
    cleaned := [];
    for i := 0 to |prep|
      invariant results == Items(prep[..i], run)
      invariant cleaned == Cleaned(prep[..i])
    {
      assert prep[..i + 1][..i] == prep[..i];
      var p := prep[i];
      if p.audio.Failure? {
        results := results + [BatchItem(p.index, None, Some(p.audio.error))];
        continue;
      }
      var outcome := run(p.request, p.audio.value);
      if outcome.Success? {
        results := results + [BatchItem(p.index, Some(outcome.value), None)];
      } else {
        results := results + [BatchItem(p.index, None, Some(outcome.error))];
      }
      if p.audio.value.path != "" {
        cleaned := cleaned + [p.audio.value.path];
      }
    }
    assert prep[..|prep|] == prep;
  }

  /** process_batch: an empty batch gives no results; otherwise one result per
      request, at its index, holding that request's preparation error or its
      computation's outcome, and the files of all prepared items are removed. */
  method ProcessBatch(requests: seq<TranscriptionRequest>, download: Downloader, run: ItemRunner, order: seq<nat>)
    returns (results: seq<BatchItem>, cleaned: seq<string>)
    requires IsCompletionOrder(order, |requests|)
    ensures |results| == |requests|
    ensures forall i :: 0 <= i < |requests| ==>
              results[i] == ItemOf(i, Computed(Preprocess(i, requests[i], download), run))
    ensures cleaned == Cleaned(PreparedAll(requests, download))
  {
    if |requests| == 0 {
      return [], [];
    }
    var workers := CpuWorkers(|requests|);
    var prep := Prepare(requests, download, order);
    results, cleaned := RunPrepared(prep, run);
    assert SortedBy(results, ItemIndex);
    SortedIsFixed(results, ItemIndex);
    results := SortBy(results, ItemIndex);
  }

  /** Each result is determined by its own request alone: changing any other
      request leaves it as it is. */
  lemma ItemIsolation(requests: seq<TranscriptionRequest>, other: seq<TranscriptionRequest>,
                      download: Downloader, run: ItemRunner, i: nat)
    requires |requests| == |other| && i < |requests| && requests[i] == other[i]
    ensures ItemOf(i, Computed(PreparedAll(requests, download)[i], run))
            == ItemOf(i, Computed(PreparedAll(other, download)[i], run))
  {
  }

  // ---------------------------------------------------------------------------
  // The single-request path
  // ---------------------------------------------------------------------------

  /** What process ends with: the response or the exception it re-raises, and
      the files it removed. */
  datatype ProcessOutcome = ProcessOutcome(result: Result<TranscriptionResponse, PyError>, cleaned: seq<string>)

  /** process: 400 without a URL before anything is downloaded; a download
      error propagates with nothing to remove; otherwise the computation's
      outcome, and the file is removed whether it succeeded or not. */
  function Process(request: TranscriptionRequest, download: Downloader, run: ItemRunner): (o: ProcessOutcome)
    ensures !HasAudioUrl(request) ==> o == ProcessOutcome(Failure(MissingUrlInProcess), [])
  {
    if !HasAudioUrl(request) then ProcessOutcome(Failure(MissingUrlInProcess), [])
    else
      var audio := download(request.audioUrl.value);
      if audio.Failure? then ProcessOutcome(Failure(audio.error), [])
      else ProcessOutcome(run(request, audio.value), CleanupOf(PrepResult(0, request, audio)))
  }

  /** A request with a URL fares alike alone and as a one-item batch: the same
      outcome and the same files removed. Without a URL both fail, with a 400
      alone and a ValueError in the batch. */
  lemma ProcessAgreesWithBatch(request: TranscriptionRequest, download: Downloader, run: ItemRunner)
    ensures var p := PreparedAll([request], download);
            && (HasAudioUrl(request) ==>
                  && Process(request, download, run).result == Computed(p[0], run)
                  && Process(request, download, run).cleaned == Cleaned(p))
            && (!HasAudioUrl(request) ==>
                  && Process(request, download, run).result == Failure(MissingUrlInProcess)
                  && Computed(p[0], run) == Failure(MissingUrlInBatch))
  {
    var p := PreparedAll([request], download);
    assert p[..0] == [];
  }
}
