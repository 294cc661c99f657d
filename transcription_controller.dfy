/** The synchronous transcription route: 503 while the service is missing,
    400 without any audio source, then processing, while holding a GPU
    permit when the gate exists and ungated otherwise, with the errors of
    each path mapped to HTTP responses. */
module TranscriptionController {
  import opened Wrappers
  import opened Text
  import opened Errors
  import opened Requests
  import opened TranscriptionService
  import opened GpuSemaphore

  const NotReady := HttpException(503, "Service is not ready. Please try again in a moment.")
  const NoAudio := HttpException(400, "Either 'audio_url' or 'audio_file' must be provided")

  /** A truthy audio_url or audio_file. */
  predicate HasAudioSource(body: TranscriptionRequest)
  {
    (body.audioUrl.Some? && body.audioUrl.value != "") || (body.audioFile.Some? && body.audioFile.value != "")
  }

  /** The checks before any processing, the missing service first. */
  function Precheck(hasService: bool, body: TranscriptionRequest): (e: Option<PyError>)
    ensures !hasService ==> e == Some(NotReady)
    ensures hasService ==> (e.Some? <==> !HasAudioSource(body))
    ensures hasService && e.Some? ==> e.value == NoAudio
  {
    if !hasService then Some(NotReady)
    else if !HasAudioSource(body) then Some(NoAudio)
    else None
  }

  function Failed(e: PyError): PyError
  {
    HttpException(500, "Transcription failed: " + e.Str())
  }

  /** The gated path's mapping: an HTTP error goes out unchanged, any other becomes a 500. */
  function GatedError(e: PyError): (r: PyError)
    ensures e.HttpException? ==> r == e
    ensures !e.HttpException? ==> r == Failed(e) && r.status == 500
  {
    if e.HttpException? then e else Failed(e)
  }

  /** The ungated path's mapping: every error, an HTTP one included, becomes a 500. */
  function UngatedError(e: PyError): (r: PyError)
    ensures r.HttpException? && r.status == 500
    ensures r.detail == "Transcription failed: " + e.Str()
  {
    Failed(e)
  }

  /** The two paths answer alike exactly for errors that are not HTTP errors. */
  lemma GatedAndUngatedDiffer(e: PyError)
    ensures GatedError(e) == UngatedError(e) <==> !e.HttpException?
  {
    if e.HttpException? {
      assert |UngatedError(e).detail| > |e.detail|;
    }
  }

  /** str() of the 400 for a missing URL. */
  lemma MissingUrlText()
    ensures MissingUrlInProcess.Str() == "400" + ": " + "audio_url is required"
  {
    assert NatToString(400) == "400" by {
      assert DigitChar(0) == '0' && DigitChar(4) == '4';
      assert 400 / 10 == 40 && 400 % 10 == 0 && 40 / 10 == 4 && 40 % 10 == 0;
      assert NatToString(40) == NatToString(4) + [DigitChar(0)];
      assert NatToString(400) == NatToString(40) + [DigitChar(0)];
    }
  }

  /** The 400 for a missing URL reaches the client unchanged only through the
      gated path; the ungated path turns it into a 500 quoting it. */
  lemma MissingUrlAnswers()
    ensures GatedError(MissingUrlInProcess) == HttpException(400, "audio_url is required")
    ensures UngatedError(MissingUrlInProcess) ==
              HttpException(500, "Transcription failed: " + ("400" + ": " + "audio_url is required"))
  {
    MissingUrlText();
  }

  /** The route's answer for a processing outcome. */
  function Answer(hasService: bool, body: TranscriptionRequest, gated: bool,
                  outcome: Result<TranscriptionResponse, PyError>): (r: Result<TranscriptionResponse, PyError>)
    ensures Precheck(hasService, body).Some? ==> r == Failure(Precheck(hasService, body).value)
    ensures r.Success? <==> Precheck(hasService, body).None? && outcome.Success?
    ensures r.Success? ==> r == outcome
    ensures r.Failure? ==> r.error.HttpException?
    ensures !gated && Precheck(hasService, body).None? && outcome.Failure? ==> r.error.status == 500
  {
    var pre := Precheck(hasService, body);
    if pre.Some? then Failure(pre.value)
    else if outcome.Success? then outcome
    else if gated then Failure(GatedError(outcome.error))
    else Failure(UngatedError(outcome.error))
  }

  /** transcribe: with a gate, processing runs holding one permit that is
      given back on every path; a failed precheck never touches the gate. */
  method Transcribe(hasService: bool, body: TranscriptionRequest, gate: Semaphore?,
                    download: Downloader, run: ItemRunner)
    returns (r: Result<TranscriptionResponse, PyError>)
    requires gate != null ==> gate.Valid() && gate.value > 0
    modifies gate
    ensures r == Answer(hasService, body, gate != null, Process(body, download, run).result)
    ensures gate != null ==> gate.Valid() && gate.value == old(gate.value) && gate.held == old(gate.held)
  {
    var pre := Precheck(hasService, body);
    if pre.Some? {
      return Failure(pre.value);
    }
    if gate != null {
      gate.Acquire();
      var outcome := Process(body, download, run).result;
      if outcome.Success? {
        r := outcome;
      } else {
        r := Failure(GatedError(outcome.error));
      }
      gate.Release();
      return;
    }
    var outcome := Process(body, download, run).result;
    if outcome.Success? {
      r := outcome;
    } else {
      r := Failure(UngatedError(outcome.error));
    }
  }

  /** A request with an audio file but no URL passes the route's checks and
      then fails in processing with the 400 for the missing URL when gated. */
  lemma FileOnlyRequestGated(body: TranscriptionRequest, download: Downloader, run: ItemRunner)
    requires body.audioUrl.None? && body.audioFile.Some? && body.audioFile.value != ""
    ensures Answer(true, body, true, Process(body, download, run).result) == Failure(MissingUrlInProcess)
  {
  }
}
