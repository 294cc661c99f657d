/** The serverless entry point: the event's input is checked (present and
    non-empty, a dictionary, some audio source), turned into a request, and
    processed by a service created on first use; every failure comes back as
    an error dictionary instead of being raised. Processing is a parameter. */
module RunpodHandler {
  import opened Wrappers
  import opened Text
  import opened Errors
  import opened JsonValue
  import opened Requests
  import opened TranscriptionService

  /** What the handler returns: the response's dump, or `{"error": …, "error_type": …}`. */
  datatype HandlerResult = Done(response: TranscriptionResponse) | ErrorDict(error: string, errorType: string)

  const MissingInput := ErrorDict("Missing 'input' field in request", "ValueError")
  const MissingAudio := ErrorDict("Either 'audio_url' or 'audio_file' must be provided in the input", "ValueError")

  /** `str()` of the validation error: its count line, then each field and message. */
  function ValidationText(errors: seq<FieldError>): string
  {
    NatToString(|errors|) + (if |errors| == 1 then " validation error" else " validation errors")
    + " for TranscriptionRequest" + FieldLines(errors)
  }

  function FieldLines(errors: seq<FieldError>): string
  {
    if |errors| == 0 then ""
    else FieldLines(errors[..|errors| - 1]) + "\n" + errors[|errors| - 1].field + "\n  " + errors[|errors| - 1].message
  }

  /** The checks on the input before a request is built: present and
      non-empty, a dictionary, with a truthy audio_url or audio_file. */
  function CheckInput(event: map<string, Json>): (r: Result<map<string, Json>, HandlerResult>)
    ensures !Truthy(Get(event, "input", JObj(map[]))) ==> r == Failure(MissingInput)
    ensures r.Success? ==> Get(event, "input", JObj(map[])) == JObj(r.value)
    ensures r.Failure? ==> r.error.ErrorDict?
  {
    var input := Get(event, "input", JObj(map[]));
    if !Truthy(input) then Failure(MissingInput)
    else if !input.JObj? then
      Failure(ErrorDict("'" + PyTypeName(input) + "' object has no attribute 'get'", "AttributeError"))
    else if !Truthy(Get(input.fields, "audio_url", JNull)) && !Truthy(Get(input.fields, "audio_file", JNull)) then
      Failure(MissingAudio)
    else Success(input.fields)
  }

  /** The checks and the request construction, before any service is touched. */
  function Validate(event: map<string, Json>): (r: Result<TranscriptionRequest, HandlerResult>)
    ensures CheckInput(event).Failure? ==> r == Failure(CheckInput(event).error)
    ensures CheckInput(event).Success? ==>
              var built := FromPayload(CheckInput(event).value);
              && (built.Success? ==> r == Success(built.value) && WellFormed(r.value))
              && (built.Failure? ==>
                    r == Failure(ErrorDict("Invalid request parameters: " + ValidationText(built.error), "ValidationError")))
  {
    var input := CheckInput(event);
    if input.Failure? then Failure(input.error)
    else
      var built := FromPayload(input.value);
      if built.Failure? then
        Failure(ErrorDict("Invalid request parameters: " + ValidationText(built.error), "ValidationError"))
      else Success(built.value)
  }

  /** The handler's answer for a processing function. */
  function Answer(event: map<string, Json>, process: TranscriptionRequest -> Result<TranscriptionResponse, PyError>)
    : (r: HandlerResult)
    ensures Validate(event).Failure? ==> r == Validate(event).error
    ensures Validate(event).Success? ==>
              var out := process(Validate(event).value);
              && (out.Success? ==> r == Done(out.value))
              && (out.Failure? ==> r == ErrorDict(out.error.Str(), out.error.TypeName()))
  {
    var v := Validate(event);
    if v.Failure? then v.error
    else
      var out := process(v.value);
      if out.Success? then Done(out.value) else ErrorDict(out.error.Str(), out.error.TypeName())
  }

  /** An event with no audio source in its input is answered without
      building a request or processing anything. */
  lemma NoAudioNeverProcessed(input: map<string, Json>,
                              p1: TranscriptionRequest -> Result<TranscriptionResponse, PyError>,
                              p2: TranscriptionRequest -> Result<TranscriptionResponse, PyError>)
    requires |input| > 0
    requires "audio_url" !in input && "audio_file" !in input
    ensures Answer(map["input" := JObj(input)], p1) == MissingAudio
    ensures Answer(map["input" := JObj(input)], p2) == MissingAudio
  {
  }

  /** The input of a validated request with a URL reaches processing as that
      very request. */
  lemma DumpedRequestProcessed(request: TranscriptionRequest,
                               process: TranscriptionRequest -> Result<TranscriptionResponse, PyError>)
    requires WellFormed(request) && request.audioUrl.Some? && request.audioUrl.value != ""
    ensures Validate(map["input" := JObj(Dump(request))]) == Success(request)
    ensures process(request).Success? ==>
              Answer(map["input" := JObj(Dump(request))], process) == Done(process(request).value)
  {
    var event := map["input" := JObj(Dump(request))];
    assert CheckInput(event) == Success(Dump(request)) by {
      DumpLookupSources(request);
      assert "audio_url" in Dump(request);
      assert Get(event, "input", JObj(map[])) == JObj(Dump(request));
      assert Truthy(Get(Dump(request), "audio_url", JNull));
    }
    DumpRoundTrip(request);
  }

  /** A request that fails validation is reported with the validation text
      and the class name of the error. */
  lemma BadTaskReported(input: map<string, Json>)
    requires "audio_url" in input && input["audio_url"] == JStr("u")
    requires "task" in input && input["task"] == JStr("summarise")
    ensures var r := Validate(map["input" := JObj(input)]);
            r.Failure? && r.error.errorType == "ValidationError"
  {
    var event := map["input" := JObj(input)];
    assert CheckInput(event) == Success(input) by {
      assert Get(event, "input", JObj(map[])) == JObj(input);
      assert Truthy(Get(input, "audio_url", JNull));
    }
    assert FromPayload(input).Failure? by {
      UnknownTaskRejected(input, "summarise");
    }
  }

  /** The transcription service object the handler keeps. */
  class ServiceInstance {
    constructor()
    {
    }
  }

  /** The module's `_transcription_service` global. */
  class Handler {
    var service: ServiceInstance?

    constructor()
      ensures service == null
    {
      service := null;
    }

    /** _get_service: creates the service on first use and returns the same one afterwards. */
    method GetService() returns (s: ServiceInstance)
      modifies this
      ensures old(service) != null ==> s == old(service)
      ensures old(service) == null ==> fresh(s)
      ensures service == s
    {
      if service == null {
        service := new ServiceInstance();
      }
      s := service;
    }

    /** handler: the answer above; the service is created only once an event
        has passed validation, and never twice. */
    method Handle(event: map<string, Json>, process: TranscriptionRequest -> Result<TranscriptionResponse, PyError>)
      returns (r: HandlerResult)
      modifies this
      ensures r == Answer(event, process)
      ensures Validate(event).Failure? ==> service == old(service)
      ensures Validate(event).Success? ==>
                service != null && (old(service) != null ==> service == old(service))
    {
      var v := Validate(event);
      if v.Failure? {
        return v.error;
      }
      var s := GetService();
      var out := process(v.value);
      if out.Success? {
        r := Done(out.value);
      } else {
        r := ErrorDict(out.error.Str(), out.error.TypeName());
      }
    }
  }
}
