/** The transcription request schema: its fields and defaults, the three field
    validators, construction from a JSON object (the keyword arguments of
    `TranscriptionRequest(**payload)`) and `model_dump(mode="json")`. */
module Requests {
  import opened Wrappers
  import opened Text
  import opened JsonValue

  datatype TranscriptionRequest = TranscriptionRequest(
    audioUrl: Option<string>,
    audioFile: Option<string>,
    language: Option<string>,
    task: string,
    enableDiarization: bool,
    numSpeakers: Option<int>,
    translateToEnglish: bool,
    extraData: map<string, Json>,
    dispatcherEndpoint: Option<string>)

  /** One entry of a pydantic ValidationError: the field and its message. */
  datatype FieldError = FieldError(field: string, message: string)

  const TaskMessage := "Value error, task must be either 'transcribe' or 'translate'"
  const LanguageMessage := "Value error, Language code must be 2 or 3 characters (ISO 639-1 or ISO 639-2)"
  const SpeakersMessage := "Value error, num_speakers must be at least 1"

  predicate IsTask(t: string)
  {
    t == "transcribe" || t == "translate"
  }

  /** What the validators leave behind: a known task, a lower-case language code
      of two or three characters, and at least one speaker when a count is given. */
  predicate WellFormed(r: TranscriptionRequest)
  {
    && IsTask(r.task)
    && (r.language.Some? ==> NoUpper(r.language.value) && 2 <= |r.language.value| <= 3)
    && (r.numSpeakers.Some? ==> r.numSpeakers.value >= 1)
  }

  /** The request with every field at its default. */
  function Defaults(): TranscriptionRequest
  {
    TranscriptionRequest(None, None, None, "transcribe", true, None, false, map[], None)
  }

  function ValidateTask(v: string): Result<string, string>
  {
    if IsTask(v) then Success(v) else Failure(TaskMessage)
  }

  function ValidateLanguage(v: Option<string>): Result<Option<string>, string>
  {
    if v.None? then Success(None)
    else
      var lowered := Lower(v.value);
      if |lowered| == 2 || |lowered| == 3 then Success(Some(lowered)) else Failure(LanguageMessage)
  }

  function ValidateNumSpeakers(v: Option<int>): Result<Option<int>, string>
  {
    if v.Some? && v.value < 1 then Failure(SpeakersMessage) else Success(v)
  }

  /** A `str` field with a default. */
  function StrField(p: map<string, Json>, key: string, default: string): Result<string, string>
  {
    if key !in p then Success(default)
    else match p[key]
      case JStr(s) => Success(s)
      case _ => Failure("Input should be a valid string")
  }

  /** An `Optional[str]` field defaulting to None. */
  function OptStrField(p: map<string, Json>, key: string, typeMessage: string): Result<Option<string>, string>
  {
    if key !in p then Success(None)
    else match p[key]
      case JNull => Success(None)
      case JStr(s) => Success(Some(s))
      case _ => Failure(typeMessage)
  }

  function BoolField(p: map<string, Json>, key: string, default: bool): Result<bool, string>
  {
    if key !in p then Success(default)
    else match p[key]
      case JBool(b) => Success(b)
      case _ => Failure("Input should be a valid boolean")
  }

  function OptIntField(p: map<string, Json>, key: string): Result<Option<int>, string>
  {
    if key !in p then Success(None)
    else match p[key]
      case JNull => Success(None)
      case JInt(i) => Success(Some(i))
      case _ => Failure("Input should be a valid integer")
  }

  function DictField(p: map<string, Json>, key: string): Result<map<string, Json>, string>
  {
    if key !in p then Success(map[])
    else match p[key]
      case JObj(m) => Success(m)
      case _ => Failure("Input should be a valid dictionary")
  }

  function AndThen<T>(r: Result<T, string>, validate: T -> Result<T, string>): Result<T, string>
  {
    if r.Failure? then r else validate(r.value)
  }

  function ErrorsOf<T>(field: string, r: Result<T, string>): seq<FieldError>
  {
    if r.Failure? then [FieldError(field, r.error)] else []
  }

  /** `TranscriptionRequest(**p)`: each field is type-checked, then its validator runs;
      every failing field is reported, in declaration order. Unknown keys are ignored. */
  function FromPayload(p: map<string, Json>): (r: Result<TranscriptionRequest, seq<FieldError>>)
    ensures r.Success? ==> WellFormed(r.value)
    ensures r.Failure? ==> |r.error| > 0
  {
    var audioUrl := OptStrField(p, "audio_url", "URL input should be a string or URL");
    var audioFile := OptStrField(p, "audio_file", "Input should be a valid string");
    var language := AndThen(OptStrField(p, "language", "Input should be a valid string"), ValidateLanguage);
    var task := AndThen(StrField(p, "task", "transcribe"), ValidateTask);
    var diarize := BoolField(p, "enable_diarization", true);
    var speakers := AndThen(OptIntField(p, "num_speakers"), ValidateNumSpeakers);
    var translate := BoolField(p, "translate_to_english", false);
    var extra := DictField(p, "extra_data");
    var dispatcher := OptStrField(p, "dispatcher_endpoint", "Input should be a valid string");
    var errors :=
      ErrorsOf("audio_url", audioUrl) + ErrorsOf("audio_file", audioFile) + ErrorsOf("language", language)
      + ErrorsOf("task", task) + ErrorsOf("enable_diarization", diarize) + ErrorsOf("num_speakers", speakers)
      + ErrorsOf("translate_to_english", translate) + ErrorsOf("extra_data", extra)
      + ErrorsOf("dispatcher_endpoint", dispatcher);
    if errors != [] then Failure(errors)
    else
      Success(TranscriptionRequest(audioUrl.value, audioFile.value, language.value, task.value, diarize.value,
                                   speakers.value, translate.value, extra.value, dispatcher.value))
  }

  function OptStr(v: Option<string>): Json
  {
    if v.Some? then JStr(v.value) else JNull
  }

  /** `model_dump(mode="json")`: every field, None as null. */
  function Dump(r: TranscriptionRequest): map<string, Json>
  {
    map[
      "audio_url" := OptStr(r.audioUrl),
      "audio_file" := OptStr(r.audioFile),
      "language" := OptStr(r.language),
      "task" := JStr(r.task),
      "enable_diarization" := JBool(r.enableDiarization),
      "num_speakers" := (if r.numSpeakers.Some? then JInt(r.numSpeakers.value) else JNull),
      "translate_to_english" := JBool(r.translateToEnglish),
      "extra_data" := JObj(r.extraData),
      "dispatcher_endpoint" := OptStr(r.dispatcherEndpoint)
    ]
  }

  lemma DumpLookupSources(r: TranscriptionRequest)
    ensures "audio_url" in Dump(r) && Dump(r)["audio_url"] == OptStr(r.audioUrl)
    ensures "audio_file" in Dump(r) && Dump(r)["audio_file"] == OptStr(r.audioFile)
    ensures "language" in Dump(r) && Dump(r)["language"] == OptStr(r.language)
  {
  }

  lemma DumpLookupOptions(r: TranscriptionRequest)
    ensures "task" in Dump(r) && Dump(r)["task"] == JStr(r.task)
    ensures "enable_diarization" in Dump(r) && Dump(r)["enable_diarization"] == JBool(r.enableDiarization)
    ensures "num_speakers" in Dump(r)
            && Dump(r)["num_speakers"] == (if r.numSpeakers.Some? then JInt(r.numSpeakers.value) else JNull)
  {
  }

  lemma DumpLookupExtras(r: TranscriptionRequest)
    ensures "translate_to_english" in Dump(r) && Dump(r)["translate_to_english"] == JBool(r.translateToEnglish)
    ensures "extra_data" in Dump(r) && Dump(r)["extra_data"] == JObj(r.extraData)
    ensures "dispatcher_endpoint" in Dump(r) && Dump(r)["dispatcher_endpoint"] == OptStr(r.dispatcherEndpoint)
  {
  }

  /** Every field of the dump holds the request's value. */
  lemma DumpLookup(r: TranscriptionRequest)
    ensures "audio_url" in Dump(r) && Dump(r)["audio_url"] == OptStr(r.audioUrl)
    ensures "audio_file" in Dump(r) && Dump(r)["audio_file"] == OptStr(r.audioFile)
    ensures "language" in Dump(r) && Dump(r)["language"] == OptStr(r.language)
    ensures "task" in Dump(r) && Dump(r)["task"] == JStr(r.task)
    ensures "enable_diarization" in Dump(r) && Dump(r)["enable_diarization"] == JBool(r.enableDiarization)
    ensures "num_speakers" in Dump(r)
            && Dump(r)["num_speakers"] == (if r.numSpeakers.Some? then JInt(r.numSpeakers.value) else JNull)
    ensures "translate_to_english" in Dump(r) && Dump(r)["translate_to_english"] == JBool(r.translateToEnglish)
    ensures "extra_data" in Dump(r) && Dump(r)["extra_data"] == JObj(r.extraData)
    ensures "dispatcher_endpoint" in Dump(r) && Dump(r)["dispatcher_endpoint"] == OptStr(r.dispatcherEndpoint)
  {
    DumpLookupSources(r);
    DumpLookupOptions(r);
    DumpLookupExtras(r);
  }

  lemma OptStrFieldOf(p: map<string, Json>, key: string, v: Option<string>, message: string)
    requires key in p && p[key] == OptStr(v)
    ensures OptStrField(p, key, message) == Success(v)
  {
  }

  /** Each field of the dump parses and validates back to the request's value. */
  lemma DumpFieldsParse(r: TranscriptionRequest)
    requires WellFormed(r)
    ensures var d := Dump(r);
            && OptStrField(d, "audio_url", "URL input should be a string or URL") == Success(r.audioUrl)
            && OptStrField(d, "audio_file", "Input should be a valid string") == Success(r.audioFile)
            && AndThen(OptStrField(d, "language", "Input should be a valid string"), ValidateLanguage)
               == Success(r.language)
            && AndThen(StrField(d, "task", "transcribe"), ValidateTask) == Success(r.task)
            && BoolField(d, "enable_diarization", true) == Success(r.enableDiarization)
            && AndThen(OptIntField(d, "num_speakers"), ValidateNumSpeakers) == Success(r.numSpeakers)
            && BoolField(d, "translate_to_english", false) == Success(r.translateToEnglish)
            && DictField(d, "extra_data") == Success(r.extraData)
            && OptStrField(d, "dispatcher_endpoint", "Input should be a valid string") == Success(r.dispatcherEndpoint)
  {
    var d := Dump(r);
    DumpLookup(r);
    OptStrFieldOf(d, "audio_url", r.audioUrl, "URL input should be a string or URL");
    OptStrFieldOf(d, "audio_file", r.audioFile, "Input should be a valid string");
    OptStrFieldOf(d, "language", r.language, "Input should be a valid string");
    OptStrFieldOf(d, "dispatcher_endpoint", r.dispatcherEndpoint, "Input should be a valid string");
    if r.language.Some? {
      LowerOfNoUpper(r.language.value);
    }
  }

  /** Dumping a validated request and constructing it again gives the same request. */
  lemma DumpRoundTrip(r: TranscriptionRequest)
    requires WellFormed(r)
    ensures FromPayload(Dump(r)) == Success(r)
  {
    DumpFieldsParse(r);
  }

  /** An empty payload yields the defaults: task "transcribe", diarization on,
      no translation, empty extra data. */
  lemma EmptyPayloadDefaults()
    ensures FromPayload(map[]) == Success(Defaults())
  {
  }

  /** A task other than "transcribe" or "translate" is rejected with the validator's message. */
  lemma UnknownTaskRejected(p: map<string, Json>, t: string)
    requires "task" in p && p["task"] == JStr(t) && !IsTask(t)
    ensures FromPayload(p).Failure?
    ensures FieldError("task", TaskMessage) in FromPayload(p).error
  {
  }

  /** A language code whose length is not 2 or 3 is rejected. */
  lemma BadLanguageRejected(p: map<string, Json>, code: string)
    requires "language" in p && p["language"] == JStr(code) && !(2 <= |code| <= 3)
    ensures FromPayload(p).Failure?
    ensures FieldError("language", LanguageMessage) in FromPayload(p).error
  {
  }

  /** A speaker count below one is rejected. */
  lemma FewSpeakersRejected(p: map<string, Json>, n: int)
    requires "num_speakers" in p && p["num_speakers"] == JInt(n) && n < 1
    ensures FromPayload(p).Failure?
    ensures FieldError("num_speakers", SpeakersMessage) in FromPayload(p).error
  {
  }

  /** Validating an already validated language code returns it unchanged. */
  lemma {:induction false} LanguageValidationIdempotent(v: Option<string>)
    requires ValidateLanguage(v).Success?
    ensures ValidateLanguage(ValidateLanguage(v).value) == ValidateLanguage(v)
  {
    if v.Some? {
      LowerIdempotent(v.value);
    }
  }
}
