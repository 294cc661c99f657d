/** The speech-to-text service: builds the recogniser options (the cached
    voice-activity options, the task, the lower-cased language), collects the
    recognised segments and their text, and combines them with a diarization
    table, falling back to the plain text when there is nothing to align. The
    recogniser itself is a parameter. */
module SttService {
  import opened Wrappers
  import opened Text
  import opened Config
  import opened Errors
  import opened Sorting
  import opened TranscriptionUtils

  /** The voice-activity detection options. */
  datatype VadOptions = VadOptions(
    threshold: real, minSpeechDurationMs: int, minSilenceDurationMs: int, speechPadMs: int)

  function VadFromSettings(s: Settings): VadOptions
  {
    VadOptions(s.vadThreshold, s.vadMinSpeechDurationMs, s.vadMinSilenceDurationMs, s.vadSpeechPadMs)
  }

  /** The keyword arguments handed to the recogniser; `language` is absent
      (None) when no language was given. */
  datatype RecognizerOptions = RecognizerOptions(
    task: string,
    wordTimestamps: bool,
    beamSize: int,
    vadFilter: bool,
    vadParameters: VadOptions,
    compressionRatioThreshold: real,
    languageDetectionThreshold: real,
    languageDetectionSegments: int,
    language: Option<string>)

  /** What the recogniser produces: its segments in generation order, the
      detected language and the audio duration. */
  datatype Recognition = Recognition(segments: seq<WhisperSegment>, language: string, duration: nat)

  /** The recogniser: audio path and options to its output, or the exception it raises. */
  type Recognizer = (string, RecognizerOptions) -> Result<Recognition, PyError>

  /** `(text, segments, language, duration)` as transcribe returns it. */
  datatype Transcription = Transcription(
    text: string, segments: seq<WhisperSegment>, language: string, duration: nat)

  /** `(diarized_output, text, language, duration)` as process_with_diarization returns it. */
  datatype DiarizedTranscription = DiarizedTranscription(
    diarizedOutput: string, text: string, language: string, duration: nat)

  /** The options dictionary: word timestamps and VAD filtering always on, the
      beam size and thresholds from the settings, the language lower-cased when
      given and left out otherwise. */
  function Options(s: Settings, vad: VadOptions, task: string, language: Option<string>): (o: RecognizerOptions)
    ensures o.task == task && o.wordTimestamps && o.vadFilter && o.vadParameters == vad
    ensures o.beamSize == s.beamSize
    ensures o.language.None? <==> language.None?
    ensures language.Some? ==>
              && NoUpper(o.language.value)
              && |o.language.value| == |language.value|
              && Lower(o.language.value) == Lower(language.value)
  {
    var lang := if language.Some? then Some(Lower(language.value)) else None;
    assert language.Some? ==> NoUpper(lang.value) && Lower(lang.value) == Lower(language.value) by {
      if language.Some? {
        LowerHasNoUpper(language.value);
        LowerIdempotent(language.value);
      }
    }
    RecognizerOptions(task, true, s.beamSize, true, vad, s.compressionRatioThreshold,
                      s.languageDetectionThreshold, s.languageDetectionSegments, lang)
  }

  // ---------------------------------------------------------------------------
  // The transcript text
  // ---------------------------------------------------------------------------

  function SegmentTexts(segments: seq<WhisperSegment>): (t: seq<string>)
    ensures |t| == |segments|
    ensures forall i :: 0 <= i < |segments| ==> t[i] == segments[i].text
  {
    if |segments| == 0 then []
    else SegmentTexts(segments[..|segments| - 1]) + [segments[|segments| - 1].text]
  }

  /** What the loop accumulates: each segment's text followed by one space. */
  function SpacedTexts(segments: seq<WhisperSegment>): string
  {
    if |segments| == 0 then ""
    else SpacedTexts(segments[..|segments| - 1]) + segments[|segments| - 1].text + " "
  }

  /** The transcript text: the accumulated text, stripped. */
  function FullText(segments: seq<WhisperSegment>): (r: string)
    ensures r == [] || (!IsSpace(r[0]) && !IsSpace(r[|r| - 1]))
    ensures Strip(r) == r
  {
    StripIsClean(SpacedTexts(segments));
    Strip(SpacedTexts(segments))
  }

  lemma {:induction false} SpacedTextsIsJoin(segments: seq<WhisperSegment>)
    requires |segments| > 0
    ensures SpacedTexts(segments) == Join(" ", SegmentTexts(segments)) + " "
    decreases |segments|
  {
    var init := segments[..|segments| - 1];
    var last := segments[|segments| - 1];
    assert SpacedTexts(segments) == SpacedTexts(init) + last.text + " ";
    assert SegmentTexts(segments) == SegmentTexts(init) + [last.text];
    if |init| == 0 {
      assert SpacedTexts(init) == "" && SegmentTexts(init) == [];
      assert SegmentTexts(segments) == [last.text];
    } else {
      var j := Join(" ", SegmentTexts(init));
      assert SpacedTexts(init) == j + " " by {
        SpacedTextsIsJoin(init);
      }
      assert Join(" ", SegmentTexts(segments)) == j + " " + last.text by {
        JoinSnoc(" ", SegmentTexts(init), last.text);
      }
    }
  }

  /** The transcript text is the segment texts joined by single spaces, with
      the surrounding whitespace stripped; it has no whitespace at either end. */
  lemma FullTextIsJoin(segments: seq<WhisperSegment>)
    ensures FullText(segments) == Strip(Join(" ", SegmentTexts(segments)))
    ensures FullText(segments) == [] ||
              (!IsSpace(FullText(segments)[0]) && !IsSpace(FullText(segments)[|FullText(segments)| - 1]))
  {
    if |segments| > 0 {
      SpacedTextsIsJoin(segments);
      StripDropsTrailingSpace(Join(" ", SegmentTexts(segments)), ' ');
    }
    StripIsClean(SpacedTexts(segments));
  }

  /** get_segments_dict: one row per segment, in order, each id one less than
      the segment's, times and text unchanged. */
  function SegmentsDict(segments: seq<WhisperSegment>): (rows: seq<TextRow>)
    ensures |rows| == |segments|
    ensures forall i :: 0 <= i < |segments| ==>
              rows[i] == TextRow(segments[i].id - 1, segments[i].start, segments[i].end, segments[i].text)
  {
    ConvertSegments(segments)
  }

  // ---------------------------------------------------------------------------
  // The diarized output
  // ---------------------------------------------------------------------------

  /** The diarized output: the rendered speaker lines, or the plain text when
      the diarization table is empty or no segment overlaps a turn. */
  function DiarizedOutput(text: string, rows: seq<TextRow>, turns: seq<Turn>): (r: string)
    ensures |turns| == 0 || Combine(rows, turns) == [] ==> r == text
    ensures |turns| > 0 && Combine(rows, turns) != [] ==> r != "" && r[|r| - 1] == '\n'
  {
    if |turns| == 0 then text
    else
      var full := Combine(rows, turns);
      if |full| == 0 then text else FormatDiarizedText(ConsecutiveSpeakers(Project(full)))
  }

  /** The plain text is returned exactly when nothing can be aligned; otherwise
      the output is the rendering of the merged speaker rows. */
  lemma DiarizedOutputCases(text: string, rows: seq<TextRow>, turns: seq<Turn>)
    ensures (forall i, j :: 0 <= i < |rows| && 0 <= j < |turns| ==> !Overlaps(rows[i], turns[j])) ==>
              DiarizedOutput(text, rows, turns) == text
    ensures (exists i, j :: 0 <= i < |rows| && 0 <= j < |turns| && Overlaps(rows[i], turns[j])) ==>
              && Combine(rows, turns) != []
              && DiarizedOutput(text, rows, turns) ==
                   FormatDiarizedText(ConsecutiveSpeakers(Project(Combine(rows, turns))))
  {
    CombineEmptyIff(rows, turns);
  }

  /** No row's text or speaker holds a line break. */
  predicate NoNewlines(rows: seq<Aligned>)
  {
    forall i :: 0 <= i < |rows| ==> '\n' !in rows[i].text && '\n' !in rows[i].speaker
  }

  lemma CombineNoNewlines(text: seq<TextRow>, turns: seq<Turn>)
    requires forall i :: 0 <= i < |text| ==> '\n' !in text[i].text
    requires forall j :: 0 <= j < |turns| ==> '\n' !in turns[j].speaker
    ensures NoNewlines(Project(Combine(text, turns)))
  {
    var p := Project(Combine(text, turns));
    forall n | 0 <= n < |p|
      ensures '\n' !in p[n].text && '\n' !in p[n].speaker
    {
      CombineRowIsBest(text, turns, n);
    }
  }

  lemma NoNewlinesStep(m: seq<Aligned>, x: Aligned)
    requires NoNewlines(m) && '\n' !in x.text && '\n' !in x.speaker
    ensures NoNewlines(m + [x])
    ensures |m| > 0 ==>
              var p := m[|m| - 1];
              NoNewlines(m[..|m| - 1] + [Aligned(p.start, x.end, p.text + " " + x.text, x.speaker)])
  {
    if |m| > 0 {
      var p := m[|m| - 1];
      assert '\n' !in p.text + " " + x.text;
    }
  }

  lemma {:induction false} MergeRunsNoNewlines(rows: seq<Aligned>)
    requires NoNewlines(rows)
    ensures NoNewlines(MergeRuns(rows))
    decreases |rows|
  {
    if |rows| > 0 {
      var init := rows[..|rows| - 1];
      var x := rows[|rows| - 1];
      assert NoNewlines(init) by {
        assert forall i :: 0 <= i < |init| ==> init[i] == rows[i];
      }
      MergeRunsNoNewlines(init);
      NoNewlinesStep(MergeRuns(init), x);
    }
  }

  lemma SortNoNewlines(s: seq<Aligned>, key: Aligned -> int)
    requires NoNewlines(s)
    ensures NoNewlines(SortBy(s, key))
  {
    var r := SortBy(s, key);
    forall i | 0 <= i < |r|
      ensures '\n' !in r[i].text && '\n' !in r[i].speaker
    {
      assert r[i] in multiset(s);
    }
  }

  /** When something is aligned and no segment text or speaker label holds a
      line break, the diarized output is one line per merged speaker row, in
      the merged table's order, each ended by a newline. */
  lemma DiarizedOutputLines(text: string, rows: seq<TextRow>, turns: seq<Turn>)
    requires exists i, j :: 0 <= i < |rows| && 0 <= j < |turns| && Overlaps(rows[i], turns[j])
    requires forall i :: 0 <= i < |rows| ==> '\n' !in rows[i].text
    requires forall j :: 0 <= j < |turns| ==> '\n' !in turns[j].speaker
    ensures var merged := ConsecutiveSpeakers(Project(Combine(rows, turns)));
            && |merged| > 0
            && SplitOn(DiarizedOutput(text, rows, turns), '\n') == Lines(merged) + [""]
  {
    DiarizedOutputCases(text, rows, turns);
    var p := Project(Combine(rows, turns));
    CombineNoNewlines(rows, turns);
    MergeRunsNoNewlines(p);
    SortNoNewlines(MergeRuns(p), StartKey);
    FormatDiarizedTextLines(ConsecutiveSpeakers(p));
  }

  // ---------------------------------------------------------------------------
  // The service object
  // ---------------------------------------------------------------------------

  class SttService {
    const settings: Settings
    var vadCache: Option<VadOptions>

    /** The cache only ever holds the options built from the settings. */
    ghost predicate Valid()
      reads this
    {
      vadCache.Some? ==> vadCache.value == VadFromSettings(settings)
    }

    constructor(settings: Settings)
      ensures this.settings == settings && vadCache == None
      ensures Valid()
    {
      this.settings := settings;
      vadCache := None;
    }

    /** The vad_options property: built from the settings on first use, then
        served from the cache. */
    method GetVadOptions() returns (v: VadOptions)
      requires Valid()
      modifies this
      ensures Valid()
      ensures v == VadFromSettings(settings)
      ensures vadCache == Some(v)
      ensures old(vadCache).Some? ==> v == old(vadCache).value
    {
      if vadCache.None? {
        vadCache := Some(VadFromSettings(settings));
      }
      v := vadCache.value;
    }

    /** transcribe: runs the recogniser with the options, collects every
        segment in generation order and the accumulated text, stripped; an
        exception from the recogniser propagates. */
    method Transcribe(recognize: Recognizer, audioFile: string, language: Option<string>, task: string)
      returns (r: Result<Transcription, PyError>)
      requires Valid()
      modifies this
      ensures Valid() && vadCache == Some(VadFromSettings(settings))
      ensures var out := recognize(audioFile, Options(settings, VadFromSettings(settings), task, language));
              && (out.Failure? ==> r == Failure(out.error))
              && (out.Success? ==>
                    r == Success(Transcription(FullText(out.value.segments), out.value.segments,
                                               out.value.language, out.value.duration)))
    {
      var vad := GetVadOptions();
      var out := recognize(audioFile, Options(settings, vad, task, language));
      if out.Failure? {
        return Failure(out.error);
      }
      var generated := out.value.segments;
      var segments: seq<WhisperSegment> := [];
      var text := "";
      for i := 0 to |generated|
        invariant segments == generated[..i]
        invariant text == SpacedTexts(generated[..i])
      {
        segments := segments + [generated[i]];
        text := text + generated[i].text + " ";
        assert generated[..i + 1][..i] == generated[..i];
      }
      assert generated[..|generated|] == generated;
      text := Strip(text);
      r := Success(Transcription(text, segments, out.value.language, out.value.duration));
    }

    /** process_with_diarization: transcribes, converts the segments and, when
        the diarization table has rows and some segment overlaps a turn, renders
        the merged speaker rows; otherwise the plain text stands in. Text,
        language and duration are those of the transcription. */
    method ProcessWithDiarization(recognize: Recognizer, audioFile: string, turns: seq<Turn>,
                                  language: Option<string>, task: string)
      returns (r: Result<DiarizedTranscription, PyError>)
      requires Valid()
      modifies this
      ensures Valid()
      ensures var out := recognize(audioFile, Options(settings, VadFromSettings(settings), task, language));
              && (out.Failure? ==> r == Failure(out.error))
              && (out.Success? ==>
                    var text := FullText(out.value.segments);
                    r == Success(DiarizedTranscription(
                           DiarizedOutput(text, ConvertSegments(out.value.segments), turns),
                           text, out.value.language, out.value.duration)))
    {
      var t := Transcribe(recognize, audioFile, language, task);
      if t.Failure? {
        return Failure(t.error);
      }
      var rows := SegmentsDict(t.value.segments);
      var diarized: string;
      if |turns| > 0 {
        var full := Combine(rows, turns);
        if |full| > 0 {
          var merged := CombineConsecutiveSpeakers(Project(full));
          diarized := FormatDiarizedText(merged);
        } else {
          diarized := t.value.text;
        }
      } else {
        diarized := t.value.text;
      }
      r := Success(DiarizedTranscription(diarized, t.value.text, t.value.language, t.value.duration));
    }
  }
}
