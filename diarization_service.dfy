/** The diarization service: a pipeline loaded once and dropped by cleanup,
    the speaker count defaulting from the settings, and the conversion of the
    pipeline's tracks into the turn table with canonical speaker labels
    (`SPEAKER_00` becomes `SPEAKER_1`, and so on). The pipeline is a parameter. */
module DiarizationService {
  import opened Wrappers
  import opened Text
  import opened Config
  import opened Errors
  import opened TranscriptionUtils

  // ---------------------------------------------------------------------------
  // Speaker labels
  // ---------------------------------------------------------------------------

  /** The label the pipeline gives its k-th speaker: `SPEAKER_` and k with at
      least two digits. */
  function PyannoteLabel(k: nat): string
  {
    "SPEAKER_" + (if k < 10 then "0" + NatToString(k) else NatToString(k))
  }

  function ValueError(piece: string): PyError
  {
    Raised("ValueError", "invalid literal for int() with base 10: '" + piece + "'")
  }

  /** The label rewrite as written: a `SPEAKER_00` prefix gives `SPEAKER_1`,
      another `SPEAKER_0` prefix gives `SPEAKER_{int(part after the first "_") + 1}`
      (int() raising on a non-number), and every other label is kept, so
      `SPEAKER_10` stays `SPEAKER_10`. */
  function CanonicalLabelAsWritten(name: string): (r: Result<string, PyError>)
    ensures !StartsWith(name, "SPEAKER_0") ==> r == Success(name)
    ensures r.Failure? ==> StartsWith(name, "SPEAKER_0") && !StartsWith(name, "SPEAKER_00")
    ensures r.Success? && StartsWith(name, "SPEAKER_0") ==> StartsWith(r.value, "SPEAKER_")
  {
    if StartsWith(name, "SPEAKER_00") then Success("SPEAKER_1")
    else if StartsWith(name, "SPEAKER_0") then
      assert name == "SPEAKER" + ['_'] + name[8..];
      SplitOnPrefix("SPEAKER", '_', name[8..]);
      var piece := SplitOn(name, '_')[1];
      match PyInt(piece)
      case None => Failure(ValueError(piece))
      case Some(n) =>
        assert ("SPEAKER_" + IntToString(n + 1))[..8] == "SPEAKER_";
        Success("SPEAKER_" + IntToString(n + 1))
    else Success(name)
  }

  /** The label rewrite as intended: every `SPEAKER_<digits>` label is
      renumbered from one, whatever its first digit; other labels are treated
      as written. */
  function CanonicalLabel(name: string): (r: Result<string, PyError>)
    ensures r.Failure? ==> r == CanonicalLabelAsWritten(name)
    ensures CanonicalLabelAsWritten(name).Success? ==> r.Success?
    ensures StartsWith(name, "SPEAKER_0") && r.Success? ==> StartsWith(r.value, "SPEAKER_")
  {
    if StartsWith(name, "SPEAKER_") && |name| > 8 && AllDigits(name[8..]) then
      assert ("SPEAKER_" + NatToString(DigitsValue(name[8..]) + 1))[..8] == "SPEAKER_";
      Success("SPEAKER_" + NatToString(DigitsValue(name[8..]) + 1))
    else CanonicalLabelAsWritten(name)
  }

  lemma {:induction false} DigitsOfPyannoteLabel(k: nat)
    ensures |PyannoteLabel(k)| > 8 && PyannoteLabel(k)[..8] == "SPEAKER_"
    ensures AllDigits(PyannoteLabel(k)[8..]) && DigitsValue(PyannoteLabel(k)[8..]) == k
  {
    var name := PyannoteLabel(k);
    if k < 10 {
      var d := "0" + NatToString(k);
      assert name[8..] == d;
      assert d[..|d| - 1] == "0";
      assert DigitsValue("0") == 0 by {
        assert "0"[..0] == [];
      }
    } else {
      assert name[8..] == NatToString(k);
      NatToStringValue(k);
    }
  }

  /** The pipeline's k-th speaker is renamed `SPEAKER_{k+1}`. */
  lemma CanonicalLabelOfPyannote(k: nat)
    ensures CanonicalLabel(PyannoteLabel(k)) == Success("SPEAKER_" + NatToString(k + 1))
  {
    DigitsOfPyannoteLabel(k);
  }

  /** Distinct speakers of the pipeline keep distinct labels. */
  lemma CanonicalLabelInjective(j: nat, k: nat)
    requires j != k
    ensures CanonicalLabel(PyannoteLabel(j)) != CanonicalLabel(PyannoteLabel(k))
  {
    CanonicalLabelOfPyannote(j);
    CanonicalLabelOfPyannote(k);
    var a := "SPEAKER_" + NatToString(j + 1);
    var b := "SPEAKER_" + NatToString(k + 1);
    if a == b {
      assert a[8..] == NatToString(j + 1) && b[8..] == NatToString(k + 1);
      NatToStringInjective(j + 1, k + 1);
    }
  }

  lemma {:induction false} LowSpeakerPiece(k: nat)
    requires 0 < k < 10
    ensures !StartsWith(PyannoteLabel(k), "SPEAKER_00") && StartsWith(PyannoteLabel(k), "SPEAKER_0")
    ensures |SplitOn(PyannoteLabel(k), '_')| > 1 && SplitOn(PyannoteLabel(k), '_')[1] == [('0'), DigitChar(k)]
  {
    var x := [('0'), DigitChar(k)];
    assert NatToString(k) == [DigitChar(k)];
    assert PyannoteLabel(k) == "SPEAKER" + ['_'] + x;
    assert PyannoteLabel(k)[9] == DigitChar(k) != '0';
    assert '_' !in "SPEAKER";
    SplitOnPrefix("SPEAKER", '_', x);
    SplitOnNoSep(x, '_');
  }

  lemma PyIntOfPaddedDigit(k: nat)
    requires k < 10
    ensures PyInt([('0'), DigitChar(k)]) == Some(k)
  {
    var x := [('0'), DigitChar(k)];
    assert Strip(x) == x by {
      TrimLeftNoSpace(x);
      assert TrimRight(x) == x;
    }
    assert AllDigits(x);
    assert DigitsValue(x) == k by {
      assert x[..1] == "0" && "0"[..0] == [];
    }
  }

  lemma AsWrittenFirstSpeaker()
    ensures CanonicalLabelAsWritten(PyannoteLabel(0)) == Success("SPEAKER_1")
  {
    assert NatToString(0) == "0";
    assert PyannoteLabel(0) == "SPEAKER_00";
    assert StartsWith(PyannoteLabel(0), "SPEAKER_00") by {
      assert PyannoteLabel(0)[..10] == PyannoteLabel(0);
    }
  }

  lemma AsWrittenLowSpeaker(k: nat)
    requires 0 < k < 10
    ensures CanonicalLabelAsWritten(PyannoteLabel(k)) == Success("SPEAKER_" + NatToString(k + 1))
  {
    LowSpeakerPiece(k);
    PyIntOfPaddedDigit(k);
  }

  /** For the first ten speakers the rewrite as written already gives the
      intended label. */
  lemma AsWrittenAgreesBelowTen(k: nat)
    requires k < 10
    ensures CanonicalLabelAsWritten(PyannoteLabel(k)) == CanonicalLabel(PyannoteLabel(k))
  {
    CanonicalLabelOfPyannote(k);
    if k == 0 {
      AsWrittenFirstSpeaker();
      assert NatToString(1) == "1";
      assert "SPEAKER_" + NatToString(k + 1) == "SPEAKER_1";
    } else {
      AsWrittenLowSpeaker(k);
    }
  }

  lemma EleventhLabelKept()
    ensures CanonicalLabelAsWritten(PyannoteLabel(10)) == Success("SPEAKER_10")
  {
    assert NatToString(10) == "10" by {
      assert NatToString(1) == "1" && DigitChar(0) == '0';
    }
    var name := PyannoteLabel(10);
    assert name == "SPEAKER_10";
    assert !StartsWith(name, "SPEAKER_0") && !StartsWith(name, "SPEAKER_00") by {
      assert name[8] == '1';
    }
  }

  /** The rewrite as written gives the pipeline's tenth and eleventh speakers
      the same label. */
  lemma AsWrittenMergesSpeakers()
    ensures CanonicalLabelAsWritten(PyannoteLabel(9)) == Success("SPEAKER_10")
    ensures CanonicalLabelAsWritten(PyannoteLabel(10)) == Success("SPEAKER_10")
  {
    assert CanonicalLabelAsWritten(PyannoteLabel(9)) == Success("SPEAKER_10") by {
      assert NatToString(10) == "10" by {
        assert NatToString(1) == "1" && DigitChar(0) == '0';
      }
      assert "SPEAKER_" + NatToString(9 + 1) == "SPEAKER_10";
      AsWrittenAgreesBelowTen(9);
      CanonicalLabelOfPyannote(9);
    }
    EleventhLabelKept();
  }

  // ---------------------------------------------------------------------------
  // The turn table
  // ---------------------------------------------------------------------------

  /** One track of the pipeline's result: its track key, times (centiseconds,
      already rounded) and raw speaker label. */
  datatype Track = Track(track: int, start: nat, end: nat, speaker: string)

  /** Rows already built put in front of the rest of the conversion. */
  function Prepend(turns: seq<Turn>, rest: Result<seq<Turn>, PyError>): Result<seq<Turn>, PyError>
  {
    if rest.Failure? then rest else Success(turns + rest.value)
  }

  /** A speaker-label rewrite: the new label, or the exception it raises. */
  type Relabel = string -> Result<string, PyError>

  /** The rows the loop builds with a given rewrite, in track order; the first
      label the rewrite rejects aborts the conversion with its error. */
  function ConvertTracks(tracks: seq<Track>, relabel: Relabel): (r: Result<seq<Turn>, PyError>)
    ensures r.Success? <==> forall i :: 0 <= i < |tracks| ==> relabel(tracks[i].speaker).Success?
    ensures r.Success? ==>
              && |r.value| == |tracks|
              && forall i :: 0 <= i < |tracks| ==>
                   r.value[i] == Turn(tracks[i].track, tracks[i].start, tracks[i].end,
                                      relabel(tracks[i].speaker).value)
    ensures r.Failure? ==>
              exists i :: && 0 <= i < |tracks| && relabel(tracks[i].speaker).Failure?
                          && r.error == relabel(tracks[i].speaker).error
                          && forall k :: 0 <= k < i ==> relabel(tracks[k].speaker).Success?
  {
    if |tracks| == 0 then Success([])
    else
      var t := tracks[0];
      var name := relabel(t.speaker);
      if name.Failure? then Failure(name.error)
      else
        var rest := ConvertTracks(tracks[1..], relabel);
        assert forall i :: 1 <= i < |tracks| ==> tracks[1..][i - 1] == tracks[i];
        Prepend([Turn(t.track, t.start, t.end, name.value)], rest)
  }

  lemma PrependNothing(rest: Result<seq<Turn>, PyError>)
    ensures Prepend([], rest) == rest
  {
    if rest.Success? {
      assert [] + rest.value == rest.value;
    }
  }

  lemma PrependTwice(a: seq<Turn>, b: seq<Turn>, rest: Result<seq<Turn>, PyError>)
    ensures Prepend(a, Prepend(b, rest)) == Prepend(a + b, rest)
  {
    if rest.Success? {
      assert a + (b + rest.value) == a + b + rest.value;
    }
  }

  /** With the corrected rewrite, a table whose labels are the pipeline's
      usual ones always converts, the k-th speaker is renamed `SPEAKER_{k+1}`
      and distinct speakers get distinct labels. */
  lemma ConvertPyannoteTracks(tracks: seq<Track>, speakers: seq<nat>)
    requires |speakers| == |tracks|
    requires forall i :: 0 <= i < |tracks| ==> tracks[i].speaker == PyannoteLabel(speakers[i])
    ensures ConvertTracks(tracks, CanonicalLabel).Success?
    ensures forall i :: 0 <= i < |tracks| ==>
              ConvertTracks(tracks, CanonicalLabel).value[i].speaker == "SPEAKER_" + NatToString(speakers[i] + 1)
    ensures forall i, j :: 0 <= i < |tracks| && 0 <= j < |tracks| && speakers[i] != speakers[j] ==>
              ConvertTracks(tracks, CanonicalLabel).value[i].speaker != ConvertTracks(tracks, CanonicalLabel).value[j].speaker
  {
    forall i | 0 <= i < |tracks|
      ensures CanonicalLabel(tracks[i].speaker) == Success("SPEAKER_" + NatToString(speakers[i] + 1))
    {
      CanonicalLabelOfPyannote(speakers[i]);
    }
    forall i, j | 0 <= i < |tracks| && 0 <= j < |tracks| && speakers[i] != speakers[j]
      ensures CanonicalLabel(tracks[i].speaker) != CanonicalLabel(tracks[j].speaker)
    {
      CanonicalLabelInjective(speakers[i], speakers[j]);
    }
  }

  /** With at most ten speakers the table built as written is the intended one. */
  lemma AsWrittenTableBelowTen(tracks: seq<Track>, speakers: seq<nat>)
    requires |speakers| == |tracks|
    requires forall i :: 0 <= i < |tracks| ==> speakers[i] < 10 && tracks[i].speaker == PyannoteLabel(speakers[i])
    ensures ConvertTracks(tracks, CanonicalLabelAsWritten) == ConvertTracks(tracks, CanonicalLabel)
  {
    forall i | 0 <= i < |tracks|
      ensures CanonicalLabelAsWritten(tracks[i].speaker) == CanonicalLabel(tracks[i].speaker)
    {
      AsWrittenAgreesBelowTen(speakers[i]);
    }
    ConvertPyannoteTracks(tracks, speakers);
    assert ConvertTracks(tracks, CanonicalLabelAsWritten).value == ConvertTracks(tracks, CanonicalLabel).value;
  }

  /** As written, a table holding the pipeline's tenth and eleventh speakers
      gives both rows the label `SPEAKER_10`, where the corrected rewrite
      keeps them apart. */
  lemma AsWrittenTableMergesSpeakers(tracks: seq<Track>, i: nat, j: nat)
    requires i < |tracks| && j < |tracks|
    requires tracks[i].speaker == PyannoteLabel(9) && tracks[j].speaker == PyannoteLabel(10)
    requires ConvertTracks(tracks, CanonicalLabelAsWritten).Success?
    ensures ConvertTracks(tracks, CanonicalLabelAsWritten).value[i].speaker == "SPEAKER_10"
    ensures ConvertTracks(tracks, CanonicalLabelAsWritten).value[j].speaker == "SPEAKER_10"
    ensures ConvertTracks(tracks, CanonicalLabel).Success? ==>
              ConvertTracks(tracks, CanonicalLabel).value[i].speaker != ConvertTracks(tracks, CanonicalLabel).value[j].speaker
  {
    AsWrittenMergesSpeakers();
    CanonicalLabelInjective(9, 10);
  }

  /** `num_speakers or default`: None and 0 both fall back to the setting. */
  function EffectiveNumSpeakers(requested: Option<int>, default: int): (n: int)
    ensures requested.Some? && requested.value != 0 ==> n == requested.value
    ensures requested.None? || requested.value == 0 ==> n == default
  {
    if requested.Some? && requested.value != 0 then requested.value else default
  }

  // ---------------------------------------------------------------------------
  // The service object
  // ---------------------------------------------------------------------------

  /** A loaded pipeline, known by the model it was loaded from. */
  datatype Pipeline = Pipeline(model: string)

  datatype Waveform = Waveform(samples: seq<real>, sampleRate: nat)

  /** What the pipeline is run on: the audio file when a non-empty path is
      given, the waveform otherwise. */
  datatype DiarizationInput = AudioPath(path: string) | WaveformInput(waveform: Waveform)

  function InputOf(waveform: Waveform, audioFilePath: Option<string>): (input: DiarizationInput)
    ensures input.AudioPath? <==> audioFilePath.Some? && audioFilePath.value != ""
  {
    if audioFilePath.Some? && audioFilePath.value != "" then AudioPath(audioFilePath.value)
    else WaveformInput(waveform)
  }

  /** Loading a pipeline by model name, or the exception it raises. */
  type PipelineLoader = string -> Result<Pipeline, PyError>

  /** Running a pipeline with a speaker count: its tracks, or the exception it raises. */
  type PipelineRunner = (Pipeline, DiarizationInput, int) -> Result<seq<Track>, PyError>

  /** The table diarize returns for the pipeline's outcome, with a given rewrite. */
  function TableOf(outcome: Result<seq<Track>, PyError>, relabel: Relabel): (r: Result<seq<Turn>, PyError>)
    ensures outcome.Failure? ==> r == Failure(outcome.error)
    ensures outcome.Success? && |outcome.value| == 0 ==> r == Success([])
    ensures outcome.Success? && r.Success? ==> |r.value| == |outcome.value|
  {
    if outcome.Failure? then Failure(outcome.error) else ConvertTracks(outcome.value, relabel)
  }

  /** The loop over the pipeline's tracks: each label is rewritten and its
      row appended; a label the rewrite rejects aborts with its error. */
  method BuildTable(tracks: seq<Track>, relabel: Relabel) returns (r: Result<seq<Turn>, PyError>)
    ensures r == ConvertTracks(tracks, relabel)
  {
    var turns: seq<Turn> := [];
    assert tracks[0..] == tracks;
    PrependNothing(ConvertTracks(tracks, relabel));
    for i := 0 to |tracks|
      invariant ConvertTracks(tracks, relabel) == Prepend(turns, ConvertTracks(tracks[i..], relabel))
    {
      var name := relabel(tracks[i].speaker);
      if name.Failure? {
        assert tracks[i..][0] == tracks[i];
        assert ConvertTracks(tracks[i..], relabel) == Failure(name.error);
        return Failure(name.error);
      }
      var turn := Turn(tracks[i].track, tracks[i].start, tracks[i].end, name.value);
      assert tracks[i..][1..] == tracks[i + 1..];
      PrependTwice(turns, [turn], ConvertTracks(tracks[i + 1..], relabel));
      turns := turns + [turn];
    }
    assert ConvertTracks(tracks[|tracks|..], relabel) == Success([]);
    assert turns + [] == turns;
    r := Success(turns);
  }

  class DiarizationService {
    const settings: Settings
    var pipeline: Option<Pipeline>
    var initialized: bool

    /** An initialised service has a pipeline. */
    ghost predicate Valid()
      reads this
    {
      initialized ==> pipeline.Some?
    }

    constructor(settings: Settings)
      ensures this.settings == settings && pipeline == None && !initialized
      ensures Valid()
    {
      this.settings := settings;
      pipeline := None;
      initialized := false;
    }

    /** _initialize_pipeline: nothing happens once initialised; otherwise the
        configured model is loaded and the flag set, and a loading error is
        re-raised with the flag still clear. */
    method InitializePipeline(load: PipelineLoader) returns (err: Option<PyError>)
      requires Valid()
      modifies this
      ensures Valid()
      ensures old(initialized) ==> err == None && initialized && pipeline == old(pipeline)
      ensures !old(initialized) ==>
                var loaded := load(settings.diarizationModel);
                && (loaded.Success? ==> err == None && initialized && pipeline == Some(loaded.value))
                && (loaded.Failure? ==> err == Some(loaded.error) && !initialized && pipeline == old(pipeline))
    {
      if initialized {
        return None;
      }
      var loaded := load(settings.diarizationModel);
      if loaded.Failure? {
        return Some(loaded.error);
      }
      pipeline := Some(loaded.value);
      initialized := true;
      err := None;
    }

    /** diarize: initialises on first use, runs the pipeline with the
        requested or default speaker count, and converts its tracks into the
        turn table with the label rewrite as written; every error propagates. */
    method Diarize(load: PipelineLoader, run: PipelineRunner, waveform: Waveform,
                   audioFilePath: Option<string>, numSpeakers: Option<int>)
      returns (r: Result<seq<Turn>, PyError>)
      requires Valid()
      modifies this
      ensures Valid()
      ensures !old(initialized) && load(settings.diarizationModel).Failure? ==>
                r == Failure(load(settings.diarizationModel).error) && !initialized
      ensures old(initialized) || load(settings.diarizationModel).Success? ==>
                && initialized
                && pipeline == (if old(initialized) then old(pipeline) else Some(load(settings.diarizationModel).value))
                && r == TableOf(run(pipeline.value, InputOf(waveform, audioFilePath),
                                    EffectiveNumSpeakers(numSpeakers, settings.defaultNumSpeakers)),
                             CanonicalLabelAsWritten)
    {
      if !initialized {
        var err := InitializePipeline(load);
        if err.Some? {
          return Failure(err.value);
        }
      }
      var count := EffectiveNumSpeakers(numSpeakers, settings.defaultNumSpeakers);
      var outcome := run(pipeline.value, InputOf(waveform, audioFilePath), count);
      if outcome.Failure? {
        return Failure(outcome.error);
      }
      r := BuildTable(outcome.value, CanonicalLabelAsWritten);
    }

    /** cleanup: with a pipeline, drops it and clears the flag; without one,
        does nothing. */
    method Cleanup()
      requires Valid()
      modifies this
      ensures Valid()
      ensures old(pipeline).Some? ==> pipeline == None && !initialized
      ensures old(pipeline).None? ==> pipeline == None && initialized == old(initialized)
    {
      if pipeline.Some? {
        pipeline := None;
        initialized := false;
      }
    }
  }
}
