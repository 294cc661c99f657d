/** The speaker-alignment engine: recognised segments are matched to
    diarization turns by inclusive interval overlap, each segment keeps the turn
    it overlaps longest (the first such turn on a tie), runs of one speaker are
    merged, and the result is rendered as `SPEAKER: [HH:MM:SS - HH:MM:SS]--text`
    lines. All times are integer centiseconds. */
module TranscriptionUtils {
  import opened Wrappers
  import opened Text
  import opened Sorting

  // ---------------------------------------------------------------------------
  // Segments
  // ---------------------------------------------------------------------------

  /** A segment as the recogniser yields it, numbered from 1; the fields the
      conversion discards (seek, tokens, probabilities, words) are not kept. */
  datatype WhisperSegment = WhisperSegment(id: int, start: nat, end: nat, text: string)

  /** A row of the text table: `{"id", "start", "end", "text"}`. */
  datatype TextRow = TextRow(id: int, start: nat, end: nat, text: string)

  /** convert_faster_whisper_segments_to_dict: one row per segment, in order,
      numbered from 0. */
  function ConvertSegments(segments: seq<WhisperSegment>): (rows: seq<TextRow>)
    ensures |rows| == |segments|
    ensures forall i :: 0 <= i < |segments| ==>
              && rows[i].id + 1 == segments[i].id
              && rows[i].start == segments[i].start
              && rows[i].end == segments[i].end
              && rows[i].text == segments[i].text
  {
    if |segments| == 0 then []
    else
      var s := segments[|segments| - 1];
      ConvertSegments(segments[..|segments| - 1]) + [TextRow(s.id - 1, s.start, s.end, s.text)]
  }

  predicate UniqueIds(rows: seq<TextRow>)
  {
    forall i, j :: 0 <= i < j < |rows| ==> rows[i].id != rows[j].id
  }

  /** The recogniser numbers its segments 1, 2, 3, ...; the converted rows are
      then numbered 0, 1, 2, ... and no two share an id. */
  lemma ConvertNumbersFromZero(segments: seq<WhisperSegment>)
    requires forall i :: 0 <= i < |segments| ==> segments[i].id == i + 1
    ensures forall i :: 0 <= i < |segments| ==> ConvertSegments(segments)[i].id == i
    ensures UniqueIds(ConvertSegments(segments))
  {
  }

  // ---------------------------------------------------------------------------
  // Overlap of a segment with a diarization turn
  // ---------------------------------------------------------------------------

  /** A row of the diarization table: `{"index", "start", "end", "speaker"}`. */
  datatype Turn = Turn(index: int, start: nat, end: nat, speaker: string)

  /** The overlap mask: touching intervals count as overlapping. */
  predicate Overlaps(row: TextRow, turn: Turn)
  {
    !(row.end < turn.start || row.start > turn.end)
  }

  /** A text row tagged with one overlapping turn (`speaker_start`,
      `speaker_end`, `speaker`). */
  datatype OverlapRow = OverlapRow(
    id: int, start: nat, end: nat, text: string,
    speakerStart: nat, speakerEnd: nat, speaker: string)

  function Pair(row: TextRow, turn: Turn): OverlapRow
  {
    OverlapRow(row.id, row.start, row.end, row.text, turn.start, turn.end, turn.speaker)
  }

  function Min(a: int, b: int): int { if a <= b then a else b }
  function Max(a: int, b: int): int { if a >= b then a else b }

  /** overlap_duration = min(end, speaker_end) - max(start, speaker_start); for
      well-formed intervals it is non-negative exactly when they overlap. */
  function Duration(r: OverlapRow): (d: int)
    ensures r.start <= r.end && r.speakerStart <= r.speakerEnd ==>
              (d >= 0 <==> !(r.end < r.speakerStart || r.start > r.speakerEnd))
    ensures d <= r.end - r.start && d <= r.speakerEnd - r.speakerStart
  {
    Min(r.end, r.speakerEnd) - Max(r.start, r.speakerStart)
  }

  /** The rows of the text table that overlap one turn, in table order. */
  function TurnRows(text: seq<TextRow>, turn: Turn): (rows: seq<OverlapRow>)
    ensures forall r :: r in rows ==>
              exists i :: 0 <= i < |text| && Overlaps(text[i], turn) && r == Pair(text[i], turn)
    ensures forall i :: 0 <= i < |text| && Overlaps(text[i], turn) ==> Pair(text[i], turn) in rows
  {
    if |text| == 0 then []
    else
      var init := text[..|text| - 1];
      var last := text[|text| - 1];
      var rows := TurnRows(init, turn);
      assert forall i :: 0 <= i < |init| ==> init[i] == text[i];
      if Overlaps(last, turn) then rows + [Pair(last, turn)] else rows
  }

  /** pd.concat of the per-turn overlap tables, turn by turn. */
  function AllOverlaps(text: seq<TextRow>, turns: seq<Turn>): (rows: seq<OverlapRow>)
    ensures forall r :: r in rows ==>
              exists i, j :: 0 <= i < |text| && 0 <= j < |turns| && Overlaps(text[i], turns[j])
                             && r == Pair(text[i], turns[j])
    ensures forall i, j :: 0 <= i < |text| && 0 <= j < |turns| && Overlaps(text[i], turns[j]) ==>
              Pair(text[i], turns[j]) in rows
  {
    if |turns| == 0 then []
    else
      var init := turns[..|turns| - 1];
      assert forall j :: 0 <= j < |init| ==> init[j] == turns[j];
      AllOverlaps(text, init) + TurnRows(text, turns[|turns| - 1])
  }

  // ---------------------------------------------------------------------------
  // groupby("id")["overlap_duration"].idxmax()
  // ---------------------------------------------------------------------------

  /** The row idxmax picks for one id: the first row, in table order, whose
      overlap is the longest among the rows with that id. */
  function Best(rows: seq<OverlapRow>, id: int): (b: Option<OverlapRow>)
    ensures b.None? <==> forall i :: 0 <= i < |rows| ==> rows[i].id != id
    ensures b.Some? ==> b.value.id == id
    ensures b.Some? ==>
              forall i :: 0 <= i < |rows| && rows[i].id == id ==> Duration(rows[i]) <= Duration(b.value)
    ensures b.Some? ==>
              exists k :: 0 <= k < |rows| && rows[k] == b.value
                          && forall i :: 0 <= i < k && rows[i].id == id ==> Duration(rows[i]) < Duration(b.value)
  {
    if |rows| == 0 then None
    else
      var init := rows[..|rows| - 1];
      var last := rows[|rows| - 1];
      var prev := Best(init, id);
      assert forall i :: 0 <= i < |init| ==> init[i] == rows[i];
      if last.id == id && (prev.None? || Duration(last) > Duration(prev.value)) then Some(last) else prev
  }

  predicate Increasing(ids: seq<int>)
  {
    forall i, j :: 0 <= i < j < |ids| ==> ids[i] < ids[j]
  }

  function InsertId(x: int, ids: seq<int>): (r: seq<int>)
    requires Increasing(ids)
    ensures Increasing(r)
    ensures forall y :: y in r <==> y in ids || y == x
  {
    if |ids| == 0 then [x]
    else if x < ids[0] then [x] + ids
    else if x == ids[0] then ids
    else
      var rest := InsertId(x, ids[1..]);
      assert forall k :: 0 <= k < |rest| ==> ids[0] < rest[k] by {
        forall k | 0 <= k < |rest|
          ensures ids[0] < rest[k]
        {
          assert rest[k] in rest;
        }
      }
      [ids[0]] + rest
  }

  /** The group keys of groupby("id"): every id once, ascending. */
  function GroupIds(rows: seq<OverlapRow>): (ids: seq<int>)
    ensures Increasing(ids)
    ensures forall k :: k in ids <==> exists i :: 0 <= i < |rows| && rows[i].id == k
  {
    if |rows| == 0 then []
    else
      var init := rows[..|rows| - 1];
      assert forall i :: 0 <= i < |init| ==> init[i] == rows[i];
      InsertId(rows[|rows| - 1].id, GroupIds(init))
  }

  function PickBest(rows: seq<OverlapRow>, ids: seq<int>): (out: seq<OverlapRow>)
    requires forall n :: 0 <= n < |ids| ==> Best(rows, ids[n]).Some?
    ensures |out| == |ids|
    ensures forall n :: 0 <= n < |ids| ==> out[n] == Best(rows, ids[n]).value
  {
    if |ids| == 0 then []
    else
      assert forall n :: 1 <= n < |ids| ==> ids[1..][n - 1] == ids[n];
      [Best(rows, ids[0]).value] + PickBest(rows, ids[1..])
  }

  /** combine_whisper_and_pyannote: for each id, ascending, the row idxmax picks
      from the concatenated overlap table; empty when nothing overlaps. */
  function Combine(text: seq<TextRow>, turns: seq<Turn>): (out: seq<OverlapRow>)
    ensures forall a, b :: 0 <= a < b < |out| ==> out[a].id < out[b].id
  {
    var all := AllOverlaps(text, turns);
    if all == [] then []
    else
      var ids := GroupIds(all);
      assert forall n :: 0 <= n < |ids| ==> ids[n] in ids;
      PickBest(all, ids)
  }

  /** Each combined row is an overlapping (segment, turn) pair whose overlap is
      the longest for its segment id, and no earlier row of the concatenated
      table with that id is as long. */
  lemma CombineRowIsBest(text: seq<TextRow>, turns: seq<Turn>, n: nat)
    requires n < |Combine(text, turns)|
    ensures Combine(text, turns)[n] in AllOverlaps(text, turns)
    ensures Combine(text, turns)[n] == Best(AllOverlaps(text, turns), Combine(text, turns)[n].id).value
    ensures exists i, j :: 0 <= i < |text| && 0 <= j < |turns| && Overlaps(text[i], turns[j])
                           && Combine(text, turns)[n] == Pair(text[i], turns[j])
    ensures forall r :: r in AllOverlaps(text, turns) && r.id == Combine(text, turns)[n].id ==>
              Duration(r) <= Duration(Combine(text, turns)[n])
  {
    var all := AllOverlaps(text, turns);
    var ids := GroupIds(all);
    assert ids[n] in ids;
    var b := Combine(text, turns)[n];
    assert b == Best(all, ids[n]).value;
    forall r | r in all && r.id == b.id
      ensures Duration(r) <= Duration(b)
    {
      var q :| 0 <= q < |all| && all[q] == r;
    }
  }

  /** Every segment that overlaps some turn has a row in the combined table. */
  lemma CombineCovers(text: seq<TextRow>, turns: seq<Turn>, i: nat, j: nat)
    requires i < |text| && j < |turns| && Overlaps(text[i], turns[j])
    ensures exists n :: 0 <= n < |Combine(text, turns)| && Combine(text, turns)[n].id == text[i].id
  {
    var all := AllOverlaps(text, turns);
    assert Pair(text[i], turns[j]) in all;
    var ids := GroupIds(all);
    assert text[i].id in ids;
    var n :| 0 <= n < |ids| && ids[n] == text[i].id;
    assert Combine(text, turns)[n].id == text[i].id;
  }

  /** The combined table is empty exactly when no segment overlaps any turn. */
  lemma CombineEmptyIff(text: seq<TextRow>, turns: seq<Turn>)
    ensures Combine(text, turns) == [] <==>
              forall i, j :: 0 <= i < |text| && 0 <= j < |turns| ==> !Overlaps(text[i], turns[j])
  {
    if Combine(text, turns) != [] {
      CombineRowIsBest(text, turns, 0);
    } else {
      forall i, j | 0 <= i < |text| && 0 <= j < |turns|
        ensures !Overlaps(text[i], turns[j])
      {
        if Overlaps(text[i], turns[j]) {
          CombineCovers(text, turns, i, j);
        }
      }
    }
  }

  // ---------------------------------------------------------------------------
  // The turn each segment ends up with
  // ---------------------------------------------------------------------------

  /** j is the first turn, in table order, whose overlap with the segment is
      the longest, or None when no turn overlaps it. */
  predicate IsChoice(row: TextRow, turns: seq<Turn>, j: Option<nat>)
  {
    && (j.None? <==> forall k :: 0 <= k < |turns| ==> !Overlaps(row, turns[k]))
    && (j.Some? ==> j.value < |turns| && Overlaps(row, turns[j.value]))
    && (j.Some? ==> forall k :: 0 <= k < |turns| && Overlaps(row, turns[k]) ==>
          Duration(Pair(row, turns[k])) <= Duration(Pair(row, turns[j.value])))
    && (j.Some? ==> forall k :: 0 <= k < j.value && Overlaps(row, turns[k]) ==>
          Duration(Pair(row, turns[k])) < Duration(Pair(row, turns[j.value])))
  }

  /** The choice for one more turn: the new turn when it overlaps strictly
      longer than the choice so far (or nothing overlapped so far). */
  lemma ChoiceStep(row: TextRow, turns: seq<Turn>, prev: Option<nat>)
    requires |turns| > 0 && IsChoice(row, turns[..|turns| - 1], prev)
    ensures var last := turns[|turns| - 1];
            IsChoice(row, turns,
                     if Overlaps(row, last) &&
                        (prev.None? || Duration(Pair(row, last)) > Duration(Pair(row, turns[prev.value])))
                     then Some(|turns| - 1) else prev)
  {
    var init := turns[..|turns| - 1];
    assert forall k :: 0 <= k < |init| ==> init[k] == turns[k];
  }

  /** The first turn, in table order, whose overlap with the segment is the
      longest; None when no turn overlaps it. */
  function ChosenTurn(row: TextRow, turns: seq<Turn>): (j: Option<nat>)
    ensures IsChoice(row, turns, j)
  {
    if |turns| == 0 then None
    else
      var prev := ChosenTurn(row, turns[..|turns| - 1]);
      var last := turns[|turns| - 1];
      ChoiceStep(row, turns, prev);
      if Overlaps(row, last) && (prev.None? || Duration(Pair(row, last)) > Duration(Pair(row, turns[prev.value])))
      then Some(|turns| - 1)
      else prev
  }

  lemma {:induction false} BestAppendOther(a: seq<OverlapRow>, b: seq<OverlapRow>, id: int)
    requires forall i :: 0 <= i < |b| ==> b[i].id != id
    ensures Best(a + b, id) == Best(a, id)
    decreases |b|
  {
    if |b| > 0 {
      var init := b[..|b| - 1];
      assert (a + b)[..|a + b| - 1] == a + init;
      assert (a + b)[|a + b| - 1] == b[|b| - 1];
      assert b[|b| - 1].id != id;
      assert forall q :: 0 <= q < |init| ==> init[q] == b[q];
      BestAppendOther(a, init, id);
      assert Best(a + b, id) == Best(a + init, id);
    } else {
      assert a + b == a;
    }
  }

  /** The running choice after one more row: replaced only by a strictly longer overlap. */
  function Step(best: Option<OverlapRow>, r: OverlapRow): Option<OverlapRow>
  {
    if best.None? || Duration(r) > Duration(best.value) then Some(r) else best
  }

  lemma {:induction false} BestTurnRows(a: seq<OverlapRow>, text: seq<TextRow>, turn: Turn, i: nat)
    requires UniqueIds(text) && i < |text|
    ensures Best(a + TurnRows(text, turn), text[i].id)
            == if Overlaps(text[i], turn) then Step(Best(a, text[i].id), Pair(text[i], turn)) else Best(a, text[i].id)
    decreases |text|
  {
    var id := text[i].id;
    var init := text[..|text| - 1];
    var last := text[|text| - 1];
    var prev := TurnRows(init, turn);
    if i == |text| - 1 {
      forall q | 0 <= q < |prev|
        ensures prev[q].id != id
      {
        assert prev[q] in prev;
      }
      BestAppendOther(a, prev, id);
      if Overlaps(last, turn) {
        assert a + TurnRows(text, turn) == (a + prev) + [Pair(last, turn)];
        assert ((a + prev) + [Pair(last, turn)])[..|a + prev|] == a + prev;
      } else {
        assert a + TurnRows(text, turn) == a + prev;
      }
    } else {
      assert init[i] == text[i];
      assert UniqueIds(init);
      BestTurnRows(a, init, turn, i);
      if Overlaps(last, turn) {
        assert a + TurnRows(text, turn) == (a + prev) + [Pair(last, turn)];
        assert ((a + prev) + [Pair(last, turn)])[..|a + prev|] == a + prev;
        assert last.id != id;
      } else {
        assert a + TurnRows(text, turn) == a + prev;
      }
    }
  }

  /** With distinct segment ids, the row kept for a segment pairs it with its
      chosen turn: the first turn among those it overlaps longest. */
  lemma {:induction false} BestIsChosenTurn(text: seq<TextRow>, turns: seq<Turn>, i: nat)
    requires UniqueIds(text) && i < |text|
    ensures Best(AllOverlaps(text, turns), text[i].id)
            == if ChosenTurn(text[i], turns).Some? then Some(Pair(text[i], turns[ChosenTurn(text[i], turns).value]))
               else None
    decreases |turns|
  {
    if |turns| > 0 {
      var init := turns[..|turns| - 1];
      var last := turns[|turns| - 1];
      var prev := ChosenTurn(text[i], init);
      BestIsChosenTurn(text, init, i);
      BestTurnRows(AllOverlaps(text, init), text, last, i);
      assert AllOverlaps(text, turns) == AllOverlaps(text, init) + TurnRows(text, last);
      if prev.Some? {
        assert init[prev.value] == turns[prev.value];
      }
    }
  }

  /** Every segment that overlaps some turn appears in the combined table paired
      with its chosen turn. */
  lemma CombineKeepsChosenTurn(text: seq<TextRow>, turns: seq<Turn>, i: nat)
    requires UniqueIds(text) && i < |text|
    requires ChosenTurn(text[i], turns).Some?
    ensures Pair(text[i], turns[ChosenTurn(text[i], turns).value]) in Combine(text, turns)
  {
    var j := ChosenTurn(text[i], turns).value;
    var all := AllOverlaps(text, turns);
    BestIsChosenTurn(text, turns, i);
    assert Pair(text[i], turns[j]) in all;
    var ids := GroupIds(all);
    assert text[i].id in ids;
    var n :| 0 <= n < |ids| && ids[n] == text[i].id;
    assert Combine(text, turns)[n] == Best(all, text[i].id).value;
  }

  // ---------------------------------------------------------------------------
  // combine_consecutive_speakers
  // ---------------------------------------------------------------------------

  /** A row of the speaker table after column selection: start, end, text, speaker. */
  datatype Aligned = Aligned(start: nat, end: nat, text: string, speaker: string)

  /** `.loc[:, ["start", "end", "text", "speaker"]]` of the combined table. */
  function Project(rows: seq<OverlapRow>): (out: seq<Aligned>)
    ensures |out| == |rows|
    ensures forall i :: 0 <= i < |rows| ==>
              out[i] == Aligned(rows[i].start, rows[i].end, rows[i].text, rows[i].speaker)
  {
    if |rows| == 0 then []
    else [Aligned(rows[0].start, rows[0].end, rows[0].text, rows[0].speaker)] + Project(rows[1..])
  }

  /** No two neighbouring rows have the same speaker. */
  ghost predicate NoRepeatedSpeaker(rows: seq<Aligned>)
  {
    forall j, k :: 0 <= j < k < |rows| && k == j + 1 ==> rows[j].speaker != rows[k].speaker
  }

  /** Row-by-row merge: a row whose speaker equals the previous row's absorbs
      it, keeping the earlier start and joining the texts with one space. */
  function MergeRuns(rows: seq<Aligned>): (m: seq<Aligned>)
    ensures |m| <= |rows|
    ensures m == [] <==> rows == []
    ensures m != [] ==> m[|m| - 1].speaker == rows[|rows| - 1].speaker && m[|m| - 1].end == rows[|rows| - 1].end
    ensures NoRepeatedSpeaker(m)
  {
    if |rows| == 0 then []
    else
      var m := MergeRuns(rows[..|rows| - 1]);
      var x := rows[|rows| - 1];
      if |m| > 0 && m[|m| - 1].speaker == x.speaker then
        var prev := m[|m| - 1];
        m[..|m| - 1] + [Aligned(prev.start, x.end, prev.text + " " + x.text, x.speaker)]
      else m + [x]
  }

  /** A sequence of sequences laid end to end. */
  function Flatten<T>(parts: seq<seq<T>>): seq<T>
  {
    if |parts| == 0 then [] else Flatten(parts[..|parts| - 1]) + parts[|parts| - 1]
  }

  /** One run: non-empty and a single speaker throughout. */
  predicate IsRun(run: seq<Aligned>)
  {
    |run| > 0 && forall i :: 0 <= i < |run| ==> run[i].speaker == run[0].speaker
  }

  /** The runs of equal speakers, cut wherever the speaker changes. */
  function Runs(rows: seq<Aligned>): (runs: seq<seq<Aligned>>)
    ensures forall k :: 0 <= k < |runs| ==> |runs[k]| > 0
  {
    if |rows| == 0 then []
    else
      var runs := Runs(rows[..|rows| - 1]);
      var x := rows[|rows| - 1];
      if |runs| > 0 && runs[|runs| - 1][0].speaker == x.speaker then
        runs[..|runs| - 1] + [runs[|runs| - 1] + [x]]
      else
        runs + [[x]]
  }

  lemma RunsStep(rows: seq<Aligned>)
    requires |rows| > 0
    ensures var runs := Runs(rows[..|rows| - 1]);
            var x := rows[|rows| - 1];
            Runs(rows) == if |runs| > 0 && runs[|runs| - 1][0].speaker == x.speaker
                          then runs[..|runs| - 1] + [runs[|runs| - 1] + [x]]
                          else runs + [[x]]
  {
  }

  lemma FlattenSnoc<T>(parts: seq<seq<T>>, p: seq<T>)
    ensures Flatten(parts + [p]) == Flatten(parts) + p
  {
    assert (parts + [p])[..|parts|] == parts;
  }

  /** Laid end to end, the runs give the input back. */
  lemma {:induction false} RunsFlatten(rows: seq<Aligned>)
    ensures Flatten(Runs(rows)) == rows
    decreases |rows|
  {
    if |rows| > 0 {
      var init := rows[..|rows| - 1];
      var x := rows[|rows| - 1];
      assert rows == init + [x];
      var runs: seq<seq<Aligned>> := Runs(init);
      RunsFlatten(init);
      RunsStep(rows);
      if |runs| > 0 && runs[|runs| - 1][0].speaker == x.speaker {
        var last := runs[|runs| - 1];
        var front := runs[..|runs| - 1];
        assert runs == front + [last];
        FlattenSnoc(front, last);
        FlattenSnoc(front, last + [x]);
        calc {
          Flatten(Runs(rows));
          Flatten(front + [last + [x]]);
          Flatten(front) + (last + [x]);
          (Flatten(front) + last) + [x];
          init + [x];
        }
      } else {
        FlattenSnoc(runs, [x]);
      }
    }
  }

  /** Each run is a single speaker. */
  lemma {:induction false} RunsUniform(rows: seq<Aligned>)
    ensures forall k :: 0 <= k < |Runs(rows)| ==> IsRun(Runs(rows)[k])
    decreases |rows|
  {
    if |rows| > 0 {
      var init := rows[..|rows| - 1];
      var x := rows[|rows| - 1];
      var runs: seq<seq<Aligned>> := Runs(init);
      var r := Runs(rows);
      RunsUniform(init);
      RunsStep(rows);
      if |runs| > 0 && runs[|runs| - 1][0].speaker == x.speaker {
        var last := runs[|runs| - 1] + [x];
        assert IsRun(last) by {
          assert IsRun(runs[|runs| - 1]);
          forall i | 0 <= i < |last|
            ensures last[i].speaker == last[0].speaker
          {
            if i < |last| - 1 {
              assert last[i] == runs[|runs| - 1][i];
            }
          }
        }
        assert r == runs[..|runs| - 1] + [last];
        forall k | 0 <= k < |r|
          ensures IsRun(r[k])
        {
          if k < |runs| - 1 {
            assert r[k] == runs[k];
          }
        }
      } else {
        assert r == runs + [[x]];
        forall k | 0 <= k < |r|
          ensures IsRun(r[k])
        {
          if k < |runs| {
            assert r[k] == runs[k];
          }
        }
      }
    }
  }

  /** Neighbouring runs have different speakers, so no run can be extended. */
  lemma {:induction false} RunsMaximal(rows: seq<Aligned>)
    ensures forall j, k :: 0 <= j < k < |Runs(rows)| && k == j + 1 ==>
              Runs(rows)[j][0].speaker != Runs(rows)[k][0].speaker
    decreases |rows|
  {
    if |rows| > 0 {
      var init := rows[..|rows| - 1];
      var x := rows[|rows| - 1];
      var runs: seq<seq<Aligned>> := Runs(init);
      RunsMaximal(init);
      RunsStep(rows);
    }
  }

  function Texts(run: seq<Aligned>): (t: seq<string>)
    ensures |t| == |run|
  {
    if |run| == 0 then [] else Texts(run[..|run| - 1]) + [run[|run| - 1].text]
  }

  /** The row a run merges into: its first start, its last end, its texts joined
      by single spaces, its speaker. */
  function RunRow(run: seq<Aligned>): Aligned
    requires |run| > 0
  {
    Aligned(run[0].start, run[|run| - 1].end, Join(" ", Texts(run)), run[0].speaker)
  }

  function RunRows(runs: seq<seq<Aligned>>): (out: seq<Aligned>)
    requires forall k :: 0 <= k < |runs| ==> |runs[k]| > 0
    ensures |out| == |runs|
    ensures forall k :: 0 <= k < |runs| ==> out[k] == RunRow(runs[k])
  {
    if |runs| == 0 then [] else RunRows(runs[..|runs| - 1]) + [RunRow(runs[|runs| - 1])]
  }

  lemma TextsSnoc(run: seq<Aligned>, x: Aligned)
    ensures Texts(run + [x]) == Texts(run) + [x.text]
  {
    assert (run + [x])[..|run + [x]| - 1] == run;
  }

  lemma RunRowsSnoc(runs: seq<seq<Aligned>>, r: seq<Aligned>)
    requires forall k :: 0 <= k < |runs| ==> |runs[k]| > 0
    requires |r| > 0
    ensures RunRows(runs + [r]) == RunRows(runs) + [RunRow(r)]
  {
    assert (runs + [r])[..|runs|] == runs;
  }

  /** Extending a run by one row of its speaker extends its row: same start, the
      new end, the text with one more space-separated piece. */
  lemma {:induction false} RunRowSnoc(run: seq<Aligned>, x: Aligned)
    requires |run| > 0
    ensures RunRow(run + [x]) ==
              Aligned(RunRow(run).start, x.end, RunRow(run).text + " " + x.text, RunRow(run).speaker)
  {
    TextsSnoc(run, x);
    JoinSnoc(" ", Texts(run), x.text);
  }

  lemma MergeRunsSnoc(init: seq<Aligned>, x: Aligned)
    ensures var m := MergeRuns(init);
            MergeRuns(init + [x]) ==
              if |m| > 0 && m[|m| - 1].speaker == x.speaker then
                m[..|m| - 1] + [Aligned(m[|m| - 1].start, x.end, m[|m| - 1].text + " " + x.text, x.speaker)]
              else m + [x]
  {
    assert (init + [x])[..|init|] == init;
  }

  lemma RunsSnoc(init: seq<Aligned>, x: Aligned)
    ensures var runs := Runs(init);
            Runs(init + [x]) ==
              if |runs| > 0 && runs[|runs| - 1][0].speaker == x.speaker
              then runs[..|runs| - 1] + [runs[|runs| - 1] + [x]]
              else runs + [[x]]
  {
    assert (init + [x])[..|init|] == init;
  }

  lemma MergeRunsJoinStep(init: seq<Aligned>, x: Aligned)
    requires MergeRuns(init) == RunRows(Runs(init))
    requires |MergeRuns(init)| > 0 && MergeRuns(init)[|MergeRuns(init)| - 1].speaker == x.speaker
    ensures MergeRuns(init + [x]) == RunRows(Runs(init + [x]))
  {
    var m := MergeRuns(init);
    var runs: seq<seq<Aligned>> := Runs(init);
    var last := runs[|runs| - 1];
    var front := runs[..|runs| - 1];
    assert runs == front + [last];
    RunRowsSnoc(front, last);
    var head := RunRows(front);
    assert m[..|m| - 1] == head && m[|m| - 1] == RunRow(last);
    assert last[0].speaker == x.speaker;
    var merged := Aligned(RunRow(last).start, x.end, RunRow(last).text + " " + x.text, x.speaker);
    assert MergeRuns(init + [x]) == head + [merged] by {
      MergeRunsSnoc(init, x);
    }
    assert Runs(init + [x]) == front + [last + [x]] by {
      RunsSnoc(init, x);
    }
    RunRowSnoc(last, x);
    RunRowsSnoc(front, last + [x]);
  }

  lemma MergeRunsNewStep(init: seq<Aligned>, x: Aligned)
    requires MergeRuns(init) == RunRows(Runs(init))
    requires !(|MergeRuns(init)| > 0 && MergeRuns(init)[|MergeRuns(init)| - 1].speaker == x.speaker)
    ensures MergeRuns(init + [x]) == RunRows(Runs(init + [x]))
  {
    var m := MergeRuns(init);
    var runs: seq<seq<Aligned>> := Runs(init);
    if |runs| > 0 {
      assert m[|m| - 1] == RunRow(runs[|runs| - 1]);
      assert runs[|runs| - 1][0].speaker != x.speaker;
    }
    assert MergeRuns(init + [x]) == m + [x] by {
      MergeRunsSnoc(init, x);
    }
    assert Runs(init + [x]) == runs + [[x]] by {
      RunsSnoc(init, x);
    }
    RunRowsSnoc(runs, [x]);
    assert RunRow([x]) == x by {
      TextsSnoc([], x);
      assert [] + [x] == [x];
    }
  }

  /** The merge yields exactly one row per maximal run of a speaker. */
  lemma {:induction false} MergeRunsIsRunRows(rows: seq<Aligned>)
    ensures MergeRuns(rows) == RunRows(Runs(rows))
    decreases |rows|
  {
    if |rows| > 0 {
      var init := rows[..|rows| - 1];
      var x := rows[|rows| - 1];
      assert rows == init + [x];
      MergeRunsIsRunRows(init);
      var m := MergeRuns(init);
      if |m| > 0 && m[|m| - 1].speaker == x.speaker {
        MergeRunsJoinStep(init, x);
      } else {
        MergeRunsNewStep(init, x);
      }
    }
  }

  /** Rows without two neighbours of one speaker are left as they are. */
  lemma {:induction false} MergeRunsNoop(rows: seq<Aligned>)
    requires NoRepeatedSpeaker(rows)
    ensures MergeRuns(rows) == rows
    decreases |rows|
  {
    if |rows| > 0 {
      var init := rows[..|rows| - 1];
      MergeRunsNoop(init);
      assert init + [rows[|rows| - 1]] == rows;
    }
  }

  /** Merging one more row keeps the starts of the rows merged so far and adds
      at most the new row. */
  lemma MergeRunsSnocStarts(init: seq<Aligned>, x: Aligned)
    ensures var m := MergeRuns(init);
            var r := MergeRuns(init + [x]);
            && (|r| == |m| || (|r| == |m| + 1 && r[|m|] == x))
            && forall i :: 0 <= i < |m| ==> r[i].start == m[i].start
  {
    MergeRunsSnoc(init, x);
  }

  lemma SnocStartsSorted(m: seq<Aligned>, r: seq<Aligned>, x: Aligned)
    requires SortedBy(m, StartKey)
    requires forall i :: 0 <= i < |m| ==> m[i].start <= x.start
    requires |r| == |m| || (|r| == |m| + 1 && r[|m|] == x)
    requires forall i :: 0 <= i < |m| ==> r[i].start == m[i].start
    ensures SortedBy(r, StartKey)
    ensures forall i :: 0 <= i < |r| ==> r[i].start <= x.start
  {
    forall i, j | 0 <= i < j < |r|
      ensures StartKey(r[i]) <= StartKey(r[j])
    {
      if j < |m| {
        assert StartKey(m[i]) <= StartKey(m[j]);
      }
    }
  }

  /** One more row, starting no earlier than every merged row, keeps the merged rows in start order. */
  lemma MergeRunsStartStep(init: seq<Aligned>, x: Aligned)
    requires SortedBy(MergeRuns(init), StartKey)
    requires forall i :: 0 <= i < |MergeRuns(init)| ==> MergeRuns(init)[i].start <= x.start
    ensures SortedBy(MergeRuns(init + [x]), StartKey)
    ensures forall i :: 0 <= i < |MergeRuns(init + [x])| ==> MergeRuns(init + [x])[i].start <= x.start
  {
    MergeRunsSnocStarts(init, x);
    SnocStartsSorted(MergeRuns(init), MergeRuns(init + [x]), x);
  }

  /** With starts in order, the merged rows keep that order and none starts
      after the last input row. */
  lemma {:induction false} MergeRunsKeepsStartOrder(rows: seq<Aligned>)
    requires SortedBy(rows, StartKey)
    ensures SortedBy(MergeRuns(rows), StartKey)
    ensures |rows| > 0 ==>
              forall i :: 0 <= i < |MergeRuns(rows)| ==> MergeRuns(rows)[i].start <= rows[|rows| - 1].start
    decreases |rows|
  {
    if |rows| > 0 {
      var init := rows[..|rows| - 1];
      var x := rows[|rows| - 1];
      assert rows == init + [x];
      assert SortedBy(init, StartKey) by {
        assert forall i :: 0 <= i < |init| ==> init[i] == rows[i];
      }
      MergeRunsKeepsStartOrder(init);
      if |init| > 0 {
        assert StartKey(rows[|init| - 1]) <= StartKey(x);
      }
      MergeRunsStartStep(init, x);
    }
  }

  function StartKey(r: Aligned): int
  {
    r.start
  }

  /** The table combine_consecutive_speakers returns: the merged runs, ordered by start. */
  function ConsecutiveSpeakers(rows: seq<Aligned>): (r: seq<Aligned>)
    ensures SortedBy(r, StartKey)
    ensures multiset(r) == multiset(MergeRuns(rows))
    ensures |r| <= |rows| && (r == [] <==> rows == [])
  {
    SortBy(MergeRuns(rows), StartKey)
  }

  /** With starts in order, merging the merged table again changes nothing. */
  lemma ConsecutiveSpeakersIdempotent(rows: seq<Aligned>)
    requires SortedBy(rows, StartKey)
    ensures ConsecutiveSpeakers(ConsecutiveSpeakers(rows)) == ConsecutiveSpeakers(rows)
  {
    var m := MergeRuns(rows);
    MergeRunsKeepsStartOrder(rows);
    SortedIsFixed(m, StartKey);
    MergeRunsNoop(m);
  }

  /** A row of the working table; NaN is None. */
  datatype FrameRow = FrameRow(start: Option<nat>, end: Option<nat>, text: string, speaker: string)

  predicate Kept(f: FrameRow)
  {
    f.start.Some? && f.end.Some?
  }

  function ToFrame(r: Aligned): FrameRow
  {
    FrameRow(Some(r.start), Some(r.end), r.text, r.speaker)
  }

  /** dropna(): the rows with both times present, in table order. */
  function DropNa(frame: seq<FrameRow>): (rows: seq<Aligned>)
    ensures |rows| <= |frame|
  {
    if |frame| == 0 then []
    else
      var f := frame[|frame| - 1];
      DropNa(frame[..|frame| - 1]) + (if Kept(f) then [Aligned(f.start.value, f.end.value, f.text, f.speaker)] else [])
  }

  lemma DropNaPrefix(frame: seq<FrameRow>, c: nat)
    requires c < |frame|
    ensures DropNa(frame[..c + 1]) == DropNa(frame[..c]) +
              (if Kept(frame[c]) then [Aligned(frame[c].start.value, frame[c].end.value, frame[c].text, frame[c].speaker)] else [])
  {
    assert frame[..c + 1][..c] == frame[..c];
  }

  function AlignedOf(f: FrameRow): Aligned
    requires Kept(f)
  {
    Aligned(f.start.value, f.end.value, f.text, f.speaker)
  }

  /** The working table after `counter` steps: rows from `counter` on are
      untouched, speakers never change, the last row seen is still present, and
      the rows that survive dropna so far are the merge of the rows seen. */
  ghost predicate Progress(f: seq<FrameRow>, rows: seq<Aligned>, c: nat)
  {
    && |f| == |rows| && 1 <= c <= |rows|
    && (forall k :: c <= k < |rows| ==> f[k] == ToFrame(rows[k]))
    && (forall k :: 0 <= k < |rows| ==> f[k].speaker == rows[k].speaker)
    && Kept(f[c - 1])
    && DropNa(f[..c]) == MergeRuns(rows[..c])
  }

  /** Row c absorbs row c-1: it takes row c-1's start and text, and row c-1's
      times become NaN. */
  function FoldInto(f: seq<FrameRow>, c: nat): (g: seq<FrameRow>)
    requires 1 <= c < |f|
    ensures |g| == |f|
  {
    f[c - 1 := FrameRow(None, None, f[c - 1].text, f[c - 1].speaker)]
     [c := FrameRow(f[c - 1].start, f[c].end, f[c - 1].text + " " + f[c].text, f[c].speaker)]
  }

  lemma DropNaKept(f: seq<FrameRow>, c: nat)
    requires c < |f| && Kept(f[c])
    ensures DropNa(f[..c + 1]) == DropNa(f[..c]) + [AlignedOf(f[c])]
  {
    DropNaPrefix(f, c);
  }

  lemma DropNaBlank(f: seq<FrameRow>, c: nat)
    requires c < |f| && !Kept(f[c])
    ensures DropNa(f[..c + 1]) == DropNa(f[..c])
  {
    DropNaPrefix(f, c);
  }

  lemma ProgressStart(f: seq<FrameRow>, rows: seq<Aligned>)
    requires |f| == |rows| > 0
    requires forall k :: 0 <= k < |rows| ==> f[k] == ToFrame(rows[k])
    ensures Progress(f, rows, 1)
  {
    DropNaKept(f, 0);
    assert f[..0] == [] && rows[..1] == [] + [rows[0]];
    MergeRunsSnoc([], rows[0]);
  }

  lemma FoldIntoMerges(f: seq<FrameRow>, rows: seq<Aligned>, c: nat)
    requires Progress(f, rows, c) && c < |rows|
    requires f[c].speaker == f[c - 1].speaker
    ensures DropNa(FoldInto(f, c)[..c + 1]) == MergeRuns(rows[..c + 1])
  {
    var g := FoldInto(f, c);
    var x := rows[c];
    var d := DropNa(f[..c - 1]);
    var p := AlignedOf(f[c - 1]);
    var merged := Aligned(p.start, x.end, p.text + " " + x.text, x.speaker);
    assert DropNa(g[..c + 1]) == d + [merged] by {
      DropNaKept(g, c);
      DropNaBlank(g, c - 1);
      assert g[..c - 1] == f[..c - 1];
    }
    var m := MergeRuns(rows[..c]);
    assert m == d + [p] by {
      DropNaKept(f, c - 1);
    }
    assert MergeRuns(rows[..c + 1]) == d + [merged] by {
      assert rows[..c + 1] == rows[..c] + [x];
      MergeRunsSnoc(rows[..c], x);
      assert m[..|m| - 1] == d && m[|m| - 1] == p;
    }
  }

  lemma ProgressFold(f: seq<FrameRow>, rows: seq<Aligned>, c: nat)
    requires Progress(f, rows, c) && c < |rows|
    requires f[c].speaker == f[c - 1].speaker
    ensures Progress(FoldInto(f, c), rows, c + 1)
  {
    FoldIntoMerges(f, rows, c);
  }

  lemma {:induction false} ProgressKeep(f: seq<FrameRow>, rows: seq<Aligned>, c: nat)
    requires Progress(f, rows, c) && c < |rows|
    requires f[c].speaker != f[c - 1].speaker
    ensures Progress(f, rows, c + 1)
  {
    var x := rows[c];
    DropNaKept(f, c);
    assert rows[..c + 1] == rows[..c] + [x];
    MergeRunsSnoc(rows[..c], x);
    var m := MergeRuns(rows[..c]);
    assert rows[..c][c - 1] == rows[c - 1];
  }

  /** combine_consecutive_speakers: walks the table once, folding each row into
      the next when the speakers match and blanking the folded row's times, then
      drops the blanked rows and orders by start. */
  method CombineConsecutiveSpeakers(rows: seq<Aligned>) returns (out: seq<Aligned>)
    ensures out == ConsecutiveSpeakers(rows)
  {
    var n := |rows|;
    var frame := new FrameRow[n](i requires 0 <= i < n => ToFrame(rows[i]));
    if n > 0 {
      ProgressStart(frame[..], rows);
      for counter := 1 to n
        invariant Progress(frame[..], rows, counter)
      {
        ghost var before := frame[..];
        if frame[counter].speaker == frame[counter - 1].speaker {
          var prev := frame[counter - 1];
          var cur := frame[counter];
          frame[counter] := FrameRow(prev.start, cur.end, prev.text + " " + cur.text, cur.speaker);
          frame[counter - 1] := FrameRow(None, None, prev.text, prev.speaker);
          assert frame[..] == FoldInto(before, counter);
          ProgressFold(before, rows, counter);
        } else {
          ProgressKeep(before, rows, counter);
        }
      }
      assert frame[..n] == frame[..] && rows[..n] == rows;
    }
    out := SortBy(DropNa(frame[..]), StartKey);
  }

  // ---------------------------------------------------------------------------
  // Rendering
  // ---------------------------------------------------------------------------

  function Pad2(n: nat): (s: string)
    requires n < 100
    ensures |s| == 2 && AllDigits(s) && DigitsValue(s) == n
  {
    var s := [DigitChar(n / 10), DigitChar(n % 10)];
    assert s[..1][..0] == [];
    assert DigitsValue(s[..1]) == n / 10;
    s
  }

  /** strftime("%H:%M:%S", gmtime(t)): whole seconds, the hour wrapping at a
      day; each two-digit field reads back as its clock value. */
  function Hms(centis: nat): (s: string)
    ensures |s| == 8 && s[2] == ':' && s[5] == ':'
    ensures AllDigits(s[..2]) && AllDigits(s[3..5]) && AllDigits(s[6..])
    ensures DigitsValue(s[..2]) == (centis / 100 / 3600) % 24
    ensures DigitsValue(s[3..5]) == (centis / 100 / 60) % 60
    ensures DigitsValue(s[6..]) == (centis / 100) % 60
  {
    var secs := centis / 100;
    var h := Pad2((secs / 3600) % 24);
    var m := Pad2((secs / 60) % 60);
    var sec := Pad2(secs % 60);
    var s := h + ":" + m + ":" + sec;
    assert s[..2] == h && s[3..5] == m && s[6..] == sec;
    s
  }

  /** The three fields together give the time of day in seconds. */
  lemma {:induction false} ClockFields(secs: nat)
    ensures ((secs / 3600) % 24) * 3600 + ((secs / 60) % 60) * 60 + secs % 60 == secs % 86400
  {
    var q := secs / 60;
    var s0 := secs % 60;
    var m0 := q % 60;
    var big := q / 60;
    var h0 := big % 24;
    var d := big / 24;
    assert secs == 60 * q + s0;
    assert q == 60 * big + m0;
    assert big == 24 * d + h0;
    assert secs == 3600 * big + 60 * m0 + s0;
    assert secs / 3600 == big;
    assert secs == 86400 * d + (3600 * h0 + 60 * m0 + s0);
    assert 3600 * h0 + 60 * m0 + s0 < 86400;
  }

  /** Reading the rendered fields back gives the time of day, in whole seconds. */
  lemma HmsValue(centis: nat)
    ensures var s := Hms(centis);
            DigitsValue(s[..2]) * 3600 + DigitsValue(s[3..5]) * 60 + DigitsValue(s[6..]) == (centis / 100) % 86400
  {
    ClockFields(centis / 100);
  }

  /** One output line: `{speaker}: [{start} - {end}]--{text}`. */
  function Line(r: Aligned): string
  {
    r.speaker + ": [" + Hms(r.start) + " - " + Hms(r.end) + "]--" + r.text
  }

  /** format_diarized_text: each row's line followed by a newline, in row order. */
  function FormatDiarizedText(rows: seq<Aligned>): (r: string)
    ensures r == "" <==> rows == []
    ensures r != "" ==> r[|r| - 1] == '\n'
  {
    if |rows| == 0 then "" else Line(rows[0]) + "\n" + FormatDiarizedText(rows[1..])
  }

  function Lines(rows: seq<Aligned>): (ls: seq<string>)
    ensures |ls| == |rows|
    ensures forall i :: 0 <= i < |rows| ==> ls[i] == Line(rows[i])
  {
    if |rows| == 0 then [] else [Line(rows[0])] + Lines(rows[1..])
  }

  lemma HmsNoNewline(centis: nat)
    ensures '\n' !in Hms(centis)
  {
    var h := Hms(centis);
    forall k | 0 <= k < |h|
      ensures h[k] != '\n'
    {
      if k < 2 {
        assert h[k] == h[..2][k];
      } else if 3 <= k < 5 {
        assert h[k] == h[3..5][k - 3];
      } else if 6 <= k {
        assert h[k] == h[6..][k - 6];
      }
    }
  }

  lemma LineNoNewline(r: Aligned)
    requires '\n' !in r.speaker && '\n' !in r.text
    ensures '\n' !in Line(r)
  {
    HmsNoNewline(r.start);
    HmsNoNewline(r.end);
  }

  /** Splitting the rendered text at newlines gives back exactly one line per
      row, in row order, followed by the empty piece after the last newline. */
  lemma {:induction false} FormatDiarizedTextLines(rows: seq<Aligned>)
    requires forall i :: 0 <= i < |rows| ==> '\n' !in rows[i].speaker && '\n' !in rows[i].text
    ensures SplitOn(FormatDiarizedText(rows), '\n') == Lines(rows) + [""]
    decreases |rows|
  {
    if |rows| > 0 {
      var line := Line(rows[0]);
      var rest := FormatDiarizedText(rows[1..]);
      LineNoNewline(rows[0]);
      FormatDiarizedTextLines(rows[1..]);
      SplitOnPrefix(line, '\n', rest);
      assert FormatDiarizedText(rows) == line + ['\n'] + rest;
      assert Lines(rows) == [line] + Lines(rows[1..]);
    }
  }

  /** The pieces of format_segments_with_timestamps before stripping. */
  function Transcript(rows: seq<TextRow>): string
  {
    if |rows| == 0 then "" else "\n" + StampLine(rows[0]) + " " + Transcript(rows[1..])
  }

  /** format_segments_with_timestamps: one `\n[HH:MM:SS] text ` piece per
      segment, the whole stripped. */
  function FormatSegmentsWithTimestamps(rows: seq<TextRow>): (r: string)
    ensures r == [] || (!IsSpace(r[0]) && !IsSpace(r[|r| - 1]))
    ensures Strip(r) == r
  {
    StripIsClean(Transcript(rows));
    Strip(Transcript(rows))
  }

  function StampLine(r: TextRow): string
  {
    "[" + Hms(r.start) + "] " + r.text
  }

  function StampLines(rows: seq<TextRow>): (ls: seq<string>)
    ensures |ls| == |rows|
    ensures forall i :: 0 <= i < |rows| ==> ls[i] == StampLine(rows[i])
  {
    if |rows| == 0 then [] else [StampLine(rows[0])] + StampLines(rows[1..])
  }

  lemma PiecesRegroup(a: string, b: string)
    ensures "\n" + a + " " + ("\n" + b + " ") == "\n" + (a + " \n" + b) + " "
  {
  }

  lemma {:induction false} TranscriptIsJoin(rows: seq<TextRow>)
    requires |rows| > 0
    ensures Transcript(rows) == "\n" + Join(" \n", StampLines(rows)) + " "
    decreases |rows|
  {
    var first := StampLine(rows[0]);
    var ls := StampLines(rows);
    assert Transcript(rows) == "\n" + first + " " + Transcript(rows[1..]);
    if |rows| == 1 {
      assert Transcript(rows[1..]) == "";
      assert Join(" \n", ls) == first;
    } else {
      var rest := Join(" \n", StampLines(rows[1..]));
      TranscriptIsJoin(rows[1..]);
      assert Join(" \n", ls) == first + " \n" + rest by {
        assert ls[1..] == StampLines(rows[1..]);
      }
      PiecesRegroup(first, rest);
    }
  }

  /** The stamped transcript is the segments' `[HH:MM:SS] text` lines joined by
      " \n", with trailing whitespace removed; no segments give "". */
  lemma FormatSegmentsIsJoinedLines(rows: seq<TextRow>)
    ensures |rows| == 0 ==> FormatSegmentsWithTimestamps(rows) == ""
    ensures |rows| > 0 ==>
              FormatSegmentsWithTimestamps(rows) == TrimRight(Join(" \n", StampLines(rows)))
  {
    if |rows| > 0 {
      var j := Join(" \n", StampLines(rows));
      assert Transcript(rows) == "\n" + j + " " by {
        TranscriptIsJoin(rows);
      }
      assert |j| > 0 && !IsSpace(j[0]) by {
        JoinStartsWith(" \n", StampLines(rows));
      }
      StripWrapped(j);
    } else {
      assert Transcript(rows) == "";
    }
  }

  lemma JoinStartsWith(sep: string, parts: seq<string>)
    requires |parts| > 0 && |parts[0]| > 0
    ensures |Join(sep, parts)| > 0 && Join(sep, parts)[0] == parts[0][0]
  {
  }
}
