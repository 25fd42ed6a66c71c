/** The sequence collector: while recording, every detected hand's flattened
    landmarks are kept; 'r' starts a fresh recording, 'e' stops it and saves
    the frames as a CSV file named after the typed label, 'q' quits. The
    camera, the key presses and the typed label are inputs; the output
    directory is a map from file name to rows. */
module SequenceCollector {
  import opened Text
  import opened Landmarks

  /** A CSV cell: a coordinate or the label. */
  datatype Cell = Num(value: real) | Label(text: string)

  type CsvRow = seq<Cell>

  /** The collector's whole state. */
  datatype Snapshot = Snapshot(recording: bool, currentSequence: seq<seq<real>>, outputDir: map<string, seq<CsvRow>>)

  /** What a pass of the loop did. */
  datatype Outcome = Continued | Saved(fileName: string) | Quit

  /** `f"{label}_{len(os.listdir(output_dir))}.csv"`. */
  function FileName(signLabel: string, entries: nat): string {
    signLabel + "_" + NatToString(entries) + ".csv"
  }

  /** `frame_landmarks + [label]`. */
  function LabelledRow(landmarks: seq<real>, signLabel: string): (r: CsvRow)
    ensures |r| == |landmarks| + 1 && r[|landmarks|] == Label(signLabel)
    ensures forall j :: 0 <= j < |landmarks| ==> r[j] == Num(landmarks[j])
  {
    seq(|landmarks|, j requires 0 <= j < |landmarks| => Num(landmarks[j])) + [Label(signLabel)]
  }

  /** The file's rows: one per recorded frame, in recording order. */
  function LabelledRows(sequence: seq<seq<real>>, signLabel: string): (r: seq<CsvRow>)
    ensures |r| == |sequence|
  {
    seq(|sequence|, i requires 0 <= i < |sequence| => LabelledRow(sequence[i], signLabel))
  }

  /** Reading a saved row back: the coordinates before the label column. */
  function Coordinates(row: CsvRow): seq<real>
    requires forall j :: 0 <= j < |row| - 1 ==> row[j].Num?
  {
    seq(if |row| == 0 then 0 else |row| - 1, j requires 0 <= j < |row| - 1 => row[j].value)
  }

  /** A saved file holds exactly the recorded frames, each followed by the label. */
  lemma SavedRowsRoundTrip(sequence: seq<seq<real>>, signLabel: string)
    ensures var rows := LabelledRows(sequence, signLabel);
            forall i :: 0 <= i < |rows| ==>
              && rows[i][|rows[i]| - 1] == Label(signLabel)
              && (forall j :: 0 <= j < |rows[i]| - 1 ==> rows[i][j].Num?)
              && Coordinates(rows[i]) == sequence[i]
  {
    var rows := LabelledRows(sequence, signLabel);
    forall i | 0 <= i < |rows|
      ensures rows[i][|rows[i]| - 1] == Label(signLabel)
      ensures forall j :: 0 <= j < |rows[i]| - 1 ==> rows[i][j].Num?
      ensures Coordinates(rows[i]) == sequence[i]
    {
      assert rows[i] == LabelledRow(sequence[i], signLabel);
    }
  }

  /** One pass of the loop: the frame's hands, then the key. */
  function Next(s: Snapshot, hands: seq<seq<Point3>>, key: char, typedLabel: string): (Snapshot, Outcome) {
    var captured := if s.recording then s.currentSequence + FlatRows(hands) else s.currentSequence;
    if key == 'r' then
      (Snapshot(true, [], s.outputDir), Continued)
    else if key == 'e' && s.recording then
      var signLabel := Strip(typedLabel);
      var name := FileName(signLabel, |s.outputDir|);
      (Snapshot(false, [], s.outputDir[name := LabelledRows(captured, signLabel)]), Saved(name))
    else if key == 'q' then
      (Snapshot(s.recording, captured, s.outputDir), Quit)
    else
      (Snapshot(s.recording, captured, s.outputDir), Continued)
  }

  /** 'r' always starts a fresh, empty recording and writes nothing. */
  lemma RecordStartsFresh(s: Snapshot, hands: seq<seq<Point3>>, typedLabel: string)
    ensures Next(s, hands, 'r', typedLabel).0 == Snapshot(true, [], s.outputDir)
  {
  }

  /** Without a command key, frames are kept exactly when recording. */
  lemma FramesKeptOnlyWhileRecording(s: Snapshot, hands: seq<seq<Point3>>, key: char, typedLabel: string)
    requires key != 'r' && key != 'e' && key != 'q'
    ensures Next(s, hands, key, typedLabel).1 == Continued
    ensures s.recording ==> Next(s, hands, key, typedLabel).0.currentSequence == s.currentSequence + FlatRows(hands)
    ensures !s.recording ==> Next(s, hands, key, typedLabel).0 == s
  {
  }

  /** 'e' when not recording changes nothing at all. */
  lemma StopIgnoredWhenIdle(s: Snapshot, hands: seq<seq<Point3>>, typedLabel: string)
    requires !s.recording
    ensures Next(s, hands, 'e', typedLabel) == (s, Continued)
  {
  }

  /** 'e' while recording saves the recording (this frame's hands included)
      under "<label>_<entries>.csv", keeps every other file, and clears. */
  lemma StopSavesRecording(s: Snapshot, hands: seq<seq<Point3>>, typedLabel: string)
    requires s.recording
    ensures var (t, outcome) := Next(s, hands, 'e', typedLabel);
            var name := FileName(Strip(typedLabel), |s.outputDir|);
            && outcome == Saved(name)
            && !t.recording && t.currentSequence == []
            && name in t.outputDir
            && |t.outputDir[name]| == |s.currentSequence| + |hands|
            && (forall i :: 0 <= i < |s.currentSequence| ==>
                  Coordinates(t.outputDir[name][i]) == s.currentSequence[i])
            && (forall f :: f in s.outputDir && f != name ==> f in t.outputDir && t.outputDir[f] == s.outputDir[f])
  {
    var captured := s.currentSequence + FlatRows(hands);
    SavedRowsRoundTrip(captured, Strip(typedLabel));
    var rows := LabelledRows(captured, Strip(typedLabel));
    forall i | 0 <= i < |s.currentSequence|
      ensures Coordinates(rows[i]) == s.currentSequence[i]
    {
      assert captured[i] == s.currentSequence[i];
    }
  }

  /** The CSV writing loop. */
  method WriteRows(sequence: seq<seq<real>>, signLabel: string) returns (rows: seq<CsvRow>)
    ensures rows == LabelledRows(sequence, signLabel)
  {
    rows := [];
    var i := 0;
    while i < |sequence|
      invariant 0 <= i <= |sequence|
      invariant rows == LabelledRows(sequence, signLabel)[..i]
    {
      var frameLandmarks := sequence[i];
      var row: CsvRow := [];
      var j := 0;
      while j < |frameLandmarks|
        invariant 0 <= j <= |frameLandmarks|
        invariant row == LabelledRow(frameLandmarks, signLabel)[..j]
      {
        row := row + [Num(frameLandmarks[j])];
        j := j + 1;
      }
      row := row + [Label(signLabel)];
      assert row == LabelledRow(frameLandmarks, signLabel);
      rows := rows + [row];
      i := i + 1;
    }
    assert LabelledRows(sequence, signLabel)[..i] == LabelledRows(sequence, signLabel);
  }

  class SequenceCollector {
    var recording: bool
    var currentSequence: seq<seq<real>>
    var outputDir: map<string, seq<CsvRow>>

    function State(): Snapshot
      reads this
    {
      Snapshot(recording, currentSequence, outputDir)
    }

    /** Starts idle with an empty sequence, over the directory's current files. */
    constructor (existing: map<string, seq<CsvRow>>)
      ensures State() == Snapshot(false, [], existing)
    {
      recording := false;
      currentSequence := [];
      outputDir := existing;
    }

    /** One pass of the capture loop. */
    method Step(hands: seq<seq<Point3>>, key: char, typedLabel: string) returns (outcome: Outcome)
      modifies this
      ensures (State(), outcome) == Next(old(State()), hands, key, typedLabel)
    {
      var i := 0;
      while i < |hands|
        invariant 0 <= i <= |hands| && recording == old(recording) && outputDir == old(outputDir)
        invariant currentSequence == if recording then old(currentSequence) + FlatRows(hands)[..i]
                                     else old(currentSequence)
      {
        var landmarks := Flatten(hands[i]);
        if recording {
          currentSequence := currentSequence + [landmarks];
        }
        assert FlatRows(hands)[..i + 1] == FlatRows(hands)[..i] + [landmarks];
        i := i + 1;
      }
      assert FlatRows(hands)[..i] == FlatRows(hands);

      if key == 'r' {
        recording := true;
        currentSequence := [];
        outcome := Continued;
      } else if key == 'e' && recording {
        recording := false;
        var signLabel := Strip(typedLabel);
        var sequenceFile := FileName(signLabel, |outputDir|);
        var rows := WriteRows(currentSequence, signLabel);
        outputDir := outputDir[sequenceFile := rows];
        currentSequence := [];
        outcome := Saved(sequenceFile);
      } else if key == 'q' {
        outcome := Quit;
      } else {
        outcome := Continued;
      }
    }
  }
}
