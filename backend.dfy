/** The Flask back end's data handling: turning a transcription into ASL
    caption segments, the gloss checks of the avatar routes, the pose-data
    validation report and the CSV / MediaPipe exports of a stored animation.
    The sentence translator, the sentence splitter and the avatar generator
    are the collaborators; the download, transcription, file writes and
    identifiers are not modelled. */
module Backend {
  import opened Wrappers
  import opened Text
  import G = AvatarGenerator

  /** An HTTP reply: a 200 body or an error with its status. */
  datatype Reply<T> = Ok200(body: T) | BadRequest(error: string) | NotFound(error: string)

  // ---------------------------------------------------------------------
  // /transcribe: one ASL segment per timed segment, or per sentence.

  datatype TimedSegment = TimedSegment(start: real, end: real, text: string)

  /** An ASL caption segment; untimed entries carry no start or end. */
  datatype AslSegment = AslSegment(start: Option<real>, end: Option<real>, english: string, aslGloss: string)

  method MapSegments(segments: seq<TimedSegment>, transcript: string,
                     sentTokenize: string -> seq<string>, translateSentence: string -> string)
    returns (aslSegments: seq<AslSegment>)
    ensures |segments| > 0 ==>
              |aslSegments| == |segments|
              && forall i :: 0 <= i < |segments| ==>
                   aslSegments[i] == AslSegment(Some(segments[i].start), Some(segments[i].end),
                                                segments[i].text, translateSentence(segments[i].text))
    ensures |segments| == 0 ==>
              |aslSegments| == |sentTokenize(transcript)|
              && forall i :: 0 <= i < |aslSegments| ==>
                   var sentence := sentTokenize(transcript)[i];
                   aslSegments[i] == AslSegment(None, None, sentence, translateSentence(sentence))
  {
    aslSegments := [];
    if |segments| > 0 {
      var i := 0;
      while i < |segments|
        invariant 0 <= i <= |segments| && |aslSegments| == i
        invariant forall k :: 0 <= k < i ==>
                    aslSegments[k] == AslSegment(Some(segments[k].start), Some(segments[k].end),
                                                 segments[k].text, translateSentence(segments[k].text))
      {
        var segment := segments[i];
        var aslGloss := translateSentence(segment.text);
        aslSegments := aslSegments + [AslSegment(Some(segment.start), Some(segment.end), segment.text, aslGloss)];
        i := i + 1;
      }
    } else {
      var sentences := sentTokenize(transcript);
      var i := 0;
      while i < |sentences|
        invariant 0 <= i <= |sentences| && |aslSegments| == i
        invariant forall k :: 0 <= k < i ==>
                    aslSegments[k] == AslSegment(None, None, sentences[k], translateSentence(sentences[k]))
      {
        var sentence := sentences[i];
        aslSegments := aslSegments + [AslSegment(None, None, sentence, translateSentence(sentence))];
        i := i + 1;
      }
    }
  }

  // ---------------------------------------------------------------------
  // /generate-avatar and /validate-pose-data: the gloss is required.

  const GlossRequired := "ASL gloss is required"

  /** `if not asl_gloss`: a missing key and the empty string are both refused. */
  predicate GlossMissing(aslGloss: Option<string>) {
    aslGloss.None? || aslGloss.value == ""
  }

  /** The part of /generate-avatar that decides the reply body. */
  method GenerateAvatar(aslGloss: Option<string>, poses: map<string, G.PoseEntry>, trig: G.Trig)
    returns (reply: Reply<G.AvatarResponse>)
    ensures GlossMissing(aslGloss) <==> reply == BadRequest(GlossRequired)
    ensures !GlossMissing(aslGloss) ==> reply.Ok200?
    ensures reply.Ok200? ==>
              (reply.body.Success() <==>
                 forall i :: 0 <= i < |Split(aslGloss.value)| ==>
                   G.WordAnimationFor(Split(aslGloss.value)[i], poses, trig).Ok?)
  {
    if GlossMissing(aslGloss) {
      return BadRequest(GlossRequired);
    }
    var result := G.GenerateAvatarAnimation(aslGloss.value, poses, trig);
    reply := Ok200(result);
  }

  datatype SignStatus = KnownSign | UnknownSign

  datatype ValidationResult = ValidationResult(
    word: string, status: SignStatus, animationType: string, frameCount: int,
    movementType: string, handshape: string, poseAvailable: bool)

  datatype ValidationReport = ValidationReport(
    aslGloss: string, results: seq<ValidationResult>, totalDuration: real,
    totalFrames: int, knownSigns: nat, fingerspelledWords: nat)

  /** The entry `validate_pose_data` appends for one word. */
  function ValidationFor(word: string, poses: map<string, G.PoseEntry>): ValidationResult {
    if Upper(word) in poses then
      var hand := poses[Upper(word)].dominantHand;
      ValidationResult(word, KnownSign, "pose_sequence", hand.frames, hand.movement,
                       G.HandshapeForWord(word), true)
    else
      ValidationResult(word, UnknownSign, "fingerspelling", |word| * 20, "letter_by_letter",
                       "alphabet_sequence", false)
  }

  /** `sum(result["frame_count"] ...)`. */
  function SumFrameCounts(results: seq<ValidationResult>): int
    decreases |results|
  {
    if results == [] then 0 else SumFrameCounts(results[..|results| - 1]) + results[|results| - 1].frameCount
  }

  /** `len([r for r in results if r["status"] == status])`. */
  function CountStatus(results: seq<ValidationResult>, status: SignStatus): nat
    decreases |results|
  {
    if results == [] then 0
    else CountStatus(results[..|results| - 1], status) + (if results[|results| - 1].status == status then 1 else 0)
  }

  /** Every word is either a known sign or fingerspelled. */
  lemma {:induction false} StatusCountsAddUp(results: seq<ValidationResult>)
    ensures CountStatus(results, KnownSign) + CountStatus(results, UnknownSign) == |results|
    decreases |results|
  {
    if results != [] {
      StatusCountsAddUp(results[..|results| - 1]);
    }
  }

  /** /validate-pose-data. */
  method ValidatePoseData(aslGloss: Option<string>, poses: map<string, G.PoseEntry>)
    returns (reply: Reply<ValidationReport>)
    ensures GlossMissing(aslGloss) <==> reply == BadRequest(GlossRequired)
    ensures !GlossMissing(aslGloss) ==> reply.Ok200?
    ensures reply.Ok200? ==>
              var r := reply.body;
              var words := Split(aslGloss.value);
              && r.aslGloss == aslGloss.value
              && |r.results| == |words|
              && (forall i :: 0 <= i < |words| ==> r.results[i] == ValidationFor(words[i], poses))
              && r.totalFrames == SumFrameCounts(r.results)
              && r.totalDuration == r.totalFrames as real / 30.0
              && r.knownSigns == CountStatus(r.results, KnownSign)
              && r.fingerspelledWords == CountStatus(r.results, UnknownSign)
              && r.knownSigns + r.fingerspelledWords == |words|
  {
    if GlossMissing(aslGloss) {
      return BadRequest(GlossRequired);
    }
    var words := Split(aslGloss.value);
    var results: seq<ValidationResult> := [];
    var i := 0;
    while i < |words|
      invariant 0 <= i <= |words| && |results| == i
      invariant forall k :: 0 <= k < i ==> results[k] == ValidationFor(words[k], poses)
    {
      var word := words[i];
      var wordUpper := Upper(word);
      if wordUpper in poses {
        var hand := poses[wordUpper].dominantHand;
        results := results + [ValidationResult(word, KnownSign, "pose_sequence", hand.frames, hand.movement,
                                               G.HandshapeForWord(word), true)];
      } else {
        results := results + [ValidationResult(word, UnknownSign, "fingerspelling", |word| * 20,
                                               "letter_by_letter", "alphabet_sequence", false)];
      }
      i := i + 1;
    }
    var totalFrames := SumFrameCounts(results);
    StatusCountsAddUp(results);
    reply := Ok200(ValidationReport(aslGloss.value, results, totalFrames as real / 30.0, totalFrames,
                                    CountStatus(results, KnownSign), CountStatus(results, UnknownSign)));
  }

  /** For every word the generator can animate, the validation report
      predicts the generator's frame count: the table's count for a known
      sign, 20 per letter otherwise. */
  lemma ValidationMatchesGenerator(word: string, poses: map<string, G.PoseEntry>, trig: G.Trig)
    requires G.WordAnimationFor(word, poses, trig).Ok?
    ensures ValidationFor(word, poses).frameCount == G.WordAnimationFor(word, poses, trig).value.frameCount
    ensures ValidationFor(word, poses).status == KnownSign <==> G.WordAnimationFor(word, poses, trig).value.PoseAnimation?
  {
    G.WordAnimationDispatch(word, poses, trig);
  }

  /** When the generator animates a whole gloss, the report's total equals the
      generated animation's `total_frames`. */
  lemma {:induction false} ValidationTotalMatchesGenerator(
    words: seq<string>, results: seq<ValidationResult>, sequence: seq<G.WordAnimation>,
    poses: map<string, G.PoseEntry>, trig: G.Trig)
    requires |results| == |words| == |sequence|
    requires forall i :: 0 <= i < |words| ==> results[i] == ValidationFor(words[i], poses)
    requires forall i :: 0 <= i < |words| ==>
               G.WordAnimationFor(words[i], poses, trig).Ok? && sequence[i] == G.WordAnimationFor(words[i], poses, trig).value
    ensures SumFrameCounts(results) == G.TotalFrames(sequence)
    decreases |words|
  {
    if words != [] {
      var n := |words| - 1;
      ValidationTotalMatchesGenerator(words[..n], results[..n], sequence[..n], poses, trig);
      ValidationMatchesGenerator(words[n], poses, trig);
    }
  }

  // ---------------------------------------------------------------------
  // /export-animation/<id>: the stored file is the generator's response.

  datatype CsvPoint = CsvPoint(word: string, frame: int, timestamp: real, x: real, y: real, z: real, visibility: real)

  datatype MediaPipeEntry = MediaPipeEntry(frame: int, handLandmarks: seq<G.Landmark>)

  datatype Export =
    | JsonExport(animation: G.AvatarResponse)
    | CsvExport(data: seq<CsvPoint>, totalPoints: nat)
    | MediaPipeExport(landmarks: seq<MediaPipeEntry>, fps: int)

  /** The stored `animation_sequence`, present only in a successful response. */
  function StoredSequence(animation: G.AvatarResponse): seq<G.WordAnimation> {
    if animation.Generated? then animation.data.sequence else []
  }

  /** The rows one frame contributes: one per landmark, visibility 1.0 when absent. */
  function FramePoints(word: string, f: G.Frame): (r: seq<CsvPoint>)
    ensures |r| == |f.handLandmarks|
  {
    seq(|f.handLandmarks|, j requires 0 <= j < |f.handLandmarks| =>
      var lm := f.handLandmarks[j];
      CsvPoint(word, f.frameNumber, f.timestamp, lm.x, lm.y, lm.z, lm.visibility.GetOr(1.0)))
  }

  function FramesPoints(word: string, frames: seq<G.Frame>): seq<CsvPoint>
    decreases |frames|
  {
    if frames == [] then [] else FramesPoints(word, frames[..|frames| - 1]) + FramePoints(word, frames[|frames| - 1])
  }

  /** The CSV rows in nesting order: word, then frame, then landmark. */
  function SequencePoints(sequence: seq<G.WordAnimation>): seq<CsvPoint>
    decreases |sequence|
  {
    if sequence == [] then []
    else
      var w := sequence[|sequence| - 1];
      SequencePoints(sequence[..|sequence| - 1]) + FramesPoints(w.word, w.frames)
  }

  /** The number of landmarks in all frames of all words. */
  function LandmarkTotal(sequence: seq<G.WordAnimation>): nat
    decreases |sequence|
  {
    if sequence == [] then 0
    else LandmarkTotal(sequence[..|sequence| - 1]) + FramesLandmarkTotal(sequence[|sequence| - 1].frames)
  }

  function FramesLandmarkTotal(frames: seq<G.Frame>): nat
    decreases |frames|
  {
    if frames == [] then 0 else FramesLandmarkTotal(frames[..|frames| - 1]) + |frames[|frames| - 1].handLandmarks|
  }

  /** One CSV row per landmark of every frame of every word. */
  lemma {:induction false} SequencePointsCount(sequence: seq<G.WordAnimation>)
    ensures |SequencePoints(sequence)| == LandmarkTotal(sequence)
    decreases |sequence|
  {
    if sequence != [] {
      SequencePointsCount(sequence[..|sequence| - 1]);
      FramesPointsCount(sequence[|sequence| - 1].word, sequence[|sequence| - 1].frames);
    }
  }

  lemma {:induction false} FramesPointsCount(word: string, frames: seq<G.Frame>)
    ensures |FramesPoints(word, frames)| == FramesLandmarkTotal(frames)
    decreases |frames|
  {
    if frames != [] {
      FramesPointsCount(word, frames[..|frames| - 1]);
    }
  }

  /** The MediaPipe entries: one per frame across all words, in order. */
  function FrameEntries(frames: seq<G.Frame>): (r: seq<MediaPipeEntry>)
    ensures |r| == |frames|
  {
    seq(|frames|, i requires 0 <= i < |frames| => MediaPipeEntry(frames[i].frameNumber, frames[i].handLandmarks))
  }

  function SequenceEntries(sequence: seq<G.WordAnimation>): seq<MediaPipeEntry>
    decreases |sequence|
  {
    if sequence == [] then []
    else SequenceEntries(sequence[..|sequence| - 1]) + FrameEntries(sequence[|sequence| - 1].frames)
  }

  function FrameTotal(sequence: seq<G.WordAnimation>): nat
    decreases |sequence|
  {
    if sequence == [] then 0 else FrameTotal(sequence[..|sequence| - 1]) + |sequence[|sequence| - 1].frames|
  }

  /** The MediaPipe export has exactly one entry per frame. */
  lemma {:induction false} SequenceEntriesCount(sequence: seq<G.WordAnimation>)
    ensures |SequenceEntries(sequence)| == FrameTotal(sequence)
    decreases |sequence|
  {
    if sequence != [] {
      SequenceEntriesCount(sequence[..|sequence| - 1]);
    }
  }

  /** For an animation the generator produced from a table whose frame
      counts are not negative, the MediaPipe export has exactly
      `total_frames` entries (a negative count in the table would make
      `total_frames` smaller than the number of frames). */
  lemma {:induction false} ExportFramesMatchTotal(words: seq<string>, sequence: seq<G.WordAnimation>,
                                                  poses: map<string, G.PoseEntry>, trig: G.Trig)
    requires forall key :: key in poses ==> poses[key].dominantHand.frames >= 0
    requires |sequence| == |words|
    requires forall i :: 0 <= i < |words| ==>
               G.WordAnimationFor(words[i], poses, trig).Ok? && sequence[i] == G.WordAnimationFor(words[i], poses, trig).value
    ensures FrameTotal(sequence) == G.TotalFrames(sequence)
    decreases |words|
  {
    if words != [] {
      var n := |words| - 1;
      ExportFramesMatchTotal(words[..n], sequence[..n], poses, trig);
      var w := words[n];
      if Upper(w) in poses {
        var hand := poses[Upper(w)].dominantHand;
        assert sequence[n].frames == G.MovementFrames(hand.movement, hand.landmarks, hand.frames, trig).value;
        G.MovementFramesNumbered(hand.movement, hand.landmarks, hand.frames, trig);
      }
    }
  }

  /** The CSV rows, built by the three nested loops. */
  method CsvRows(sequence: seq<G.WordAnimation>) returns (csvData: seq<CsvPoint>)
    ensures csvData == SequencePoints(sequence)
  {
    csvData := [];
    var i := 0;
    while i < |sequence|
      invariant 0 <= i <= |sequence|
      invariant csvData == SequencePoints(sequence[..i])
    {
      var wordAnim := sequence[i];
      var frames := wordAnim.frames;
      var j := 0;
      while j < |frames|
        invariant 0 <= j <= |frames|
        invariant csvData == SequencePoints(sequence[..i]) + FramesPoints(wordAnim.word, frames[..j])
      {
        var frame := frames[j];
        var k := 0;
        var before := csvData;
        while k < |frame.handLandmarks|
          invariant 0 <= k <= |frame.handLandmarks|
          invariant csvData == before + FramePoints(wordAnim.word, frame)[..k]
        {
          var lm := frame.handLandmarks[k];
          csvData := csvData + [CsvPoint(wordAnim.word, frame.frameNumber, frame.timestamp,
                                         lm.x, lm.y, lm.z, lm.visibility.GetOr(1.0))];
          k := k + 1;
        }
        assert FramePoints(wordAnim.word, frame)[..k] == FramePoints(wordAnim.word, frame);
        assert frames[..j + 1][..j] == frames[..j];
        assert FramesPoints(wordAnim.word, frames[..j + 1])
            == FramesPoints(wordAnim.word, frames[..j]) + FramePoints(wordAnim.word, frame);
        j := j + 1;
      }
      assert frames[..j] == frames;
      assert sequence[..i + 1][..i] == sequence[..i];
      assert SequencePoints(sequence[..i + 1]) == SequencePoints(sequence[..i]) + FramesPoints(wordAnim.word, frames);
      i := i + 1;
    }
    assert sequence[..i] == sequence;
  }

  /** The MediaPipe entries, built by the two nested loops. */
  method MediaPipeRows(sequence: seq<G.WordAnimation>) returns (entries: seq<MediaPipeEntry>)
    ensures entries == SequenceEntries(sequence)
  {
    entries := [];
    var i := 0;
    while i < |sequence|
      invariant 0 <= i <= |sequence|
      invariant entries == SequenceEntries(sequence[..i])
    {
      var frames := sequence[i].frames;
      var j := 0;
      var before := entries;
      while j < |frames|
        invariant 0 <= j <= |frames|
        invariant entries == before + FrameEntries(frames)[..j]
      {
        entries := entries + [MediaPipeEntry(frames[j].frameNumber, frames[j].handLandmarks)];
        j := j + 1;
      }
      assert FrameEntries(frames)[..j] == FrameEntries(frames);
      assert sequence[..i + 1][..i] == sequence[..i];
      i := i + 1;
    }
    assert sequence[..i] == sequence;
  }

  /** /export-animation/<id>: `stored` is the saved animation file, absent
      when no file has that id; `format` is the query parameter. */
  method ExportAnimation(stored: Option<G.AvatarResponse>, format: Option<string>) returns (reply: Reply<Export>)
    ensures stored.None? <==> reply == NotFound("Animation not found")
    ensures stored.Some? ==>
              var fmt := format.GetOr("json");
              && (fmt == "json" ==> reply == Ok200(JsonExport(stored.value)))
              && (fmt == "csv" ==>
                    reply == Ok200(CsvExport(SequencePoints(StoredSequence(stored.value)),
                                             |SequencePoints(StoredSequence(stored.value))|)))
              && (fmt == "mediapipe" ==>
                    reply == Ok200(MediaPipeExport(SequenceEntries(StoredSequence(stored.value)), 30)))
              && (fmt !in {"json", "csv", "mediapipe"} ==> reply == BadRequest("Unsupported export format"))
  {
    if stored.None? {
      return NotFound("Animation not found");
    }
    var animation := stored.value;
    var exportFormat := format.GetOr("json");
    if exportFormat == "json" {
      reply := Ok200(JsonExport(animation));
    } else if exportFormat == "csv" {
      var csvData := CsvRows(StoredSequence(animation));
      reply := Ok200(CsvExport(csvData, |csvData|));
    } else if exportFormat == "mediapipe" {
      var entries := MediaPipeRows(StoredSequence(animation));
      reply := Ok200(MediaPipeExport(entries, 30));
    } else {
      reply := BadRequest("Unsupported export format");
    }
  }
}
