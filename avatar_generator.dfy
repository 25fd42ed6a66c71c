/** `OpenSourceAvatarGenerator`: turns an ASL gloss into an animation, one
    word at a time. A word whose upper-case form has an entry in the pose
    table gets frames from a movement builder; any other word is
    fingerspelled at 20 frames per letter. An exception anywhere yields the
    error payload instead.

    Coordinates are reals; the floating-point `np.sin`, `np.cos` and `np.pi`
    are supplied as `Trig`. The only exceptions the model raises are the
    ones its well-typed inputs can still cause: an index past the end of a
    landmark list and a division by zero. */
module AvatarGenerator {
  import opened Wrappers
  import opened Text

  /** A hand landmark; `visibility` is absent in entries of the pose table. */
  datatype Landmark = Landmark(x: real, y: real, z: real, visibility: Option<real>)

  /** One generated frame. `handshape` and `letter` are present only for the
      builders that set them. */
  datatype Frame = Frame(frameNumber: int, handLandmarks: seq<Landmark>, timestamp: real,
                         handshape: Option<string>, letter: Option<char>)

  /** Opaque descriptive data copied from the pose table into the output. */
  type Info = map<string, string>

  datatype DominantHand = DominantHand(frames: int, movement: string, landmarks: seq<Landmark>)

  /** One entry of the pose table `asl_poses`. */
  datatype PoseEntry = PoseEntry(dominantHand: DominantHand, pose: Info, face: Info)

  /** The floating-point trigonometry the movement builders call. */
  datatype Trig = Trig(sin: real -> real, cos: real -> real, pi: real)

  datatype Fault = IndexError | ZeroDivisionError

  datatype Result<+T> = Ok(value: T) | Raised(fault: Fault)

  datatype WordAnimation =
    | PoseAnimation(word: string, frameCount: int, frames: seq<Frame>,
                    poseInfo: Info, faceInfo: Info, handshape: string)
    | Fingerspelled(word: string, frameCount: int, frames: seq<Frame>, letters: seq<char>)

  /** The `data` of a successful response (its constant fields `type`,
      `format`, `coordinate_system` and `libraries_used` are left implicit). */
  datatype AvatarData = AvatarData(aslGloss: string, sequence: seq<WordAnimation>,
                                   totalFrames: int, fps: int, duration: real)

  datatype AvatarResponse =
    | Generated(data: AvatarData)
    | ErrorFallback(aslGloss: string, message: string, fallbackType: string,
                    fallbackFrames: int, basicLandmarks: seq<Landmark>)
  {
    /** The `success` field of the response. */
    predicate Success() { Generated? }
  }

  const OutputFps: int := 30
  const FramesPerLetter: nat := 20
  const GeneratedVisibility: Option<real> := Some(0.9)

  /** Number of iterations of `range(frame_count)`. */
  function Count(frameCount: int): nat {
    if frameCount > 0 then frameCount else 0
  }

  /** `frame / 30.0`. */
  function Timestamp(i: nat): real {
    i as real / 30.0
  }

  /** `a + (b - a) * progress`. */
  function Lerp(a: real, b: real, progress: real): real {
    a + (b - a) * progress
  }

  // ---------------------------------------------------------------------
  // The frame each builder produces at position i (what its loop appends).

  function WaveShift(landmarks: seq<Landmark>, offset: real): (r: seq<Landmark>)
    ensures |r| == |landmarks|
  {
    seq(|landmarks|, j requires 0 <= j < |landmarks| =>
      Landmark(landmarks[j].x + offset, landmarks[j].y, landmarks[j].z, GeneratedVisibility))
  }

  function WaveFrame(landmarks: seq<Landmark>, i: nat, trig: Trig): Frame {
    Frame(i, WaveShift(landmarks, 0.05 * trig.sin(i as real * 0.4)), Timestamp(i), None, None)
  }

  /** The end point of the forward movement: the second landmark, or the
      first one moved by (0.1, 0.1) when there is no second. */
  function ForwardEnd(landmarks: seq<Landmark>): Landmark
    requires |landmarks| > 0
  {
    if |landmarks| > 1 then landmarks[1]
    else Landmark(landmarks[0].x + 0.1, landmarks[0].y + 0.1, 0.0, None)
  }

  /** A frame of a straight movement from `s` to `e` (forward and mouth-to-hand). */
  function LineFrame(s: Landmark, e: Landmark, i: nat, frameCount: int, handshape: Option<string>): Frame
    requires frameCount != 1
  {
    var progress := i as real / (frameCount - 1) as real;
    Frame(i, [Landmark(Lerp(s.x, e.x, progress), Lerp(s.y, e.y, progress), 0.0, GeneratedVisibility)],
          Timestamp(i), handshape, None)
  }

  function PointFrame(p: Landmark, i: nat, frameCount: int, trig: Trig): Frame {
    var emphasis := if i < frameCount / 2 then 0.02 * trig.sin(i as real * 0.8) else 0.0;
    Frame(i, [Landmark(p.x + emphasis, p.y, p.z, GeneratedVisibility)], Timestamp(i),
          Some("index_point"), None)
  }

  function CircularFrame(c: Landmark, i: nat, frameCount: int, trig: Trig): Frame
    requires frameCount > 0
  {
    var angle := (i as real / frameCount as real) * 2.0 * trig.pi;
    Frame(i, [Landmark(c.x + 0.03 * trig.cos(angle), c.y + 0.03 * trig.sin(angle), c.z, GeneratedVisibility)],
          Timestamp(i), Some("flat_hand"), None)
  }

  function StaticFrame(landmarks: seq<Landmark>, i: nat): Frame {
    Frame(i, landmarks, Timestamp(i), None, None)
  }

  /** `alphabet_poses`: every letter sits at (0.5, 0.5); only the handshape differs. */
  const AlphabetHandshapes: map<char, string> := map[
    'A' := "fist", 'B' := "flat_hand", 'C' := "c_shape", 'D' := "d_shape",
    'E' := "e_shape", 'F' := "f_shape", 'G' := "g_shape", 'H' := "h_shape",
    'I' := "i_shape", 'J' := "j_shape", 'K' := "k_shape", 'L' := "l_shape",
    'M' := "m_shape", 'N' := "n_shape", 'O' := "o_shape", 'P' := "p_shape",
    'Q' := "q_shape", 'R' := "r_shape", 'S' := "s_shape", 'T' := "t_shape",
    'U' := "u_shape", 'V' := "v_shape", 'W' := "w_shape", 'X' := "x_shape",
    'Y' := "y_shape", 'Z' := "z_shape"]

  /** The handshape of a letter; anything outside A-Z falls back to "flat_hand". */
  function LetterHandshape(letter: char): (h: string)
    ensures !('A' <= letter <= 'Z') ==> h == "flat_hand"
    ensures 'A' <= letter <= 'Z' ==> h == AlphabetHandshapes[letter]
  {
    Get(AlphabetHandshapes, letter).GetOr("flat_hand")
  }

  function LetterFrame(letter: char, i: nat): Frame {
    Frame(i, [Landmark(0.5, 0.5, 0.0, GeneratedVisibility)], Timestamp(i),
          Some(LetterHandshape(letter)), Some(letter))
  }

  function LetterFrames(letter: char, frameCount: int): (r: seq<Frame>)
    ensures |r| == Count(frameCount)
  {
    seq(Count(frameCount), i requires 0 <= i < Count(frameCount) => LetterFrame(letter, i))
  }

  /** The fingerspelled frames of `letters`: their 20-frame blocks in order. */
  function SpelledFrames(letters: seq<char>): seq<Frame>
    decreases |letters|
  {
    if letters == [] then []
    else SpelledFrames(letters[..|letters| - 1]) + LetterFrames(letters[|letters| - 1], FramesPerLetter)
  }

  /** Fingerspelling makes 20 frames per letter; frame k shows letter k / 20
      and is numbered k mod 20 within its letter's block. */
  lemma {:induction false} SpelledFramesAt(letters: seq<char>)
    ensures |SpelledFrames(letters)| == FramesPerLetter * |letters|
    ensures forall k :: 0 <= k < |SpelledFrames(letters)| ==>
              SpelledFrames(letters)[k] == LetterFrame(letters[k / FramesPerLetter], k % FramesPerLetter)
    decreases |letters|
  {
    if letters != [] {
      var init := letters[..|letters| - 1];
      var last := letters[|letters| - 1];
      SpelledFramesAt(init);
      var a, b := SpelledFrames(init), LetterFrames(last, FramesPerLetter);
      assert SpelledFrames(letters) == a + b;
      forall k | 0 <= k < |a| + |b|
        ensures (a + b)[k] == LetterFrame(letters[k / FramesPerLetter], k % FramesPerLetter)
      {
        if k < |a| {
          assert k / FramesPerLetter < |init|;
          assert letters[k / FramesPerLetter] == init[k / FramesPerLetter];
        } else {
          var j := k - |a|;
          assert 0 <= j < FramesPerLetter;
          assert k == FramesPerLetter * |init| + j;
          assert k / FramesPerLetter == |init| && k % FramesPerLetter == j;
        }
      }
    }
  }

  function WaveFrames(landmarks: seq<Landmark>, frameCount: int, trig: Trig): (r: seq<Frame>)
    ensures |r| == Count(frameCount)
  {
    seq(Count(frameCount), i requires 0 <= i < Count(frameCount) => WaveFrame(landmarks, i, trig))
  }

  function LineFrames(s: Landmark, e: Landmark, frameCount: int, handshape: Option<string>): (r: seq<Frame>)
    requires frameCount != 1
    ensures |r| == Count(frameCount)
  {
    seq(Count(frameCount), i requires 0 <= i < Count(frameCount) => LineFrame(s, e, i, frameCount, handshape))
  }

  function PointFrames(p: Landmark, frameCount: int, trig: Trig): (r: seq<Frame>)
    ensures |r| == Count(frameCount)
  {
    seq(Count(frameCount), i requires 0 <= i < Count(frameCount) => PointFrame(p, i, frameCount, trig))
  }

  function CircularFrames(c: Landmark, frameCount: int, trig: Trig): (r: seq<Frame>)
    ensures |r| == Count(frameCount)
  {
    if frameCount <= 0 then []
    else seq(frameCount, i requires 0 <= i < frameCount => CircularFrame(c, i, frameCount, trig))
  }

  function StaticFrames(landmarks: seq<Landmark>, frameCount: int): (r: seq<Frame>)
    ensures |r| == Count(frameCount)
  {
    seq(Count(frameCount), i requires 0 <= i < Count(frameCount) => StaticFrame(landmarks, i))
  }

  // ---------------------------------------------------------------------
  // The frame builders (`generate_*_movement`, `generate_static_pose`,
  // `generate_letter_frames`). Each returns one frame per iteration of
  // `range(frame_count)`, numbered by its position.

  method WaveMovement(landmarks: seq<Landmark>, frameCount: int, trig: Trig) returns (r: Result<seq<Frame>>)
    ensures r.Raised? <==> |landmarks| == 0
    ensures r.Raised? ==> r.fault == IndexError
    ensures r.Ok? ==> |r.value| == Count(frameCount)
    ensures r.Ok? ==> r.value == WaveFrames(landmarks, frameCount, trig)
    ensures r.Ok? ==> forall i :: 0 <= i < |r.value| ==>
              r.value[i].frameNumber == i && |r.value[i].handLandmarks| == |landmarks|
  {
    if |landmarks| == 0 {
      return Raised(IndexError);
    }
    var frames: seq<Frame> := [];
    var frame := 0;
    while frame < Count(frameCount)
      invariant 0 <= frame <= Count(frameCount)
      invariant |frames| == frame
      invariant forall i :: 0 <= i < frame ==> frames[i] == WaveFrame(landmarks, i, trig)
    {
      var waveOffset := 0.05 * trig.sin(frame as real * 0.4);
      var frameLandmarks: seq<Landmark> := [];
      var j := 0;
      while j < |landmarks|
        invariant 0 <= j <= |landmarks|
        invariant frameLandmarks == WaveShift(landmarks, waveOffset)[..j]
      {
        var lm := landmarks[j];
        frameLandmarks := frameLandmarks + [Landmark(lm.x + waveOffset, lm.y, lm.z, GeneratedVisibility)];
        j := j + 1;
      }
      assert frameLandmarks == WaveShift(landmarks, waveOffset);
      frames := frames + [Frame(frame, frameLandmarks, Timestamp(frame), None, None)];
      frame := frame + 1;
    }
    assert frames == WaveFrames(landmarks, frameCount, trig);
    return Ok(frames);
  }

  method ForwardMovement(landmarks: seq<Landmark>, frameCount: int) returns (r: Result<seq<Frame>>)
    ensures |landmarks| == 0 ==> r == Raised(IndexError)
    ensures |landmarks| > 0 && frameCount == 1 ==> r == Raised(ZeroDivisionError)
    ensures |landmarks| > 0 && frameCount != 1 ==> r.Ok?
    ensures r.Ok? ==> |r.value| == Count(frameCount)
    ensures r.Ok? ==> r.value == LineFrames(landmarks[0], ForwardEnd(landmarks), frameCount, None)
    ensures r.Ok? ==> forall i :: 0 <= i < |r.value| ==> r.value[i].frameNumber == i
  {
    if |landmarks| == 0 {
      return Raised(IndexError);
    }
    var startPos := landmarks[0];
    var endPos := ForwardEnd(landmarks);
    var frames: seq<Frame> := [];
    var frame := 0;
    while frame < Count(frameCount)
      invariant 0 <= frame <= Count(frameCount)
      invariant |frames| == frame
      invariant frame > 0 ==> frameCount != 1
      invariant forall i :: 0 <= i < frame ==> frames[i] == LineFrame(startPos, endPos, i, frameCount, None)
    {
      if frameCount - 1 == 0 {
        // `frame / (frame_count - 1)` with frame_count == 1
        return Raised(ZeroDivisionError);
      }
      frames := frames + [LineFrame(startPos, endPos, frame, frameCount, None)];
      frame := frame + 1;
    }
    assert frames == LineFrames(startPos, endPos, frameCount, None);
    return Ok(frames);
  }

  method PointMovement(landmarks: seq<Landmark>, frameCount: int, trig: Trig) returns (r: Result<seq<Frame>>)
    ensures r.Raised? <==> |landmarks| == 0
    ensures r.Raised? ==> r.fault == IndexError
    ensures r.Ok? ==> |r.value| == Count(frameCount)
    ensures r.Ok? ==> r.value == PointFrames(landmarks[0], frameCount, trig)
    ensures r.Ok? ==> forall i :: 0 <= i < |r.value| ==>
              r.value[i].frameNumber == i && r.value[i].handshape == Some("index_point")
  {
    if |landmarks| == 0 {
      return Raised(IndexError);
    }
    var pointPos := landmarks[0];
    var frames: seq<Frame> := [];
    var frame := 0;
    while frame < Count(frameCount)
      invariant 0 <= frame <= Count(frameCount)
      invariant |frames| == frame
      invariant forall i :: 0 <= i < frame ==> frames[i] == PointFrame(pointPos, i, frameCount, trig)
    {
      var emphasis := if frame < frameCount / 2 then 0.02 * trig.sin(frame as real * 0.8) else 0.0;
      frames := frames + [Frame(frame, [Landmark(pointPos.x + emphasis, pointPos.y, pointPos.z, GeneratedVisibility)],
                                Timestamp(frame), Some("index_point"), None)];
      frame := frame + 1;
    }
    assert frames == PointFrames(pointPos, frameCount, trig);
    return Ok(frames);
  }

  method CircularMovement(landmarks: seq<Landmark>, frameCount: int, trig: Trig) returns (r: Result<seq<Frame>>)
    ensures r.Raised? <==> |landmarks| == 0
    ensures r.Raised? ==> r.fault == IndexError
    ensures r.Ok? ==> |r.value| == Count(frameCount)
    ensures r.Ok? ==> r.value == CircularFrames(landmarks[0], frameCount, trig)
    ensures r.Ok? ==> forall i :: 0 <= i < |r.value| ==>
              r.value[i].frameNumber == i && r.value[i].handshape == Some("flat_hand")
  {
    if |landmarks| == 0 {
      return Raised(IndexError);
    }
    var center := landmarks[0];
    var frames: seq<Frame> := [];
    var frame := 0;
    while frame < Count(frameCount)
      invariant 0 <= frame <= Count(frameCount)
      invariant |frames| == frame
      invariant forall i :: 0 <= i < frame ==> frames[i] == CircularFrame(center, i, frameCount, trig)
    {
      frames := frames + [CircularFrame(center, frame, frameCount, trig)];
      frame := frame + 1;
    }
    assert frames == CircularFrames(center, frameCount, trig);
    return Ok(frames);
  }

  method MouthToHandMovement(landmarks: seq<Landmark>, frameCount: int) returns (r: Result<seq<Frame>>)
    ensures |landmarks| < 2 ==> r == Raised(IndexError)
    ensures |landmarks| >= 2 && frameCount == 1 ==> r == Raised(ZeroDivisionError)
    ensures |landmarks| >= 2 && frameCount != 1 ==> r.Ok?
    ensures r.Ok? ==> |r.value| == Count(frameCount)
    ensures r.Ok? ==> r.value == LineFrames(landmarks[0], landmarks[1], frameCount, Some("flat_hand"))
    ensures r.Ok? ==> forall i :: 0 <= i < |r.value| ==> r.value[i].frameNumber == i
  {
    if |landmarks| < 2 {
      return Raised(IndexError);
    }
    var startPos, endPos := landmarks[0], landmarks[1];
    var frames: seq<Frame> := [];
    var frame := 0;
    while frame < Count(frameCount)
      invariant 0 <= frame <= Count(frameCount)
      invariant |frames| == frame
      invariant frame > 0 ==> frameCount != 1
      invariant forall i :: 0 <= i < frame ==>
                  frames[i] == LineFrame(startPos, endPos, i, frameCount, Some("flat_hand"))
    {
      if frameCount - 1 == 0 {
        return Raised(ZeroDivisionError);
      }
      frames := frames + [LineFrame(startPos, endPos, frame, frameCount, Some("flat_hand"))];
      frame := frame + 1;
    }
    assert frames == LineFrames(startPos, endPos, frameCount, Some("flat_hand"));
    return Ok(frames);
  }

  /** Any other movement name: the table's landmarks, unchanged, in every frame. */
  method StaticPose(landmarks: seq<Landmark>, frameCount: int) returns (frames: seq<Frame>)
    ensures |frames| == Count(frameCount)
    ensures frames == StaticFrames(landmarks, frameCount)
    ensures forall i :: 0 <= i < |frames| ==>
              frames[i].frameNumber == i && frames[i].handLandmarks == landmarks
  {
    frames := [];
    var frame := 0;
    while frame < Count(frameCount)
      invariant 0 <= frame <= Count(frameCount)
      invariant |frames| == frame
      invariant forall i :: 0 <= i < frame ==> frames[i] == StaticFrame(landmarks, i)
    {
      frames := frames + [Frame(frame, landmarks, Timestamp(frame), None, None)];
      frame := frame + 1;
    }
    assert frames == StaticFrames(landmarks, frameCount);
  }

  method GenerateLetterFrames(letter: char, frameCount: int) returns (frames: seq<Frame>)
    ensures frames == LetterFrames(letter, frameCount)
    ensures forall i :: 0 <= i < |frames| ==>
              frames[i].frameNumber == i && frames[i].letter == Some(letter)
              && frames[i].handshape == Some(LetterHandshape(letter))
  {
    frames := [];
    var frame := 0;
    while frame < Count(frameCount)
      invariant 0 <= frame <= Count(frameCount)
      invariant frames == LetterFrames(letter, frameCount)[..frame]
    {
      frames := frames + [LetterFrame(letter, frame)];
      frame := frame + 1;
    }
    assert frames == LetterFrames(letter, frameCount)[..Count(frameCount)];
  }

  // ---------------------------------------------------------------------
  // Word-level dispatch.

  /** What `generate_word_animation` computes for a movement name. */
  function MovementFrames(movement: string, landmarks: seq<Landmark>, frameCount: int, trig: Trig): Result<seq<Frame>> {
    if movement == "wave" then
      (if |landmarks| == 0 then Raised(IndexError) else Ok(WaveFrames(landmarks, frameCount, trig)))
    else if movement == "forward_from_chin" then
      (if |landmarks| == 0 then Raised(IndexError)
       else if frameCount == 1 then Raised(ZeroDivisionError)
       else Ok(LineFrames(landmarks[0], ForwardEnd(landmarks), frameCount, None)))
    else if movement == "point" then
      (if |landmarks| == 0 then Raised(IndexError) else Ok(PointFrames(landmarks[0], frameCount, trig)))
    else if movement == "circular_on_chest" then
      (if |landmarks| == 0 then Raised(IndexError) else Ok(CircularFrames(landmarks[0], frameCount, trig)))
    else if movement == "mouth_to_hand" then
      (if |landmarks| < 2 then Raised(IndexError)
       else if frameCount == 1 then Raised(ZeroDivisionError)
       else Ok(LineFrames(landmarks[0], landmarks[1], frameCount, Some("flat_hand"))))
    else
      Ok(StaticFrames(landmarks, frameCount))
  }

  /** Whatever the movement, a successful builder yields `frame_count`
      frames (none for a negative count) numbered 0, 1, 2, ... */
  lemma MovementFramesNumbered(movement: string, landmarks: seq<Landmark>, frameCount: int, trig: Trig)
    requires MovementFrames(movement, landmarks, frameCount, trig).Ok?
    ensures |MovementFrames(movement, landmarks, frameCount, trig).value| == Count(frameCount)
    ensures forall i :: 0 <= i < Count(frameCount) ==>
              MovementFrames(movement, landmarks, frameCount, trig).value[i].frameNumber == i
  {
  }

  /** The five named movements are the only ones that can fail; any other
      name repeats the table's landmarks unchanged. */
  lemma UnnamedMovementIsStatic(movement: string, landmarks: seq<Landmark>, frameCount: int, trig: Trig)
    requires movement !in {"wave", "forward_from_chin", "point", "circular_on_chest", "mouth_to_hand"}
    ensures MovementFrames(movement, landmarks, frameCount, trig).Ok?
    ensures forall i :: 0 <= i < Count(frameCount) ==>
              MovementFrames(movement, landmarks, frameCount, trig).value[i].handLandmarks == landmarks
  {
  }

  const HandshapeTable: map<string, string> := map[
    "HELLO" := "flat_hand", "THANK-YOU" := "flat_hand", "YOU" := "index_point",
    "ME" := "index_point", "PLEASE" := "flat_hand", "GOOD" := "flat_hand",
    "BAD" := "flat_hand", "YES" := "fist", "NO" := "index_point"]

  /** `get_handshape_for_word`: a case-insensitive table lookup with
      "flat_hand" for words outside the table. */
  function HandshapeForWord(word: string): (h: string)
    ensures Upper(word) !in HandshapeTable ==> h == "flat_hand"
    ensures Upper(word) in HandshapeTable ==> h == HandshapeTable[Upper(word)]
  {
    Get(HandshapeTable, Upper(word)).GetOr("flat_hand")
  }

  /** The lookup ignores case: a word and its upper-case form get the same handshape. */
  lemma HandshapeIgnoresCase(word: string)
    ensures HandshapeForWord(word) == HandshapeForWord(Upper(word))
  {
    UpperIdempotent(word);
  }

  /** The pose animation of a word with table entry `pose`. */
  function PoseWordAnimation(word: string, pose: PoseEntry, trig: Trig): Result<WordAnimation> {
    var hand := pose.dominantHand;
    var frames := MovementFrames(hand.movement, hand.landmarks, hand.frames, trig);
    if frames.Raised? then Raised(frames.fault)
    else Ok(PoseAnimation(word, hand.frames, frames.value, pose.pose, pose.face, HandshapeForWord(word)))
  }

  /** `generate_word_animation`: dispatch on the movement name. */
  method GenerateWordAnimation(word: string, pose: PoseEntry, trig: Trig) returns (r: Result<WordAnimation>)
    ensures r == PoseWordAnimation(word, pose, trig)
    ensures r.Ok? ==> r.value.PoseAnimation? && r.value.word == word
                      && r.value.frameCount == pose.dominantHand.frames
  {
    var hand := pose.dominantHand;
    var frameCount, movement, landmarks := hand.frames, hand.movement, hand.landmarks;
    var frames: Result<seq<Frame>>;
    if movement == "wave" {
      frames := WaveMovement(landmarks, frameCount, trig);
    } else if movement == "forward_from_chin" {
      frames := ForwardMovement(landmarks, frameCount);
    } else if movement == "point" {
      frames := PointMovement(landmarks, frameCount, trig);
    } else if movement == "circular_on_chest" {
      frames := CircularMovement(landmarks, frameCount, trig);
    } else if movement == "mouth_to_hand" {
      frames := MouthToHandMovement(landmarks, frameCount);
    } else {
      var fs := StaticPose(landmarks, frameCount);
      frames := Ok(fs);
    }
    assert frames == MovementFrames(movement, landmarks, frameCount, trig);
    if frames.Raised? {
      return Raised(frames.fault);
    }
    r := Ok(PoseAnimation(word, frameCount, frames.value, pose.pose, pose.face, HandshapeForWord(word)));
  }

  /** `generate_fingerspelling_animation`. */
  function SpellWord(word: string): WordAnimation {
    var letters := Upper(word);
    var frames := SpelledFrames(letters);
    Fingerspelled(word, |frames|, frames, letters)
  }

  method GenerateFingerspellingAnimation(word: string) returns (a: WordAnimation)
    ensures a == SpellWord(word)
    ensures a.Fingerspelled? && a.word == word && a.letters == Upper(word)
    ensures a.frameCount == |a.frames| == FramesPerLetter * |word|
  {
    var letters := Upper(word);
    var frames: seq<Frame> := [];
    var i := 0;
    while i < |letters|
      invariant 0 <= i <= |letters|
      invariant frames == SpelledFrames(letters[..i])
    {
      var letterFrames := GenerateLetterFrames(letters[i], FramesPerLetter);
      assert letters[..i + 1][..i] == letters[..i];
      frames := frames + letterFrames;
      i := i + 1;
    }
    assert letters[..i] == letters;
    SpelledFramesAt(letters);
    a := Fingerspelled(word, |frames|, frames, letters);
  }

  /** The animation of one word of the gloss. */
  function WordAnimationFor(word: string, poses: map<string, PoseEntry>, trig: Trig): Result<WordAnimation> {
    if Upper(word) in poses then PoseWordAnimation(word, poses[Upper(word)], trig)
    else
      Ok(SpellWord(word))
  }

  /** Known words (upper-case form in the table) get a pose animation whose
      frame count is the table's; all others are fingerspelled with 20
      frames per letter. */
  lemma WordAnimationDispatch(word: string, poses: map<string, PoseEntry>, trig: Trig)
    requires WordAnimationFor(word, poses, trig).Ok?
    ensures WordAnimationFor(word, poses, trig).value.word == word
    ensures WordAnimationFor(word, poses, trig).value.PoseAnimation? <==> Upper(word) in poses
    ensures Upper(word) in poses ==>
              WordAnimationFor(word, poses, trig).value.frameCount == poses[Upper(word)].dominantHand.frames
    ensures Upper(word) !in poses ==>
              WordAnimationFor(word, poses, trig).value.frameCount == FramesPerLetter * |word|
  {
    if Upper(word) !in poses {
      SpelledFramesAt(Upper(word));
    }
  }

  /** `sum(frame_count)` over the animation sequence. */
  function TotalFrames(sequence: seq<WordAnimation>): int
    decreases |sequence|
  {
    if sequence == [] then 0
    else TotalFrames(sequence[..|sequence| - 1]) + sequence[|sequence| - 1].frameCount
  }

  function ErrorResponse(aslGloss: string): (r: AvatarResponse)
    ensures !r.Success()
  {
    ErrorFallback(aslGloss, "Could not generate avatar - using fallback", "basic_pose", 30,
                  [Landmark(0.5, 0.5, 0.0, None)])
  }

  /** The loop body for one word: the pose builder when the upper-case word
      is in the table, fingerspelling otherwise. */
  method AnimateWord(word: string, poses: map<string, PoseEntry>, trig: Trig) returns (r: Result<WordAnimation>)
    ensures r == WordAnimationFor(word, poses, trig)
  {
    var wordUpper := Upper(word);
    if wordUpper in poses {
      r := GenerateWordAnimation(word, poses[wordUpper], trig);
    } else {
      var animation := GenerateFingerspellingAnimation(word);
      r := Ok(animation);
    }
  }

  /** The `for word in words` loop: one animation per word, in order, the
      frame counts summed; `ok` is false when a builder raised, which ends
      the loop at once. */
  method AnimateWords(words: seq<string>, poses: map<string, PoseEntry>, trig: Trig)
    returns (ok: bool, sequence: seq<WordAnimation>, totalFrames: int)
    ensures ok <==> forall i :: 0 <= i < |words| ==> WordAnimationFor(words[i], poses, trig).Ok?
    ensures ok ==> |sequence| == |words|
                   && (forall i :: 0 <= i < |words| ==> sequence[i] == WordAnimationFor(words[i], poses, trig).value)
                   && totalFrames == TotalFrames(sequence)
  {
    sequence := [];
    totalFrames := 0;
    var i := 0;
    while i < |words|
      invariant 0 <= i <= |words|
      invariant |sequence| == i
      invariant forall k :: 0 <= k < i ==> WordAnimationFor(words[k], poses, trig).Ok?
      invariant forall k :: 0 <= k < i ==> sequence[k] == WordAnimationFor(words[k], poses, trig).value
      invariant totalFrames == TotalFrames(sequence)
    {
      var attempt := AnimateWord(words[i], poses, trig);
      if attempt.Raised? {
        return false, sequence, totalFrames;
      }
      var animation := attempt.value;
      assert (sequence + [animation])[..i] == sequence;
      sequence := sequence + [animation];
      totalFrames := totalFrames + animation.frameCount;
      i := i + 1;
    }
    ok := true;
  }

  /** `generate_avatar_animation`: one animation per whitespace-separated
      word, in order, the frame counts summed; if any word's builder raises,
      the error payload instead. */
  method GenerateAvatarAnimation(aslGloss: string, poses: map<string, PoseEntry>, trig: Trig)
    returns (response: AvatarResponse)
    ensures response.Success() <==>
              forall i :: 0 <= i < |Split(aslGloss)| ==> WordAnimationFor(Split(aslGloss)[i], poses, trig).Ok?
    ensures !response.Success() ==> response == ErrorResponse(aslGloss)
    ensures response.Success() ==>
              var d := response.data;
              && d.aslGloss == aslGloss && d.fps == OutputFps
              && |d.sequence| == |Split(aslGloss)|
              && (forall i :: 0 <= i < |d.sequence| ==>
                    d.sequence[i] == WordAnimationFor(Split(aslGloss)[i], poses, trig).value)
              && d.totalFrames == TotalFrames(d.sequence)
              && d.duration == d.totalFrames as real / 30.0
  {
    var words := Split(aslGloss);
    var ok, sequence, totalFrames := AnimateWords(words, poses, trig);
    if !ok {
      return ErrorResponse(aslGloss);
    }
    response := Generated(AvatarData(aslGloss, sequence, totalFrames, OutputFps, totalFrames as real / 30.0));
  }
}
