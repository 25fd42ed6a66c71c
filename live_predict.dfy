/** The live recogniser: each camera frame's hand landmarks are flattened
    into a row, the last 30 rows are kept, and every tenth frame (once 15 rows
    are buffered) the model is asked for a gesture, which is sent on when its
    confidence exceeds 0.1. The camera, the hand tracker, the model and the
    socket are parameters or recorded state. */
module LivePredict {
  import opened Text
  import C = Connection
  import opened Landmarks

  const BufferSize := 30
  const PredictionInterval := 10
  const MinBufferedRows := 15
  const PredictionThreshold := 0.1

  /** What `frame_buffer` holds after `history` was appended to it row by
      row, dropping the oldest row whenever it grew past 30. */
  function Window(history: seq<C.Row>): seq<C.Row> {
    if |history| <= BufferSize then history else history[|history| - BufferSize..]
  }

  /** The buffer is the most recent rows, at most 30 of them. */
  lemma WindowIsRecentSuffix(history: seq<C.Row>)
    ensures |Window(history)| == if |history| < BufferSize then |history| else BufferSize
    ensures Window(history) == history[|history| - |Window(history)|..]
  {
  }

  /** Appending a row and popping the front when over size keeps the window. */
  lemma WindowAppend(history: seq<C.Row>, row: C.Row)
    ensures var w := Window(history) + [row];
            (if |w| > BufferSize then w[1..] else w) == Window(history + [row])
  {
    var w := Window(history) + [row];
    var h := history + [row];
    if |history| > BufferSize {
      assert w[1..] == h[|h| - BufferSize..];
    } else if |history| == BufferSize {
      assert w[1..] == h[|h| - BufferSize..];
    }
  }

  /** The label sent for a class index: its name, or `Unknown-<index>`. */
  function LabelFor(labelMap: map<int, string>, index: nat): string {
    if index in labelMap then labelMap[index] else "Unknown-" + NatToString(index)
  }

  /** What one pass of the capture loop did. */
  datatype StepOutcome =
    | NoPrediction          // not a prediction frame, or too few rows buffered
    | BelowThreshold        // predicted, confidence not above 0.1
    | Sent(prediction: C.Prediction)
    | Crashed               // the model returned no scores; `np.argmax` raises

  /** A camera frame as the loop sees it: the tracked hands and whether 'q' was pressed. */
  datatype CameraFrame = CameraFrame(hands: seq<seq<Point3>>, quitPressed: bool)

  /** The rows the frames contribute, frame after frame and hand after hand. */
  function RowsOf(frames: seq<CameraFrame>): seq<C.Row>
    decreases |frames|
  {
    if frames == [] then [] else RowsOf(frames[..|frames| - 1]) + FlatRows(frames[|frames| - 1].hands)
  }

  class LivePredictor {
    const labelMap: map<int, string>
    const maxLen: nat
    var frameBuffer: seq<C.Row>
    var frameCount: nat
    var lastPrediction: string
    var confidenceScore: real
    /** The payloads emitted on the socket, oldest first. */
    var sent: seq<C.Prediction>
    /** Every row ever appended to the buffer. */
    ghost var history: seq<C.Row>

    ghost predicate Valid()
      reads this
    {
      frameBuffer == Window(history)
    }

    /** The frame is a prediction frame: a tenth frame with 15 rows buffered. */
    predicate Due()
      reads this
    {
      frameCount % PredictionInterval == 0 && |frameBuffer| >= MinBufferedRows
    }

    /** The model's scores for the shaped buffer, on a prediction frame. */
    function ModelScores(infer: seq<C.Row> -> seq<real>): seq<real>
      reads this
      requires Due()
    {
      infer(C.ShapeSequence(frameBuffer, maxLen).value)
    }

    constructor (labels: map<int, string>, modelInputLength: nat)
      ensures Valid()
      ensures labelMap == labels && maxLen == modelInputLength
      ensures frameBuffer == [] && history == [] && frameCount == 0
      ensures lastPrediction == "None" && confidenceScore == 0.0 && sent == []
    {
      labelMap := labels;
      maxLen := modelInputLength;
      frameBuffer := [];
      frameCount := 0;
      lastPrediction := "None";
      confidenceScore := 0.0;
      sent := [];
      history := [];
    }

    /** `frame_buffer.append(landmarks)`, then `pop(0)` when it grew past 30. */
    method PushRow(landmarks: C.Row)
      requires Valid()
      modifies this`frameBuffer, this`history
      ensures Valid()
      ensures history == old(history) + [landmarks]
    {
      WindowAppend(history, landmarks);
      frameBuffer := frameBuffer + [landmarks];
      if |frameBuffer| > BufferSize {
        frameBuffer := frameBuffer[1..];
      }
      history := history + [landmarks];
    }

    /** The `for hand_landmarks in ...` loop: each hand's row is pushed in turn. */
    method AddHands(hands: seq<seq<Point3>>)
      requires Valid()
      modifies this`frameBuffer, this`history
      ensures Valid()
      ensures history == old(history) + FlatRows(hands)
    {
      var i := 0;
      while i < |hands|
        invariant 0 <= i <= |hands|
        invariant Valid()
        invariant history == old(history) + FlatRows(hands)[..i]
      {
        var landmarks := Flatten(hands[i]);
        PushRow(landmarks);
        assert FlatRows(hands)[..i + 1] == FlatRows(hands)[..i] + [landmarks];
        i := i + 1;
      }
      assert FlatRows(hands)[..i] == FlatRows(hands);
    }

    /** One pass of the capture loop for the hands found in a frame. */
    method Step(hands: seq<seq<Point3>>, infer: seq<C.Row> -> seq<real>) returns (outcome: StepOutcome)
      requires Valid()
      modifies this
      ensures Valid()
      ensures history == old(history) + FlatRows(hands)
      ensures frameCount == old(frameCount) + 1
      ensures outcome == Crashed <==> Due() && ModelScores(infer) == []
      ensures old(sent) <= sent && |sent| <= |old(sent)| + 1
      ensures forall k :: |old(sent)| <= k < |sent| ==> sent[k].confidence > PredictionThreshold
      ensures var due := frameCount % PredictionInterval == 0 && |frameBuffer| >= MinBufferedRows;
              && (!due ==> outcome == NoPrediction && lastPrediction == old(lastPrediction)
                           && confidenceScore == old(confidenceScore) && sent == old(sent))
              && (due ==>
                    var scores := infer(C.ShapeSequence(frameBuffer, maxLen).value);
                    && (scores == [] <==> outcome == Crashed)
                    && (scores != [] ==>
                          var conf := scores[C.ArgMax(scores)];
                          && confidenceScore == conf
                          && (conf > PredictionThreshold ==>
                                && lastPrediction == LabelFor(labelMap, C.ArgMax(scores))
                                && sent == old(sent) + [C.Prediction(lastPrediction, conf)]
                                && outcome == Sent(C.Prediction(lastPrediction, conf)))
                          && (conf <= PredictionThreshold ==>
                                && lastPrediction == old(lastPrediction) && sent == old(sent)
                                && outcome == BelowThreshold)))
    {
      AddHands(hands);
      frameCount := frameCount + 1;
      if frameCount % PredictionInterval == 0 && |frameBuffer| >= MinBufferedRows {
        var sequence := C.ShapeSequence(frameBuffer, maxLen).value;
        var predictions := infer(sequence);
        if predictions == [] {
          return Crashed;
        }
        var predictedIndex := C.ArgMax(predictions);
        confidenceScore := predictions[predictedIndex];
        if confidenceScore > PredictionThreshold {
          if predictedIndex in labelMap {
            lastPrediction := labelMap[predictedIndex];
          } else {
            lastPrediction := "Unknown-" + NatToString(predictedIndex);
          }
          sent := sent + [C.Prediction(lastPrediction, confidenceScore)];
          outcome := Sent(C.Prediction(lastPrediction, confidenceScore));
        } else {
          outcome := BelowThreshold;
        }
      } else {
        outcome := NoPrediction;
      }
    }

    /** After the first `n` frames, from history `history0` and payloads
        `sent0`: their rows were appended in order, and at most one payload
        per frame was sent, each above the threshold. */
    ghost predicate RanOver(frames: seq<CameraFrame>, n: nat, history0: seq<C.Row>, sent0: seq<C.Prediction>)
      reads this
      requires n <= |frames|
    {
      && history == history0 + RowsOf(frames[..n])
      && sent0 <= sent && |sent| <= |sent0| + n
      && (forall k :: |sent0| <= k < |sent| ==> sent[k].confidence > PredictionThreshold)
    }

    /** Frame `i` of the capture loop, seen from the loop: whether the model
        failed, and the rows and payloads it added. */
    method StepFrame(frames: seq<CameraFrame>, i: nat, infer: seq<C.Row> -> seq<real>,
                     ghost history0: seq<C.Row>, ghost sent0: seq<C.Prediction>) returns (crashedNow: bool)
      requires i < |frames| && Valid() && RanOver(frames, i, history0, sent0)
      modifies this
      ensures Valid() && RanOver(frames, i + 1, history0, sent0)
      ensures frameCount == old(frameCount) + 1
      ensures crashedNow <==> Due() && ModelScores(infer) == []
    {
      assert frames[..i + 1][..i] == frames[..i];
      ghost var rows, added := RowsOf(frames[..i]), FlatRows(frames[i].hands);
      assert RowsOf(frames[..i + 1]) == rows + added;
      assert history0 + (rows + added) == (history0 + rows) + added;
      var outcome := Step(frames[i].hands, infer);
      crashedNow := outcome == Crashed;
    }

    /** The capture loop: frames are processed until the camera runs out,
        'q' is pressed after a frame, or the model fails. */
    method Run(frames: seq<CameraFrame>, infer: seq<C.Row> -> seq<real>) returns (processed: nat, crashed: bool)
      requires Valid()
      modifies this
      ensures Valid()
      ensures processed <= |frames| && frameCount == old(frameCount) + processed
      ensures history == old(history) + RowsOf(frames[..processed])
      ensures processed < |frames| ==> processed > 0 && (crashed || frames[processed - 1].quitPressed)
      ensures forall k :: 0 <= k < processed - 1 ==> !frames[k].quitPressed
      ensures crashed <==> processed > 0 && Due() && ModelScores(infer) == []
      ensures old(sent) <= sent && |sent| <= |old(sent)| + processed
      ensures forall k :: |old(sent)| <= k < |sent| ==> sent[k].confidence > PredictionThreshold
    {
      processed := 0;
      crashed := false;
      while processed < |frames|
        invariant Valid()
        invariant processed <= |frames| && frameCount == old(frameCount) + processed
        invariant RanOver(frames, processed, old(history), old(sent))
        invariant !crashed && (processed > 0 ==> !(Due() && ModelScores(infer) == []))
        invariant forall k :: 0 <= k < processed ==> !frames[k].quitPressed
      {
        crashed := StepFrame(frames, processed, infer, old(history), old(sent));
        processed := processed + 1;
        if crashed || frames[processed - 1].quitPressed {
          return;
        }
      }
    }
  }
}
