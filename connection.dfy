/** The prediction server: fitting a landmark sequence to the model's input
    length, choosing the most likely class, and relaying predictions over the
    socket. The model itself is a parameter (`infer`). */
module Connection {
  import opened Wrappers

  /** One frame of flattened landmark coordinates. */
  type Row = seq<real>

  /** A row of `width` zeros. */
  function ZeroRow(width: nat): (r: Row)
    ensures |r| == width && forall j :: 0 <= j < width ==> r[j] == 0.0
  {
    seq(width, _ => 0.0)
  }

  /** The sequence fitted to `maxLen` rows: a shorter one is padded at the end
      with zero rows as wide as its first row, a longer one keeps its last
      `maxLen` rows. `None` is numpy's failure on an empty sequence, which has
      no second dimension to pad with; `maxLen == 0` keeps every row, since a
      slice from `-0` starts at the beginning. */
  function ShapeSequence(rows: seq<Row>, maxLen: nat): (r: Option<seq<Row>>)
    ensures r.None? <==> rows == [] && maxLen > 0
    ensures r.Some? && maxLen > 0 ==> |r.value| == maxLen
    ensures r.Some? && |rows| < maxLen ==>
              r.value[..|rows|] == rows
              && forall i :: |rows| <= i < maxLen ==> r.value[i] == ZeroRow(|rows[0]|)
    ensures r.Some? && 0 < maxLen <= |rows| ==> r.value == rows[|rows| - maxLen..]
    ensures maxLen == 0 ==> r == Some(rows)
  {
    if |rows| < maxLen then
      if rows == [] then None
      else
        var padding := seq(maxLen - |rows|, _ => ZeroRow(|rows[0]|));
        Some(rows + padding)
    else if maxLen == 0 then Some(rows)
    else Some(rows[|rows| - maxLen..])
  }

  /** Shaping is idempotent: a fitted sequence already has the model's length. */
  lemma ShapeIdempotent(rows: seq<Row>, maxLen: nat)
    requires ShapeSequence(rows, maxLen).Some?
    ensures ShapeSequence(ShapeSequence(rows, maxLen).value, maxLen) == ShapeSequence(rows, maxLen)
  {
    var s := ShapeSequence(rows, maxLen).value;
    if maxLen > 0 {
      assert s[|s| - maxLen..] == s;
    }
  }

  /** Only the last `maxLen` rows can influence the prediction once there are
      at least that many: rows in front of them are dropped. */
  lemma ShapeKeepsRecentRows(older: seq<Row>, recent: seq<Row>, maxLen: nat)
    requires 0 < maxLen <= |recent|
    ensures ShapeSequence(older + recent, maxLen) == ShapeSequence(recent, maxLen)
  {
    var all := older + recent;
    assert all[|all| - maxLen..] == recent[|recent| - maxLen..];
  }

  /** `np.argmax`: the first index holding the largest score. */
  function ArgMax(scores: seq<real>): (r: nat)
    requires |scores| > 0
    ensures r < |scores|
    ensures forall j :: 0 <= j < |scores| ==> scores[j] <= scores[r]
    ensures forall j :: 0 <= j < r ==> scores[j] < scores[r]
    decreases |scores|
  {
    if |scores| == 1 then 0
    else
      var k := ArgMax(scores[..|scores| - 1]);
      if scores[|scores| - 1] > scores[k] then |scores| - 1 else k
  }

  /** The `{"gesture", "confidence"}` payload. */
  datatype Prediction = Prediction(gesture: string, confidence: real)

  /** Why a /predict request fails: an empty sequence cannot be padded, an
      empty score vector has no maximum. */
  datatype PredictError = EmptySequence | NoScores

  datatype PredictResult = Predicted(prediction: Prediction) | Failed(error: PredictError)

  /** /predict: fit the sequence, run the model, report the most likely
      gesture (the first one on a tie), "Unknown" when the label map has no
      entry for its index. */
  function Predict(sequence: seq<Row>, maxLen: nat, infer: seq<Row> -> seq<real>,
                   labelMap: map<int, string>): (r: PredictResult)
    ensures ShapeSequence(sequence, maxLen).None? <==> r == Failed(EmptySequence)
    ensures ShapeSequence(sequence, maxLen).Some? && infer(ShapeSequence(sequence, maxLen).value) == [] <==>
              r == Failed(NoScores)
    ensures r.Predicted? ==>
              var scores := infer(ShapeSequence(sequence, maxLen).value);
              && (exists i :: 0 <= i < |scores| && r.prediction.confidence == scores[i]
                    && (forall j :: 0 <= j < |scores| ==> scores[j] <= scores[i])
                    && (forall j :: 0 <= j < i ==> scores[j] < scores[i])
                    && (i in labelMap ==> r.prediction.gesture == labelMap[i])
                    && (i !in labelMap ==> r.prediction.gesture == "Unknown"))
  {
    var shaped := ShapeSequence(sequence, maxLen);
    if shaped.None? then Failed(EmptySequence)
    else
      var scores := infer(shaped.value);
      if scores == [] then Failed(NoScores)
      else
        var index := ArgMax(scores);
        Predicted(Prediction(Get(labelMap, index).GetOr("Unknown"), scores[index]))
  }

  /** The `prediction` socket event: relay the payload, filling in "None" and
      0.0 for missing fields. */
  function OnPrediction(gesture: Option<string>, confidence: Option<real>): (r: Prediction)
    ensures gesture.Some? ==> r.gesture == gesture.value
    ensures gesture.None? ==> r.gesture == "None"
    ensures confidence.Some? ==> r.confidence == confidence.value
    ensures confidence.None? ==> r.confidence == 0.0
  {
    Prediction(gesture.GetOr("None"), confidence.GetOr(0.0))
  }
}
