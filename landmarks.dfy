/** Hand landmarks as the capture scripts flatten them: the x, y and z of
    each tracked point in turn, one row per detected hand. */
module Landmarks {
  /** A tracked hand landmark. */
  datatype Point3 = Point3(x: real, y: real, z: real)

  /** `landmarks += [lm.x, lm.y, lm.z]` over a hand: x, y, z of every landmark in turn. */
  function FlatRow(hand: seq<Point3>): (r: seq<real>)
    ensures |r| == 3 * |hand|
    ensures forall i :: 0 <= i < |hand| ==>
              r[3 * i] == hand[i].x && r[3 * i + 1] == hand[i].y && r[3 * i + 2] == hand[i].z
    decreases |hand|
  {
    if hand == [] then []
    else
      var p := hand[|hand| - 1];
      FlatRow(hand[..|hand| - 1]) + [p.x, p.y, p.z]
  }

  /** One row per detected hand, in detection order. */
  function FlatRows(hands: seq<seq<Point3>>): (r: seq<seq<real>>)
    ensures |r| == |hands| && forall i :: 0 <= i < |hands| ==> r[i] == FlatRow(hands[i])
  {
    seq(|hands|, i requires 0 <= i < |hands| => FlatRow(hands[i]))
  }

  /** The flattening loop for one hand. */
  method Flatten(hand: seq<Point3>) returns (landmarks: seq<real>)
    ensures landmarks == FlatRow(hand)
  {
    landmarks := [];
    var i := 0;
    while i < |hand|
      invariant 0 <= i <= |hand|
      invariant landmarks == FlatRow(hand[..i])
    {
      var lm := hand[i];
      landmarks := landmarks + [lm.x, lm.y, lm.z];
      assert hand[..i + 1][..i] == hand[..i];
      i := i + 1;
    }
    assert hand[..i] == hand;
  }
}
