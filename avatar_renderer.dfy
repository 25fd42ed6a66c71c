/** The browser-side frame loop `DatasetAvatarRenderer`: it holds the frames
    of one animation, and each animation-frame callback draws the current
    frame and steps to the next once a frame period has elapsed.
    The browser's `requestAnimationFrame` queue is the field `scheduled`
    (callbacks waiting to run) and each callback is one call of `Render`;
    the 2-D context's pixels are the list of circles in `canvas`. */
module AvatarRenderer {
  import opened Wrappers

  /** One joint `[x, y, radius]` of a frame; the radius may be absent. */
  datatype Joint = Joint(x: real, y: real, radius: Option<real>)

  type Frame = seq<Joint>

  /** The `animation` object given to the constructor: its `frames` and
      `fps` properties may be undefined (the caller in content.js passes the
      frame array itself, whose `.frames` and `.fps` are undefined). */
  datatype AnimationArg = AnimationArg(frames: Option<seq<Frame>>, fps: Option<int>)

  /** A filled circle left on the canvas by `arc` and `fill`. */
  datatype Circle = Circle(x: real, y: real, radius: real)

  /** What one render callback did. */
  datatype RenderOutcome =
    | Idle      // not playing: returned at once, nothing rescheduled
    | Waiting   // playing, but less than one frame period has elapsed
    | Advanced  // drew a frame and stepped to the next one
    | Threw     // the frame list or the frame was undefined: a TypeError ended the loop

  const DefaultFps: int := 24
  const DefaultRadius: real := 5.0

  /** `animation.fps || 24`. */
  function EffectiveFps(fps: Option<int>): (r: int)
    ensures r != 0
    ensures fps.Some? && fps.value != 0 ==> r == fps.value
    ensures fps.None? || fps.value == 0 ==> r == DefaultFps
  {
    if fps.Some? && fps.value != 0 then fps.value else DefaultFps
  }

  /** `radius || 5`: the joint's own radius unless it is missing or zero. */
  function JointRadius(j: Joint): (r: real)
    ensures r != 0.0
    ensures j.radius.Some? && j.radius.value != 0.0 ==> r == j.radius.value
    ensures j.radius.None? || j.radius.value == 0.0 ==> r == DefaultRadius
  {
    if j.radius.Some? && j.radius.value != 0.0 then j.radius.value else DefaultRadius
  }

  /** The circles `drawFrame` leaves on a cleared canvas: one per joint, in order. */
  function Circles(frame: Frame): (cs: seq<Circle>)
    ensures |cs| == |frame|
    ensures forall i :: 0 <= i < |frame| ==>
              cs[i].x == frame[i].x && cs[i].y == frame[i].y && cs[i].radius == JointRadius(frame[i])
  {
    seq(|frame|, i requires 0 <= i < |frame| => Circle(frame[i].x, frame[i].y, JointRadius(frame[i])))
  }

  /** `elapsed >= 1000 / fps`, decided on integers (fps is never 0). */
  predicate FrameDue(elapsed: int, fps: int)
    requires fps != 0
  {
    if fps > 0 then elapsed * fps >= 1000 else elapsed * fps <= 1000
  }

  /** The integer test agrees with the source's division `1000 / fps`. */
  lemma FrameDueMeansPeriodElapsed(elapsed: int, fps: int)
    requires fps != 0
    ensures FrameDue(elapsed, fps) <==> elapsed as real >= 1000.0 / fps as real
  {
    var e, f := elapsed as real, fps as real;
    assert (1000.0 / f) * f == 1000.0;
    if fps > 0 {
      assert e >= 1000.0 / f <==> e * f >= (1000.0 / f) * f;
    } else {
      assert e >= 1000.0 / f <==> e * f <= (1000.0 / f) * f;
    }
  }

  /** `(currentFrame + 1) % frames.length`. */
  function Advance(i: int, n: int): int
    requires n > 0
  {
    (i + 1) % n
  }

  /** The frame index after `k` advancing callbacks. */
  function AdvanceTimes(i: int, k: nat, n: int): int
    requires n > 0
    decreases k
  {
    if k == 0 then i else Advance(AdvanceTimes(i, k - 1, n), n)
  }

  /** From a valid index, one advance steps forward and wraps to 0 after the last frame. */
  lemma AdvanceStep(i: int, n: int)
    requires 0 <= i < n
    ensures Advance(i, n) == if i + 1 < n then i + 1 else 0
  {
    if i + 1 == n {
      assert (i + 1) % n == n % n == 0;
    }
  }

  /** Up to a full cycle, `k` advances from a valid index land on
      `(i + k) mod n`, and the index never leaves [0, n). */
  lemma {:induction false} AdvanceTimesWraps(i: int, k: nat, n: int)
    requires 0 <= i < n && k <= n
    ensures AdvanceTimes(i, k, n) == if i + k < n then i + k else i + k - n
    ensures 0 <= AdvanceTimes(i, k, n) < n
    decreases k
  {
    if k > 0 {
      AdvanceTimesWraps(i, k - 1, n);
      AdvanceStep(AdvanceTimes(i, k - 1, n), n);
    }
  }

  /** After as many advancing callbacks as there are frames, playback is
      back at the frame it started from. */
  lemma {:induction false} FullCycleReturns(i: int, n: int)
    requires 0 <= i < n
    ensures AdvanceTimes(i, n as nat, n) == i
  {
    AdvanceTimesWraps(i, n as nat, n);
  }

  class DatasetAvatarRenderer {
    var animation: Option<seq<Frame>>
    var currentFrame: int
    var isPlaying: bool
    var lastFrameTime: Option<int>
    var fps: int
    var canvas: seq<Circle>
    var scheduled: nat

    ghost predicate Valid()
      reads this
    {
      && fps != 0
      && 0 <= currentFrame
      && (animation.Some? && |animation.value| > 0 ==> currentFrame < |animation.value|)
      && (isPlaying ==> lastFrameTime.Some?)
    }

    /** `new DatasetAvatarRenderer(canvas, animation)`: keeps `animation.frames`
        as given, starts at frame 0, not playing, and falls back to 24 fps. */
    constructor (arg: AnimationArg)
      ensures Valid()
      ensures animation == arg.frames && fps == EffectiveFps(arg.fps)
      ensures currentFrame == 0 && !isPlaying && lastFrameTime == None
      ensures canvas == [] && scheduled == 0
    {
      animation := arg.frames;
      currentFrame := 0;
      isPlaying := false;
      fps := EffectiveFps(arg.fps);
      lastFrameTime := None;
      canvas := [];
      scheduled := 0;
    }

    /** `play()`: start playing from the clock reading `now` and queue one
        render callback (a second `play` queues a second, independent loop). */
    method Play(now: int)
      requires Valid()
      modifies this`isPlaying, this`lastFrameTime, this`scheduled
      ensures Valid()
      ensures isPlaying && lastFrameTime == Some(now) && scheduled == old(scheduled) + 1
    {
      isPlaying := true;
      lastFrameTime := Some(now);
      scheduled := scheduled + 1;
    }

    /** `stop()`: clear the flag only; an already queued callback still runs
        and then finds the renderer stopped. */
    method Stop()
      requires Valid()
      modifies this`isPlaying
      ensures Valid() && !isPlaying
    {
      isPlaying := false;
    }

    /** `drawFrame(frame)`: one circle per joint, appended to what is on the canvas. */
    method DrawFrame(frame: Frame)
      modifies this`canvas
      ensures canvas == old(canvas) + Circles(frame)
    {
      var i := 0;
      while i < |frame|
        invariant 0 <= i <= |frame|
        invariant canvas == old(canvas) + Circles(frame)[..i]
      {
        var joint := frame[i];
        canvas := canvas + [Circle(joint.x, joint.y, JointRadius(joint))];
        i := i + 1;
      }
      assert Circles(frame)[..i] == Circles(frame);
    }

    /** `render(timestamp)`: one queued callback runs. */
    method Render(timestamp: int) returns (outcome: RenderOutcome)
      requires Valid() && scheduled > 0
      modifies this`canvas, this`currentFrame, this`lastFrameTime, this`scheduled
      ensures Valid()
      ensures !old(isPlaying) ==> outcome == Idle
      ensures outcome == Idle ==>
                scheduled == old(scheduled) - 1 && canvas == old(canvas)
                && currentFrame == old(currentFrame) && lastFrameTime == old(lastFrameTime)
      ensures old(isPlaying) ==>
                outcome != Idle
                && (outcome == Waiting <==> !FrameDue(timestamp - old(lastFrameTime).value, fps))
      ensures outcome == Waiting ==>
                scheduled == old(scheduled) && canvas == old(canvas)
                && currentFrame == old(currentFrame) && lastFrameTime == old(lastFrameTime)
      ensures outcome == Threw <==>
                old(isPlaying) && FrameDue(timestamp - old(lastFrameTime).value, fps)
                && (animation.None? || |animation.value| == 0)
      ensures outcome == Threw ==>
                scheduled == old(scheduled) - 1 && canvas == []
                && currentFrame == old(currentFrame) && lastFrameTime == old(lastFrameTime)
      ensures outcome == Advanced ==>
                && animation.Some? && |animation.value| > 0
                && canvas == Circles(animation.value[old(currentFrame)])
                && currentFrame == Advance(old(currentFrame), |animation.value|)
                && lastFrameTime == Some(timestamp)
                && scheduled == old(scheduled)
    {
      scheduled := scheduled - 1;
      if !isPlaying {
        return Idle;
      }
      var elapsed := timestamp - lastFrameTime.value;
      if FrameDue(elapsed, fps) {
        canvas := [];
        if animation.None? || currentFrame >= |animation.value| {
          // `this.animation[...]` on undefined, or `for...of` over an
          // undefined frame: a TypeError, and no new callback is queued.
          return Threw;
        }
        var frame := animation.value[currentFrame];
        DrawFrame(frame);
        currentFrame := (currentFrame + 1) % |animation.value|;
        lastFrameTime := Some(timestamp);
        outcome := Advanced;
      } else {
        outcome := Waiting;
      }
      scheduled := scheduled + 1;
    }
  }
}
