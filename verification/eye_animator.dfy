/** The blink state machine of `EyeAnimator`
    (src/animation/eye_animator.py). The clock and the random delay draws
    are inputs. */
module EyeAnimation {

  /** The frames of one blink. */
  const BlinkSequence: seq<string> := ["normal", "blink_half", "blink_closed", "blink_half", "normal"]

  /** Bounds of the random pause between blinks, in milliseconds. */
  const MinBlinkDelay := 3000
  const MaxBlinkDelay := 6000
  /** Milliseconds each blink frame stays on screen (at least). */
  const BlinkFrameDuration := 50

  /** The animator's state as a value. */
  datatype Eye = Eye(blinkIndex: int, isBlinking: bool, lastBlinkTime: int, nextBlinkDelay: int, blinkFrameStart: int)

  ghost predicate EyeOk(e: Eye)
  {
    && 0 <= e.blinkIndex < |BlinkSequence|
    && (!e.isBlinking ==> e.blinkIndex == 0)
    && MinBlinkDelay <= e.nextBlinkDelay <= MaxBlinkDelay
  }

  /** One call of `update` at time `now`, with `draw` the value
      `random.randint(3000, 6000)` would return: the new state and the eye
      frame shown. */
  function EyeStep(e: Eye, now: int, draw: int): (r: (Eye, string))
    requires EyeOk(e)
    requires MinBlinkDelay <= draw <= MaxBlinkDelay
    ensures EyeOk(r.0)
    ensures r.1 == BlinkSequence[r.0.blinkIndex]
    // during a blink: nothing moves until the frame has lasted long enough
    ensures e.isBlinking && now - e.blinkFrameStart <= BlinkFrameDuration ==> r.0 == e
    // then the index advances by exactly one ...
    ensures e.isBlinking && now - e.blinkFrameStart > BlinkFrameDuration && e.blinkIndex + 1 < |BlinkSequence| ==>
      r.0 == e.(blinkIndex := e.blinkIndex + 1, blinkFrameStart := now)
    // ... and past the last frame the blink ends and the next pause is drawn
    ensures e.isBlinking && now - e.blinkFrameStart > BlinkFrameDuration && e.blinkIndex + 1 == |BlinkSequence| ==>
      r.0 == Eye(0, false, now, draw, now)
    // between blinks the eyes are open, and a blink starts only after the pause
    ensures !e.isBlinking ==> r.1 == "normal"
    ensures !e.isBlinking ==> (r.0.isBlinking <==> now - e.lastBlinkTime > e.nextBlinkDelay)
    ensures !e.isBlinking && r.0.isBlinking ==> r.0 == e.(isBlinking := true, blinkIndex := 0, blinkFrameStart := now)
    ensures !e.isBlinking && !r.0.isBlinking ==> r.0 == e
  {
    if e.isBlinking then
      if now - e.blinkFrameStart > BlinkFrameDuration then
        var e' := e.(blinkIndex := e.blinkIndex + 1, blinkFrameStart := now);
        if e'.blinkIndex >= |BlinkSequence| then
          var done := e'.(isBlinking := false, blinkIndex := 0, lastBlinkTime := now, nextBlinkDelay := draw);
          (done, BlinkSequence[done.blinkIndex])
        else (e', BlinkSequence[e'.blinkIndex])
      else (e, BlinkSequence[e.blinkIndex])
    else if now - e.lastBlinkTime > e.nextBlinkDelay then
      (e.(isBlinking := true, blinkIndex := 0, blinkFrameStart := now), BlinkSequence[0])
    else (e, "normal")
  }

  /** A value `random.randint(3000, 6000)` can return. */
  type DelayDraw = d: int | MinBlinkDelay <= d <= MaxBlinkDelay witness MinBlinkDelay

  /** The frames shown over calls at `times`, the k-th call drawing
      `draws[k]` should it choose a new pause, and the final state. */
  function EyeRun(e: Eye, times: seq<int>, draws: seq<DelayDraw>): (r: (Eye, seq<string>))
    requires EyeOk(e)
    requires |draws| == |times|
    ensures EyeOk(r.0) && |r.1| == |times|
    decreases |times|
  {
    if times == [] then (e, [])
    else
      var step := EyeStep(e, times[0], draws[0]);
      var rest := EyeRun(step.0, times[1..], draws[1..]);
      (rest.0, [step.1] + rest.1)
  }

  /** Each call comes more than a frame duration after the previous one
      (the first after `start`). */
  predicate FramesDue(start: int, times: seq<int>)
  {
    && (|times| > 0 ==> times[0] - start > BlinkFrameDuration)
    && forall k :: 0 < k < |times| ==> times[k] - times[k - 1] > BlinkFrameDuration
  }

  /** A blink under way plays its remaining frames in order, one per due
      call, and ends with the eyes open and a fresh pause once the sequence
      is exhausted. */
  lemma {:induction false} BlinkProgress(e: Eye, times: seq<int>, draws: seq<DelayDraw>)
    requires EyeOk(e) && e.isBlinking
    requires |draws| == |times|
    requires FramesDue(e.blinkFrameStart, times)
    requires |times| <= |BlinkSequence| - e.blinkIndex
    ensures var r := EyeRun(e, times, draws);
      && (forall k :: 0 <= k < |times| && e.blinkIndex + k + 1 < |BlinkSequence| ==>
            r.1[k] == BlinkSequence[e.blinkIndex + k + 1])
      && (|times| < |BlinkSequence| - e.blinkIndex ==>
            r.0.isBlinking && r.0.blinkIndex == e.blinkIndex + |times|)
      && (|times| == |BlinkSequence| - e.blinkIndex ==>
            r.0 == Eye(0, false, times[|times| - 1], draws[|times| - 1], times[|times| - 1])
            && r.1[|times| - 1] == "normal")
    decreases |times|
  {
    if times != [] {
      var step := EyeStep(e, times[0], draws[0]);
      var rest, restDraws := times[1..], draws[1..];
      if e.blinkIndex + 1 < |BlinkSequence| {
        assert step.0.isBlinking && step.0.blinkIndex == e.blinkIndex + 1 && step.0.blinkFrameStart == times[0];
        assert FramesDue(times[0], rest) by {
          forall k | 0 < k < |rest|
            ensures rest[k] - rest[k - 1] > BlinkFrameDuration
          {
            assert rest[k] == times[k + 1] && rest[k - 1] == times[k];
          }
        }
        BlinkProgress(step.0, rest, restDraws);
        var out := EyeRun(e, times, draws).1;
        forall k | 0 < k < |times| && e.blinkIndex + k + 1 < |BlinkSequence|
          ensures out[k] == BlinkSequence[e.blinkIndex + k + 1]
        {
          assert out[k] == EyeRun(step.0, rest, restDraws).1[k - 1];
        }
        if |times| == |BlinkSequence| - e.blinkIndex {
          assert times[|times| - 1] == rest[|rest| - 1] && draws[|times| - 1] == restDraws[|rest| - 1];
          assert out[|times| - 1] == EyeRun(step.0, rest, restDraws).1[|rest| - 1];
        }
      } else {
        assert |times| == 1 && rest == [];
      }
    }
  }

  /** A whole blink: the call that starts it shows the open eyes, the next
      five due calls show the half-closed, closed, half-closed and open
      frames and then the open eyes again, after which the eyes rest. */
  lemma WholeBlink(e: Eye, times: seq<int>, draws: seq<DelayDraw>)
    requires EyeOk(e) && !e.isBlinking
    requires |draws| == |times|
    requires |times| == 6 && times[0] - e.lastBlinkTime > e.nextBlinkDelay
    requires FramesDue(times[0], times[1..])
    ensures EyeRun(e, times, draws).1 == ["normal", "blink_half", "blink_closed", "blink_half", "normal", "normal"]
    ensures EyeRun(e, times, draws).0 == Eye(0, false, times[5], draws[5], times[5])
  {
    var step := EyeStep(e, times[0], draws[0]);
    assert step.0.isBlinking && step.0.blinkIndex == 0 && step.0.blinkFrameStart == times[0];
    BlinkProgress(step.0, times[1..], draws[1..]);
    var out := EyeRun(e, times, draws).1;
    var tail := EyeRun(step.0, times[1..], draws[1..]).1;
    assert out == [step.1] + tail;
    assert tail[0] == BlinkSequence[1] && tail[1] == BlinkSequence[2];
    assert tail[2] == BlinkSequence[3] && tail[3] == BlinkSequence[4];
  }

  class EyeAnimator {
    var blinkIndex: int
    var isBlinking: bool
    var lastBlinkTime: int
    var nextBlinkDelay: int
    var blinkFrameStart: int

    ghost function State(): Eye
      reads this
    {
      Eye(blinkIndex, isBlinking, lastBlinkTime, nextBlinkDelay, blinkFrameStart)
    }

    ghost predicate Valid()
      reads this
    {
      EyeOk(State())
    }

    /** Created at time `now`, with the first pause `draw`. */
    constructor (now: int, draw: int)
      requires MinBlinkDelay <= draw <= MaxBlinkDelay
      ensures Valid()
      ensures State() == Eye(0, false, now, draw, 0)
    {
      blinkIndex := 0;
      isBlinking := false;
      lastBlinkTime := now;
      nextBlinkDelay := draw;
      blinkFrameStart := 0;
    }

    /** `update`. */
    method Update(now: int, draw: int) returns (frame: string)
      requires Valid()
      requires MinBlinkDelay <= draw <= MaxBlinkDelay
      modifies this
      ensures Valid()
      ensures (State(), frame) == EyeStep(old(State()), now, draw)
    {
      if isBlinking {
        if now - blinkFrameStart > BlinkFrameDuration {
          blinkIndex := blinkIndex + 1;
          blinkFrameStart := now;
          if blinkIndex >= |BlinkSequence| {
            isBlinking := false;
            blinkIndex := 0;
            lastBlinkTime := now;
            nextBlinkDelay := draw;
          }
        }
        return BlinkSequence[blinkIndex];
      }
      if now - lastBlinkTime > nextBlinkDelay {
        isBlinking := true;
        blinkIndex := 0;
        blinkFrameStart := now;
        return BlinkSequence[0];
      }
      frame := "normal";
    }
  }
}
