/** The state-change wiring of `AnimationController`
    (src/animation/animation_controller.py): entering and leaving the
    speaking state starts and stops the mouth, body and hand animators.
    Of the body and hand animators only their speaking/idle flags are
    modelled. */
module AnimationControl {
  import opened MouthAnimation
  import opened EyeAnimation

  /** GUI state code for speaking. */
  const Speaking := 3

  /** The speaking/idle flags of `BodyAnimator`
      (src/animation/body_animator.py); its breathing and tilt timers are
      not modelled. */
  class BodyAnimator {
    var isSpeaking: bool
    var isIdle: bool

    constructor ()
      ensures !isSpeaking && isIdle
    {
      isSpeaking := false;
      isIdle := true;
    }

    method StartSpeaking()
      modifies this
      ensures isSpeaking && !isIdle
    {
      isSpeaking := true;
      isIdle := false;
    }

    method StopSpeaking()
      modifies this
      ensures !isSpeaking && isIdle
    {
      isSpeaking := false;
      isIdle := true;
    }
  }

  /** The speaking/idle flags of `HandAnimator`
      (src/animation/hand_animator.py); its gestures and timers are not
      modelled. */
  class HandAnimator {
    var isSpeaking: bool
    var isIdle: bool

    constructor ()
      ensures !isSpeaking && isIdle
    {
      isSpeaking := false;
      isIdle := true;
    }

    method StartSpeaking()
      modifies this
      ensures isSpeaking && !isIdle
    {
      isSpeaking := true;
      isIdle := false;
    }

    method StopSpeaking()
      modifies this
      ensures !isSpeaking && isIdle
    {
      isSpeaking := false;
      isIdle := true;
    }
  }

  class AnimationController {
    var state: int
    const mouth: MouthAnimator
    const eye: EyeAnimator
    const body: BodyAnimator
    const hand: HandAnimator

    ghost predicate Valid()
      reads this, mouth, eye
    {
      mouth.Valid() && eye.Valid()
    }

    /** Created at time `now`; `draw` is the eye animator's first pause. */
    constructor (now: int, draw: int)
      requires MinBlinkDelay <= draw <= MaxBlinkDelay
      ensures Valid()
      ensures state == 0
      ensures fresh(mouth) && fresh(eye) && fresh(body) && fresh(hand)
      ensures mouth.State() == Mouth(0, 0, InitialInterval, false)
      ensures eye.State() == Eye(0, false, now, draw, 0)
      ensures !body.isSpeaking && !hand.isSpeaking
    {
      state := 0;
      mouth := new MouthAnimator();
      eye := new EyeAnimator(now, draw);
      body := new BodyAnimator();
      hand := new HandAnimator();
    }

    /** `set_state` at time `now`: only an edge into or out of the speaking
        state reaches the sub-animators. */
    method SetState(s: int, now: int)
      requires Valid()
      modifies this, mouth, body, hand
      ensures Valid()
      ensures state == s
      ensures s == Speaking && old(state) != Speaking ==>
        && mouth.speaking && mouth.lastUpdate == now
        && mouth.currentIndex == old(mouth.currentIndex) && mouth.updateInterval == old(mouth.updateInterval)
        && body.isSpeaking && !body.isIdle && hand.isSpeaking && !hand.isIdle
      ensures s != Speaking && old(state) == Speaking ==>
        && !mouth.speaking && mouth.currentIndex == 0
        && mouth.lastUpdate == old(mouth.lastUpdate) && mouth.updateInterval == old(mouth.updateInterval)
        && !body.isSpeaking && body.isIdle && !hand.isSpeaking && hand.isIdle
      ensures (s == Speaking) == (old(state) == Speaking) ==>
        && mouth.State() == old(mouth.State())
        && unchanged(body) && unchanged(hand)
    {
      var prev := state;
      state := s;
      if s == Speaking {
        if prev != Speaking {
          mouth.StartSpeaking(now);
          body.StartSpeaking();
          hand.StartSpeaking();
        }
      } else {
        if prev == Speaking {
          mouth.StopSpeaking();
          body.StopSpeaking();
          hand.StopSpeaking();
        }
      }
    }
  }
}
