/** The animation playback step of the main loop: while playing, the frame counter
    advances by one modulo the clip's frame count; while paused, it follows the
    frame slider. */
module Playback {

  const U32Modulus: int := 0x1_0000_0000

  /** An unsigned 32-bit value (animCurrentFrame is `unsigned`). */
  type U32 = x: int | 0 <= x < 0x1_0000_0000

  /** The playback variables: the frame counter, the frame slider's value and the
      play/pause toggle. */
  datatype PlaybackState = PlaybackState(frame: U32, slider: real, playing: bool)

  /** The slider value can be converted to an unsigned frame number. It is never
      negative, but it need not lie inside the current clip: switching to a shorter
      clip while paused keeps the old value until the slider is drawn again. */
  predicate SliderCastable(s: PlaybackState)
  {
    0.0 <= s.slider < U32Modulus as real
  }

  /** The next frame while playing: animCurrentFrame + 1 in unsigned arithmetic,
      modulo frameCount. */
  function NextFrame(frame: U32, frameCount: int): (r: U32)
    requires frameCount > 0
    ensures r < frameCount
    ensures frame + 1 < U32Modulus ==> r == (frame + 1) % frameCount
  {
    ((frame + 1) % U32Modulus) % frameCount
  }

  /** The playback step as the main loop writes it. While paused the slider value is
      truncated to an unsigned frame number. */
  function PlayStep(s: PlaybackState, frameCount: int): (r: PlaybackState)
    requires !s.playing ==> SliderCastable(s)
    requires frameCount < U32Modulus
    ensures r.playing == s.playing
    ensures s.playing && frameCount > 0 ==> r.frame == NextFrame(s.frame, frameCount) && r.slider == r.frame as real
    ensures s.playing && frameCount <= 0 ==> r.frame == 0 && r.slider == 0.0
    ensures !s.playing ==> r.slider == s.slider && r.frame as real <= s.slider < r.frame as real + 1.0
  {
    if s.playing then
      var frame: U32 := if frameCount > 0 then NextFrame(s.frame, frameCount) else 0;
      s.(frame := frame, slider := frame as real)
    else
      s.(frame := s.slider.Floor)
  }

  /** k playing steps from a frame inside the clip. */
  function PlaySteps(frame: U32, frameCount: int, k: nat): (r: U32)
    requires frameCount > 0
  {
    if k == 0 then frame else NextFrame(PlaySteps(frame, frameCount, k - 1), frameCount)
  }

  /** From a frame inside the clip, k steps of playing reach frame + k modulo frameCount. */
  lemma {:induction false} PlayStepsModular(frame: U32, frameCount: int, k: nat)
    requires 0 < frameCount < U32Modulus && frame < frameCount
    ensures PlaySteps(frame, frameCount, k) == (frame + k) % frameCount
  {
    if k > 0 {
      PlayStepsModular(frame, frameCount, k - 1);
      var p := PlaySteps(frame, frameCount, k - 1);
      assert p < frameCount;
      ModularSuccessor(frame + k - 1, frameCount);
    }
  }

  lemma ModularSuccessor(a: nat, n: int)
    requires n > 0
    ensures (a % n + 1) % n == (a + 1) % n
  {
    var q, r := a / n, a % n;
    if r + 1 == n {
      ModUnique(a + 1, n, q + 1, 0);
      ModUnique(n, n, 1, 0);
    } else {
      ModUnique(a + 1, n, q, r + 1);
      ModUnique(r + 1, n, 0, r + 1);
    }
  }

  /** Division with remainder has one result. */
  lemma ModUnique(x: int, n: int, q: int, r: int)
    requires n > 0 && 0 <= r < n && x == q * n + r
    ensures x % n == r
  {
    var q', r' := x / n, x % n;
    assert (q - q') * n == r' - r;
    if q > q' {
      MulAtLeast(q - q', n);
    } else if q < q' {
      MulAtLeast(q' - q, n);
    }
  }

  lemma MulAtLeast(k: int, n: int)
    requires k >= 1 && n > 0
    ensures k * n >= n
  {
  }

  /** Playing a clip for frameCount steps returns to the starting frame. */
  lemma PlayingCycles(frame: U32, frameCount: int)
    requires 0 < frameCount < U32Modulus && frame < frameCount
    ensures PlaySteps(frame, frameCount, frameCount) == frame
  {
    PlayStepsModular(frame, frameCount, frameCount);
    ModUnique(frame + frameCount, frameCount, 1, frame);
  }

  /** Paused with the slider at or past the clip's end (its right end, or a value
      kept from a longer clip), the frame counter leaves the clip. */
  lemma PausedAtEndLeavesClip(frameCount: int, frame: U32, slider: real)
    requires 0 < frameCount < U32Modulus
    requires frameCount as real <= slider < U32Modulus as real
    ensures var r := PlayStep(PlaybackState(frame, slider, false), frameCount);
      r.frame >= frameCount && r.frame == slider.Floor
  {
  }

  /** Switching from a 100-frame clip to a 10-frame clip while paused at frame 90. */
  lemma ClipSwitchWhilePaused()
    ensures PlayStep(PlaybackState(90, 90.0, false), 10).frame == 90
  {
  }

  /** The paused step with the slider value clamped to the last frame of the clip. */
  function PausedFrame(slider: real, frameCount: int): (frame: U32)
    requires 0.0 <= slider < U32Modulus as real && frameCount < U32Modulus
    ensures frameCount > 0 ==> frame < frameCount
    ensures slider < frameCount as real ==> frame == slider.Floor
    ensures 0 < frameCount && frameCount as real <= slider ==> frame == frameCount - 1
  {
    var f := slider.Floor;
    if f >= frameCount && frameCount > 0 then frameCount - 1 else f
  }

  /** The playback step with the paused path clamped. */
  function PlayStepClamped(s: PlaybackState, frameCount: int): (r: PlaybackState)
    requires !s.playing ==> SliderCastable(s)
    requires frameCount < U32Modulus
    ensures frameCount > 0 ==> r.frame < frameCount
    ensures r.playing == s.playing && r.slider == PlayStep(s, frameCount).slider
    ensures s.playing ==> r == PlayStep(s, frameCount)
    ensures !s.playing && s.slider < frameCount as real ==> r == PlayStep(s, frameCount)
    ensures !s.playing && 0 < frameCount && frameCount as real <= s.slider ==> r.frame == frameCount - 1
  {
    if s.playing then PlayStep(s, frameCount) else s.(frame := PausedFrame(s.slider, frameCount))
  }

  /** The playback variables of the main loop, updated once per frame. */
  class Player {
    var animCurrentFrame: U32
    var currentFrame: real
    var isPlayAnimation: bool

    function State(): PlaybackState
      reads this
    {
      PlaybackState(animCurrentFrame, currentFrame, isPlayAnimation)
    }

    /** The program starts at frame 0 with the animation playing. */
    constructor ()
      ensures State() == PlaybackState(0, 0.0, true)
    {
      animCurrentFrame := 0;
      currentFrame := 0.0;
      isPlayAnimation := true;
    }

    /** One playback step for a clip of frameCount frames, with the paused path
        clamped to the clip. */
    method Step(frameCount: int)
      requires !isPlayAnimation ==> SliderCastable(State())
      requires frameCount < U32Modulus
      modifies this
      ensures State() == PlayStepClamped(old(State()), frameCount)
    {
      if isPlayAnimation {
        if frameCount > 0 {
          animCurrentFrame := ((animCurrentFrame + 1) % U32Modulus) % frameCount;
        } else {
          animCurrentFrame := 0;
        }
        currentFrame := animCurrentFrame as real;
      } else {
        var truncated := currentFrame.Floor;
        if truncated >= frameCount && frameCount > 0 {
          truncated := frameCount - 1;
        }
        animCurrentFrame := truncated;
      }
    }

    /** The play/pause button. */
    method Toggle()
      modifies this
      ensures State() == old(State()).(playing := !old(State()).playing)
    {
      isPlayAnimation := !isPlayAnimation;
    }
  }
}
