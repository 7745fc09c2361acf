/**
 * The panic signal (draw, sketch.js:62-70 and 86): a speed-driven scalar in [0, 1]
 * smoothed by a lerp each frame, the camera-shake strength smoothed toward six
 * times that signal, and the panic-scaled twitch fed into the run acceleration.
 *
 * The smoothing factors 0.08 and 0.1 are written inline: p5's
 * `lerp(a, b, amt)` is `a + (b - a) * amt`.
 */
module Panic {
  import opened P5Math
  import opened Blob

  /** A sample of p5's `noise`, which always lies in [0, 1]. */
  type NoiseSample = n: real | 0.0 <= n <= 1.0

  /** `speed`: horizontal speed plus a down-weighted vertical speed. */
  function Speed(f: Frame): real {
    Abs(f.vx) + Abs(f.vy) * 0.15
  }

  /** The value `panic` is pulled toward: speed / 6 clamped into [0, 1]. */
  function PanicTarget(f: Frame): real {
    Constrain(Speed(f) / 6.0, 0.0, 1.0)
  }

  /** `panic = lerp(panic, target, 0.08)`. */
  function NextPanic(f: Frame): real {
    f.panic + (PanicTarget(f) - f.panic) * 0.08
  }

  /** `shakeAmt = lerp(shakeAmt, panic * 6, 0.1)`, on a frame whose panic is already this frame's. */
  function NextShake(f: Frame): real {
    f.shakeAmt + (f.panic * 6.0 - f.shakeAmt) * 0.1
  }

  /** `twitch`: a noise offset in [-0.5, 0.5] scaled by panic and by 0.6. */
  function Twitch(noise: NoiseSample, panic: real): real {
    (noise - 0.5) * panic * 0.6
  }

  /** Speed is never negative and is zero exactly when the blob is still. */
  lemma SpeedZeroIffStill(f: Frame)
    ensures Speed(f) >= 0.0
    ensures Speed(f) == 0.0 <==> f.vx == 0.0 && f.vy == 0.0
  {
  }

  /**
   * The target is speed / 6 up to a speed of 6 and saturates at 1 beyond it,
   * so it always lies in [0, 1].
   */
  lemma PanicTargetFollowsSpeed(f: Frame)
    ensures 0.0 <= PanicTarget(f) <= 1.0
    ensures Speed(f) <= 6.0 ==> PanicTarget(f) * 6.0 == Speed(f)
    ensures Speed(f) >= 6.0 ==> PanicTarget(f) == 1.0
  {
    SpeedZeroIffStill(f);
  }

  /**
   * The new panic moves 8% of the way toward the target: it lies between the
   * old value and the target, strictly unless the two already agree.
   */
  lemma NextPanicApproachesTarget(f: Frame)
    ensures Between(NextPanic(f), f.panic, PanicTarget(f))
    ensures f.panic < PanicTarget(f) ==> f.panic < NextPanic(f) < PanicTarget(f)
    ensures PanicTarget(f) < f.panic ==> PanicTarget(f) < NextPanic(f) < f.panic
    ensures f.panic == PanicTarget(f) ==> NextPanic(f) == f.panic
  {
  }

  /** A panic in [0, 1] stays in [0, 1]. */
  lemma NextPanicInUnitRange(f: Frame)
    requires 0.0 <= f.panic <= 1.0
    ensures 0.0 <= NextPanic(f) <= 1.0
  {
    PanicTargetFollowsSpeed(f);
    NextPanicApproachesTarget(f);
  }

  /** A calm, still blob stays calm. */
  lemma StillBlobStaysCalm(f: Frame)
    requires f.panic == 0.0 && f.vx == 0.0 && f.vy == 0.0
    ensures NextPanic(f) == 0.0
  {
    SpeedZeroIffStill(f);
  }

  /**
   * The new panic keeps at least 92% of the old one, and it is positive once
   * the blob has panicked or is moving.
   */
  lemma PanicPositiveOnceMoved(f: Frame)
    requires 0.0 <= f.panic
    requires f.panic > 0.0 || f.vx != 0.0 || f.vy != 0.0
    ensures NextPanic(f) >= f.panic * 0.92
    ensures NextPanic(f) > 0.0
  {
    PanicTargetFollowsSpeed(f);
    SpeedZeroIffStill(f);
    assert NextPanic(f) == f.panic * 0.92 + PanicTarget(f) * 0.08;
  }

  /** The new shake moves 10% of the way toward six times the panic, never past it. */
  lemma NextShakeApproachesTarget(f: Frame)
    ensures Between(NextShake(f), f.shakeAmt, f.panic * 6.0)
    ensures f.shakeAmt < f.panic * 6.0 ==> f.shakeAmt < NextShake(f) < f.panic * 6.0
    ensures f.panic * 6.0 < f.shakeAmt ==> f.panic * 6.0 < NextShake(f) < f.shakeAmt
  {
  }

  /** With a non-negative panic a non-negative shake stays non-negative. */
  lemma NextShakeNonNegative(f: Frame)
    requires f.shakeAmt >= 0.0 && f.panic >= 0.0
    ensures NextShake(f) >= 0.0
  {
    NextShakeApproachesTarget(f);
  }

  /** The twitch vanishes when calm and is at most 0.3 in size for a panic in [0, 1]. */
  lemma TwitchBound(noise: NoiseSample, panic: real)
    requires 0.0 <= panic <= 1.0
    ensures -0.3 <= Twitch(noise, panic) <= 0.3
    ensures panic == 0.0 ==> Twitch(noise, panic) == 0.0
  {
    var c := noise - 0.5;
    var m := c * panic;
    assert Twitch(noise, panic) == m * 0.6;
    if c >= 0.0 {
      assert c - m == c * (1.0 - panic);
      ProductNonNegative(c, 1.0 - panic);
      ProductNonNegative(c, panic);
    } else {
      var e := -c;
      assert m == -(e * panic);
      assert e - e * panic == e * (1.0 - panic);
      ProductNonNegative(e, 1.0 - panic);
      ProductNonNegative(e, panic);
    }
  }

  lemma ProductNonNegative(a: real, b: real)
    requires a >= 0.0 && b >= 0.0
    ensures a * b >= 0.0
  {
  }
}
