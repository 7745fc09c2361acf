/**
 * The key intent and the horizontal velocity update of draw (sketch.js:81-94).
 */
module Motion {
  import opened P5Math
  import opened Blob

  /** The horizontal intent `move`, which the key polling only ever makes -1, 0 or 1. */
  type Move = m: int | -1 <= m <= 1

  /** p5 key codes of the run keys: A, D and the left and right arrows. */
  const KeyA: int := 65
  const KeyD: int := 68
  const LeftArrow: int := 37
  const RightArrow: int := 39

  /**
   * `move` from the set of key codes held down this frame: a left key (A or ←)
   * subtracts one and a right key (D or →) adds one, so holding both cancels.
   */
  function MoveIntent(held: set<int>): (m: Move)
    ensures m == 1 <==> (KeyD in held || RightArrow in held) && KeyA !in held && LeftArrow !in held
    ensures m == -1 <==> (KeyA in held || LeftArrow in held) && KeyD !in held && RightArrow !in held
    ensures m == 0 <==> ((KeyA in held || LeftArrow in held) <==> (KeyD in held || RightArrow in held))
  {
    var move := if KeyA in held || LeftArrow in held then -1 else 0;
    if KeyD in held || RightArrow in held then move + 1 else move
  }

  /**
   * The blob's `vx` after acceleration by `move + twitch` (accel 0.75), ground
   * (0.84) or air (0.992) friction and the clamp to ±maxRun.
   */
  function RunVelocity(f: Frame, move: Move, twitch: real): real {
    var v := f.vx + (move as real + twitch) * 0.75;
    var g := if f.onGround then v * 0.84 else v * 0.992;
    Constrain(g, -MaxRun, MaxRun)
  }

  /** The run velocity never exceeds maxRun in size. */
  lemma RunVelocityBounded(f: Frame, move: Move, twitch: real)
    ensures -MaxRun <= RunVelocity(f, move, twitch) <= MaxRun
  {
  }

  /** A blob at rest with no key held and no twitch stays at rest. */
  lemma RunVelocityAtRest(f: Frame, move: Move, twitch: real)
    requires f.vx == 0.0 && move == 0 && twitch == 0.0
    ensures RunVelocity(f, move, twitch) == 0.0
  {
  }

  /**
   * Below the clamp, friction only slows: a push-free blob keeps its direction
   * and loses 16% of its speed on the ground and 0.8% in the air.
   */
  lemma RunVelocityFriction(f: Frame)
    requires -MaxRun <= f.vx <= MaxRun
    ensures RunVelocity(f, 0, 0.0) == f.vx * (if f.onGround then 0.84 else 0.992)
  {
  }

  /** With no velocity, no key and a twitch of at most 0.3, the new run velocity is at most 0.25 in size. */
  lemma RunVelocitySmallPush(f: Frame, twitch: real)
    requires f.vx == 0.0 && -0.3 <= twitch <= 0.3
    ensures -0.25 <= RunVelocity(f, 0, twitch) <= 0.25
  {
  }
}
