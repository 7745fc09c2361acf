/**
 * The blob's state between frames: the `blob3` record of sketch.js:12-37 together
 * with the globals `panic` and `shakeAmt` (sketch.js:8-9), and its tuning constants.
 */
module Blob {
  /** Collision radius `r`; the collision box is a square of side 2·r. */
  const R: real := 26.0
  const MaxRun: real := 4.8
  const Gravity: real := 0.7
  const JumpV: real := -11.5

  /** The simulated state: `blob3`'s mutable fields and the globals `panic` and `shakeAmt`. */
  datatype Frame = Frame(
    x: real, y: real, vx: real, vy: real, onGround: bool,
    t: real, tSpeed: real, wobble: real, wobbleFreq: real,
    panic: real, shakeAmt: real)
}
