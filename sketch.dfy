/**
 * The sketch's frame loop without drawing: the platform table and start state of
 * setup (sketch.js:39-58), the simulation part of draw (sketch.js:60-144) and the
 * jump handler keyPressed (sketch.js:155-165).
 *
 * The globals `panic` and `shakeAmt` and the fields of `blob3` that the sketch
 * updates live in one object, `World`; `StepWorld` and `Jump` are the same frame
 * and jump on values, which the lemmas below reason about.
 */
module Sketch {
  import opened P5Math
  import opened Blob
  import opened Geometry
  import opened Panic
  import opened Motion
  import opened Collision

  /** The canvas is 640 × 360 and the floor's top is 36 above its bottom. */
  const Width: real := 640.0
  const Height: real := 360.0
  const FloorY: real := 324.0

  /** The five platforms of setup: the full-width floor and four thin ledges. */
  function SetupPlatforms(): (ps: seq<Rect>)
    ensures |ps| == 5
    ensures forall i :: 0 <= i < |ps| ==> WellFormed(ps[i])
    ensures ps[0].x == 0.0 && ps[0].w == Width && ps[0].y == FloorY && ps[0].y + ps[0].h == Height
  {
    [ Rect(0.0, FloorY, Width, Height - FloorY),
      Rect(120.0, FloorY - 70.0, 120.0, 12.0),
      Rect(300.0, FloorY - 120.0, 90.0, 12.0),
      Rect(440.0, FloorY - 180.0, 130.0, 12.0),
      Rect(520.0, FloorY - 70.0, 90.0, 12.0) ]
  }

  /** The state after setup: the blob at x = 80, one unit above the floor, at rest and calm. */
  function StartFrame(): (f: Frame)
    ensures f.y + R == FloorY - 1.0 && f.vx == 0.0 && f.vy == 0.0 && !f.onGround
    ensures f.panic == 0.0 && f.shakeAmt == 0.0
  {
    Frame(80.0, FloorY - R - 1.0, 0.0, 0.0, false, 0.0, 0.012, 7.0, 1.05, 0.0, 0.0)
  }

  /** The square collision box around a blob centred at (x, y). */
  function BlobBox(x: real, y: real): (b: Rect)
    ensures WellFormed(b)
    ensures b.x + b.w / 2.0 == x && b.y + b.h / 2.0 == y
  {
    Rect(x - R, y - R, R * 2.0, R * 2.0)
  }

  /** Facts every reachable state keeps between frames. */
  predicate Invariant(f: Frame) {
    && 0.0 <= f.panic <= 1.0
    && f.shakeAmt >= 0.0
    && -MaxRun <= f.vx <= MaxRun
    && R <= f.x <= Width - R
  }

  /**
   * The first part of a frame (sketch.js:62-94): panic and shake are smoothed,
   * `vx` is pushed by `move + twitch`, slowed by friction and clamped, and
   * gravity is added to `vy`. Position and the grounded flag are untouched.
   */
  function Accelerate(f: Frame, move: Move, noise: NoiseSample): Frame {
    var p := f.(panic := NextPanic(f));
    p.(shakeAmt := NextShake(p),
       vx := RunVelocity(p, move, Twitch(noise, p.panic)),
       vy := f.vy + Gravity)
  }

  /**
   * The first part of a frame keeps panic in [0, 1], the shake non-negative and
   * `vx` within ±maxRun, adds gravity to `vy`, and moves nothing.
   */
  lemma AccelerateKeepsBounds(f: Frame, move: Move, noise: NoiseSample)
    requires 0.0 <= f.panic <= 1.0 && f.shakeAmt >= 0.0
    ensures var a := Accelerate(f, move, noise);
            0.0 <= a.panic <= 1.0 && a.shakeAmt >= 0.0 && -MaxRun <= a.vx <= MaxRun &&
            a.vy == f.vy + Gravity && a.x == f.x && a.y == f.y && a.onGround == f.onGround
  {
    var p := f.(panic := NextPanic(f));
    NextPanicInUnitRange(f);
    NextShakeNonNegative(p);
    RunVelocityBounded(p, move, Twitch(noise, p.panic));
  }

  /** The horizontal pass of a frame: the box moved by `vx`, resolved against `plats`. */
  function FrameHorizontal(a: Frame, plats: seq<Rect>): HState {
    var box := BlobBox(a.x, a.y);
    HorizontalSweep(HState(box.(x := box.x + a.vx), a.vx, a.shakeAmt), plats, a.panic)
  }

  /** The vertical pass of a frame: the box moved by `vy`, grounded flag cleared, resolved against `plats`. */
  function FrameVertical(a: Frame, plats: seq<Rect>): VState {
    var h := FrameHorizontal(a, plats);
    VerticalSweep(VState(h.box.(y := h.box.y + a.vy), a.vy, false, h.shake), plats, a.panic)
  }

  /**
   * The end of a frame (sketch.js:134-144) on the state `c` left by the
   * collision passes: the centre is read back from the resolved `box` with only
   * x clamped into [r, width - r], and the visual rhythm follows the panic.
   */
  function Settle(c: Frame, box: Rect): (r: Frame)
    ensures r.x == Constrain(box.x + box.w / 2.0, R, Width - R) && R <= r.x <= Width - R
    ensures r.y == box.y + box.h / 2.0
    ensures r.tSpeed == 0.012 + c.panic * 0.028 && r.t == c.t + r.tSpeed
    ensures r.wobble == 7.0 + c.panic * 9.0 && r.wobbleFreq == 1.05 + c.panic * 0.9
    ensures r.vx == c.vx && r.vy == c.vy && r.onGround == c.onGround
    ensures r.panic == c.panic && r.shakeAmt == c.shakeAmt
    ensures c.panic >= 0.0 ==> r.t > c.t
  {
    var tSpeed := 0.012 + c.panic * 0.028;
    c.(x := Constrain(box.x + box.w / 2.0, R, Width - R), y := box.y + box.h / 2.0,
       tSpeed := tSpeed, wobble := 7.0 + c.panic * 9.0, wobbleFreq := 1.05 + c.panic * 0.9,
       t := c.t + tSpeed)
  }

  /**
   * The movement and collision part of a frame (sketch.js:96-144) on the state
   * `a` left by `Accelerate`: the horizontal pass keeps `vx` or stops it, the
   * centre's x ends clamped into [r, width - r] (its y is not clamped), and a
   * grounded blob has no vertical speed.
   */
  function MoveAndCollide(a: Frame, plats: seq<Rect>): (r: Frame)
    ensures r.vx == a.vx || r.vx == 0.0
    ensures R <= r.x <= Width - R
    ensures r.onGround ==> r.vy == 0.0
  {
    var h := FrameHorizontal(a, plats);
    var v := FrameVertical(a, plats);
    Settle(a.(vx := h.vx, vy := v.vy, onGround := v.onGround, shakeAmt := v.shake), v.box)
  }

  /**
   * One frame of draw on values. Afterwards the centre's x is clamped into
   * [r, width - r] and a grounded blob has no vertical speed.
   */
  function StepWorld(f: Frame, move: Move, noise: NoiseSample, plats: seq<Rect>): (r: Frame)
    ensures R <= r.x <= Width - R
    ensures r.onGround ==> r.vy == 0.0
  {
    MoveAndCollide(Accelerate(f, move, noise), plats)
  }

  /** p5's key code of the up arrow. */
  const UpArrow: int := 38

  /** The jump keys of keyPressed: space, `W` in either case, or the up arrow. */
  predicate IsJumpKey(key: string, keyCode: int) {
    key == " " || key == "W" || key == "w" || keyCode == UpArrow
  }

  /** keyPressed on values: a jump key launches a grounded blob and does nothing otherwise. */
  function Jump(f: Frame, jumpKey: bool): (r: Frame)
    ensures jumpKey && f.onGround ==>
              r == f.(vy := JumpV, onGround := false, shakeAmt := f.shakeAmt + 2.0)
    ensures !(jumpKey && f.onGround) ==> r == f
  {
    if jumpKey && f.onGround then f.(vy := JumpV, onGround := false, shakeAmt := f.shakeAmt + 2.0)
    else f
  }

  // ----- Properties of a frame -----

  /** A frame keeps the invariant: panic in [0, 1], shake non-negative, vx and x in bounds. */
  lemma StepKeepsInvariant(f: Frame, move: Move, noise: NoiseSample, plats: seq<Rect>)
    requires Invariant(f)
    ensures Invariant(StepWorld(f, move, noise, plats))
  {
    AccelerateKeepsBounds(f, move, noise);
  }

  /** The animation phase `t` strictly advances every frame. */
  lemma StepAdvancesPhase(f: Frame, move: Move, noise: NoiseSample, plats: seq<Rect>)
    requires 0.0 <= f.panic <= 1.0
    ensures StepWorld(f, move, noise, plats).t > f.t
  {
    NextPanicInUnitRange(f);
  }

  /**
   * A grounded blob has landed: its box's bottom edge, y + r, is the top edge of
   * the first platform in array order that the falling box overlapped.
   */
  lemma StepGroundedRestsOnPlatform(f: Frame, move: Move, noise: NoiseSample, plats: seq<Rect>)
    requires StepWorld(f, move, noise, plats).onGround
    ensures exists k :: 0 <= k < |plats| && StepWorld(f, move, noise, plats).y + R == plats[k].y
  {
    var a := Accelerate(f, move, noise);
    var h := FrameHorizontal(a, plats);
    var st := VState(h.box.(y := h.box.y + a.vy), a.vy, false, h.shake);
    VerticalGroundedIff(st, plats, a.panic);
    var i :| 0 <= i < |plats| && Overlap(st.box, plats[i]);
    FirstContactExists(st.box, plats, i);
    var k :| FirstContact(st.box, plats, k);
    VerticalFirstContact(st, plats, a.panic, k);
  }

  /** The blob's centre is the centre of the resolved box, with only x clamped into the canvas. */
  lemma StepCentreIsBoxCentre(f: Frame, move: Move, noise: NoiseSample, plats: seq<Rect>)
    ensures var v := FrameVertical(Accelerate(f, move, noise), plats);
            var r := StepWorld(f, move, noise, plats);
            r.y == v.box.y + R &&
            (R <= v.box.x + R <= Width - R ==> r.x == v.box.x + R) &&
            (v.box.x + R < R ==> r.x == R) &&
            (v.box.x + R > Width - R ==> r.x == Width - R)
  {
  }

  /**
   * When the collision passes stop the blob and when they ground it: a moving
   * blob loses its `vx` exactly when the box moved by `vx` overlaps some
   * platform, and the blob ends grounded exactly when it was falling and the
   * box, moved on by `vy`, overlaps some platform.
   */
  lemma MoveAndCollideOutcome(a: Frame, plats: seq<Rect>)
    ensures var h := FrameHorizontal(a, plats);
            var r := MoveAndCollide(a, plats);
            && (a.vx != 0.0 ==>
                  (r.vx == 0.0 <==> exists i :: 0 <= i < |plats| && Overlap(BlobBox(a.x + a.vx, a.y), plats[i])))
            && (r.onGround <==>
                  a.vy > 0.0 && exists i :: 0 <= i < |plats| && Overlap(h.box.(y := h.box.y + a.vy), plats[i]))
  {
    var box := BlobBox(a.x, a.y);
    assert box.(x := box.x + a.vx) == BlobBox(a.x + a.vx, a.y);
    if a.vx != 0.0 {
      HorizontalStopsIffContact(HState(box.(x := box.x + a.vx), a.vx, a.shakeAmt), plats, a.panic);
    }
    var h := FrameHorizontal(a, plats);
    VerticalGroundedIff(VState(h.box.(y := h.box.y + a.vy), a.vy, false, h.shake), plats, a.panic);
  }

  /** The blob box at the start position touches no platform. */
  lemma StartBoxIsClear()
    ensures NoContact(BlobBox(StartFrame().x, StartFrame().y), SetupPlatforms())
  {
  }

  /** A calm blob at rest with no key held keeps vx and panic at 0 and only gains gravity. */
  lemma CalmPush(f: Frame, noise: NoiseSample)
    requires f.vx == 0.0 && f.vy == 0.0 && f.panic == 0.0
    ensures var a := Accelerate(f, 0, noise);
            a.vx == 0.0 && a.vy == Gravity && a.panic == 0.0 && a.x == f.x && a.y == f.y
  {
    var p := f.(panic := NextPanic(f));
    StillBlobStaysCalm(f);
    TwitchBound(noise, p.panic);
    RunVelocityAtRest(p, 0, Twitch(noise, p.panic));
  }

  /**
   * When the box moved by `vx` touches nothing and, moved on by `vy`, still
   * touches nothing, both velocities survive the frame and the blob is airborne.
   */
  lemma MoveInTheClear(a: Frame, plats: seq<Rect>)
    requires NoContact(BlobBox(a.x + a.vx, a.y), plats)
    requires NoContact(BlobBox(a.x + a.vx, a.y + a.vy), plats)
    ensures var r := MoveAndCollide(a, plats);
            !r.onGround && r.vx == a.vx && r.vy == a.vy && r.panic == a.panic &&
            r.x == Constrain(a.x + a.vx, R, Width - R) && r.y == a.y + a.vy
  {
    var box := BlobBox(a.x, a.y);
    assert box.(x := box.x + a.vx) == BlobBox(a.x + a.vx, a.y);
    HorizontalNoContact(HState(box.(x := box.x + a.vx), a.vx, a.shakeAmt), plats, a.panic);
    var h := FrameHorizontal(a, plats);
    var vbox := h.box.(y := h.box.y + a.vy);
    assert vbox == BlobBox(a.x + a.vx, a.y + a.vy);
    VerticalNoContact(VState(vbox, a.vy, false, h.shake), plats, a.panic);
  }

  /**
   * When the box moved by `vx` touches nothing but, moved on by a downward `vy`,
   * first overlaps platform `k`, the blob lands on `k` within the frame.
   */
  lemma MoveAndLand(a: Frame, plats: seq<Rect>, k: int)
    requires a.vy > 0.0
    requires NoContact(BlobBox(a.x + a.vx, a.y), plats)
    requires FirstContact(BlobBox(a.x + a.vx, a.y + a.vy), plats, k)
    ensures var r := MoveAndCollide(a, plats);
            r.onGround && r.vx == a.vx && r.vy == 0.0 && r.panic == a.panic &&
            r.x == Constrain(a.x + a.vx, R, Width - R) && r.y + R == plats[k].y
  {
    var box := BlobBox(a.x, a.y);
    assert box.(x := box.x + a.vx) == BlobBox(a.x + a.vx, a.y);
    HorizontalNoContact(HState(box.(x := box.x + a.vx), a.vx, a.shakeAmt), plats, a.panic);
    var h := FrameHorizontal(a, plats);
    var st := VState(h.box.(y := h.box.y + a.vy), a.vy, false, h.shake);
    assert st.box == BlobBox(a.x + a.vx, a.y + a.vy);
    VerticalFirstContact(st, plats, a.panic, k);
  }

  /**
   * A calm blob at rest whose box touches nothing where it stands or one gravity
   * step lower simply falls for a frame: airborne, at speed gravity, x unchanged.
   */
  lemma CalmFrameInTheClear(f: Frame, noise: NoiseSample, plats: seq<Rect>)
    requires f.vx == 0.0 && f.vy == 0.0 && f.panic == 0.0 && R <= f.x <= Width - R
    requires NoContact(BlobBox(f.x, f.y), plats) && NoContact(BlobBox(f.x, f.y + Gravity), plats)
    ensures var r := StepWorld(f, 0, noise, plats);
            !r.onGround && r.vx == 0.0 && r.vy == Gravity && r.panic == 0.0 &&
            r.x == f.x && r.y == f.y + Gravity
  {
    CalmPush(f, noise);
    var a := Accelerate(f, 0, noise);
    assert BlobBox(a.x + a.vx, a.y) == BlobBox(f.x, f.y);
    assert BlobBox(a.x + a.vx, a.y + a.vy) == BlobBox(f.x, f.y + Gravity);
    MoveInTheClear(a, plats);
  }

  /**
   * A calm blob at rest whose box touches nothing where it stands but would
   * sink into platform `k` one gravity step lower (and into no earlier one)
   * lands on `k` within the frame: grounded, still, x unchanged.
   */
  lemma CalmFrameLands(f: Frame, noise: NoiseSample, plats: seq<Rect>, k: int)
    requires f.vx == 0.0 && f.vy == 0.0 && f.panic == 0.0 && R <= f.x <= Width - R
    requires NoContact(BlobBox(f.x, f.y), plats) && FirstContact(BlobBox(f.x, f.y + Gravity), plats, k)
    ensures var r := StepWorld(f, 0, noise, plats);
            r.onGround && r.vx == 0.0 && r.vy == 0.0 && r.x == f.x && r.y + R == plats[k].y
  {
    CalmPush(f, noise);
    var a := Accelerate(f, 0, noise);
    assert BlobBox(a.x + a.vx, a.y) == BlobBox(f.x, f.y);
    assert BlobBox(a.x + a.vx, a.y + a.vy) == BlobBox(f.x, f.y + Gravity);
    MoveAndLand(a, plats, k);
  }

  /**
   * From the start state the first frame does not reach the floor: the box's
   * bottom ends 0.3 above it, so the blob is still airborne, falling at gravity.
   */
  lemma FirstFrameFalls(noise: NoiseSample)
    ensures var f := StepWorld(StartFrame(), 0, noise, SetupPlatforms());
            !f.onGround && f.vx == 0.0 && f.vy == Gravity && f.panic == 0.0 &&
            f.x == 80.0 && f.y + R == FloorY - 0.3
  {
    var s := StartFrame();
    assert NoContact(BlobBox(s.x, s.y + Gravity), SetupPlatforms());
    CalmFrameInTheClear(s, noise, SetupPlatforms());
  }

  /**
   * A blob falling at the left end of the floor, below the ledges, whose box is
   * just above the floor and would sink into it within the frame, lands on the
   * floor whatever the noise; the twitch moves it by at most 0.25.
   */
  lemma FallingFrameLands(f: Frame, noise: NoiseSample)
    requires f.vx == 0.0 && 0.0 <= f.panic <= 1.0 && 0.0 <= f.vy <= 5.0
    requires R <= f.x <= 90.0
    requires FloorY < f.y + R + f.vy + Gravity && f.y + R <= FloorY
    ensures var r := StepWorld(f, 0, noise, SetupPlatforms());
            r.onGround && r.vy == 0.0 && r.y + R == FloorY && -0.25 <= r.x - f.x <= 0.25
  {
    var plats := SetupPlatforms();
    var a := Accelerate(f, 0, noise);
    var p := f.(panic := NextPanic(f));
    NextPanicInUnitRange(f);
    TwitchBound(noise, p.panic);
    RunVelocitySmallPush(p, Twitch(noise, p.panic));
    assert NoContact(BlobBox(a.x + a.vx, a.y), plats);
    assert FirstContact(BlobBox(a.x + a.vx, a.y + a.vy), plats, 0);
    MoveAndLand(a, plats, 0);
  }

  /**
   * The second frame with no key held lands the blob on the floor, whatever the
   * noise: grounded, no vertical speed, and the box's bottom on the floor's top.
   */
  lemma SecondFrameLands(noise1: NoiseSample, noise2: NoiseSample)
    ensures var f := StepWorld(StepWorld(StartFrame(), 0, noise1, SetupPlatforms()), 0, noise2, SetupPlatforms());
            f.onGround && f.vy == 0.0 && f.y + R == FloorY
  {
    FirstFrameFalls(noise1);
    FallingFrameLands(StepWorld(StartFrame(), 0, noise1, SetupPlatforms()), noise2);
  }

  /**
   * Resting on the floor with no panic and no key held is a fixed point of the
   * physics: position, velocity and the grounded flag are unchanged by a frame.
   */
  lemma RestOnFloorIsFixed(f: Frame, noise: NoiseSample)
    requires f.onGround && f.vx == 0.0 && f.vy == 0.0 && f.panic == 0.0
    requires R <= f.x <= Width - R && f.y + R == FloorY
    ensures var r := StepWorld(f, 0, noise, SetupPlatforms());
            r.x == f.x && r.y == f.y && r.vx == 0.0 && r.vy == 0.0 && r.onGround
  {
    var plats := SetupPlatforms();
    assert NoContact(BlobBox(f.x, f.y), plats);
    assert FirstContact(BlobBox(f.x, f.y + Gravity), plats, 0);
    CalmFrameLands(f, noise, plats, 0);
  }

  /**
   * Resting on the floor is stable for every key, noise and panic: a grounded
   * blob on the floor with no vertical speed stays grounded at the same height.
   */
  lemma RestOnFloorAnyPanic(f: Frame, move: Move, noise: NoiseSample)
    requires Invariant(f) && f.onGround && f.vy == 0.0 && f.y + R == FloorY
    ensures var r := StepWorld(f, move, noise, SetupPlatforms());
            r.onGround && r.vy == 0.0 && r.y == f.y
  {
    var plats := SetupPlatforms();
    var a := Accelerate(f, move, noise);
    AccelerateKeepsBounds(f, move, noise);
    assert NoContact(BlobBox(a.x + a.vx, a.y), plats);
    assert FirstContact(BlobBox(a.x + a.vx, a.y + a.vy), plats, 0);
    MoveAndLand(a, plats, 0);
  }

  /**
   * Once the blob has moved, panic never returns to 0: every frame keeps at
   * least 92% of it, and a moving blob gains some.
   */
  lemma PanicStaysPositive(f: Frame, move: Move, noise: NoiseSample, plats: seq<Rect>)
    requires 0.0 <= f.panic <= 1.0
    requires f.panic > 0.0 || f.vx != 0.0 || f.vy != 0.0
    ensures var r := StepWorld(f, move, noise, plats);
            r.panic >= f.panic * 0.92 && r.panic > 0.0
  {
    PanicPositiveOnceMoved(f);
  }

  /** A jump leaves panic alone. */
  lemma JumpKeepsPanic(f: Frame, jumpKey: bool)
    ensures Jump(f, jumpKey).panic == f.panic
  {
  }

  // ----- Properties of keyPressed -----

  /** A second jump key press before the next frame has no further effect. */
  lemma JumpTwiceIsJumpOnce(f: Frame, jumpKey: bool)
    ensures Jump(Jump(f, jumpKey), jumpKey) == Jump(f, jumpKey)
  {
  }

  /** A jump keeps the invariant. */
  lemma JumpKeepsInvariant(f: Frame, jumpKey: bool)
    requires Invariant(f)
    ensures Invariant(Jump(f, jumpKey))
  {
  }

  // ----- The sketch's state, updated in place -----

  class World {
    var x: real
    var y: real
    var vx: real
    var vy: real
    var onGround: bool
    var t: real
    var tSpeed: real
    var wobble: real
    var wobbleFreq: real
    var panic: real
    var shakeAmt: real
    /** The static platform table built by setup. */
    const platforms: seq<Rect>

    /** The current state as a value. */
    function State(): Frame
      reads this
    {
      Frame(x, y, vx, vy, onGround, t, tSpeed, wobble, wobbleFreq, panic, shakeAmt)
    }

    ghost predicate Valid()
      reads this
    {
      Invariant(State())
    }

    /** setup: the platform table and the blob one unit above the floor. */
    constructor ()
      ensures Valid()
      ensures platforms == SetupPlatforms()
      ensures State() == StartFrame()
    {
      platforms := SetupPlatforms();
      x, y := 80.0, FloorY - R - 1.0;
      vx, vy, onGround := 0.0, 0.0, false;
      t, tSpeed, wobble, wobbleFreq := 0.0, 0.012, 7.0, 1.05;
      panic, shakeAmt := 0.0, 0.0;
    }

    /**
     * The simulation part of draw: one frame with the key codes `held` down and
     * the noise sample `noise`.
     */
    method Step(held: set<int>, noise: NoiseSample)
      requires Valid()
      modifies this
      ensures Valid()
      ensures State() == StepWorld(old(State()), MoveIntent(held), noise, platforms)
    {
      ghost var f := State();
      ApplyForces(held, noise);
      ghost var a := State();

      var box := BlobBox(x, y);
      box := box.(x := box.x + vx);
      box := ResolveHorizontal(box);
      ghost var h := HState(box, vx, shakeAmt);
      assert h == FrameHorizontal(a, platforms);

      box := box.(y := box.y + vy);
      onGround := false;
      box := ResolveVertical(box);
      assert VState(box, vy, onGround, shakeAmt) == FrameVertical(a, platforms);
      assert State() == a.(vx := h.vx, vy := vy, onGround := onGround, shakeAmt := shakeAmt);

      SettleBox(box);
      StepKeepsInvariant(f, MoveIntent(held), noise, platforms);
    }

    /**
     * The first part of draw (sketch.js:62-94): panic and shake smoothing, the
     * run velocity with twitch, friction and clamp, and gravity.
     */
    method ApplyForces(held: set<int>, noise: NoiseSample)
      modifies this`panic, this`shakeAmt, this`vx, this`vy
      ensures State() == Accelerate(old(State()), MoveIntent(held), noise)
    {
      // Panic level from movement, and camera-shake strength
      panic := NextPanic(State());
      shakeAmt := NextShake(State());

      // Input, twitch, friction and clamp
      var move := MoveIntent(held);
      var twitch := Twitch(noise, panic);
      vx := RunVelocity(State(), move, twitch);

      vy := vy + Gravity;
    }

    /** The end of draw (sketch.js:134-144): the centre from the resolved box, then the visuals. */
    method SettleBox(box: Rect)
      modifies this`x, this`y, this`tSpeed, this`wobble, this`wobbleFreq, this`t
      ensures State() == Settle(old(State()), box)
    {
      // Update blob position
      x := box.x + box.w / 2.0;
      y := box.y + box.h / 2.0;
      x := Constrain(x, R, Width - R);

      // Blob visuals react to panic
      tSpeed := 0.012 + panic * 0.028;
      wobble := 7.0 + panic * 9.0;
      wobbleFreq := 1.05 + panic * 0.9;
      t := t + tSpeed;
    }

    /**
     * The horizontal collision loop: the moved box against every platform in array
     * order, snapping it to the edge it ran into, zeroing `vx` and adding shake.
     */
    method ResolveHorizontal(moved: Rect) returns (box: Rect)
      modifies this`vx, this`shakeAmt
      ensures HState(box, vx, shakeAmt) == HorizontalSweep(HState(moved, old(vx), old(shakeAmt)), platforms, panic)
    {
      box := moved;
      ghost var h0 := HState(box, vx, shakeAmt);
      for i := 0 to |platforms|
        invariant HState(box, vx, shakeAmt) == HorizontalSweep(h0, platforms[..i], panic)
      {
        var s := platforms[i];
        if Overlap(box, s) {
          if vx > 0.0 {
            box := box.(x := s.x - box.w);
          } else if vx < 0.0 {
            box := box.(x := s.x + s.w);
          }
          vx := 0.0;
          shakeAmt := shakeAmt + 1.5 * panic;
        }
        assert platforms[..i + 1][..i] == platforms[..i];
      }
      assert platforms[..|platforms|] == platforms;
    }

    /**
     * The vertical collision loop: the moved box against every platform in array
     * order, landing on a top edge (grounded) or bumping a bottom edge, zeroing
     * `vy` and adding shake.
     */
    method ResolveVertical(moved: Rect) returns (box: Rect)
      modifies this`vy, this`onGround, this`shakeAmt
      ensures VState(box, vy, onGround, shakeAmt) ==
              VerticalSweep(VState(moved, old(vy), old(onGround), old(shakeAmt)), platforms, panic)
    {
      box := moved;
      ghost var v0 := VState(box, vy, onGround, shakeAmt);
      for i := 0 to |platforms|
        invariant VState(box, vy, onGround, shakeAmt) == VerticalSweep(v0, platforms[..i], panic)
      {
        var s := platforms[i];
        if Overlap(box, s) {
          if vy > 0.0 {
            box := box.(y := s.y - box.h);
            if vy > 5.0 {
              shakeAmt := shakeAmt + 3.0;
            }
            vy := 0.0;
            onGround := true;
          } else if vy < 0.0 {
            box := box.(y := s.y + s.h);
            vy := 0.0;
            shakeAmt := shakeAmt + 1.2 * panic;
          }
        }
        assert platforms[..i + 1][..i] == platforms[..i];
      }
      assert platforms[..|platforms|] == platforms;
    }

    /** keyPressed: a jump key launches the blob only while it is grounded. */
    method KeyPressed(key: string, keyCode: int)
      requires Valid()
      modifies this
      ensures Valid()
      ensures State() == Jump(old(State()), IsJumpKey(key, keyCode))
      ensures IsJumpKey(key, keyCode) && old(onGround) ==>
                vy == JumpV && !onGround && shakeAmt == old(shakeAmt) + 2.0
      ensures !(IsJumpKey(key, keyCode) && old(onGround)) ==> State() == old(State())
    {
      if (key == " " || key == "W" || key == "w" || keyCode == UpArrow) && onGround {
        vy := JumpV;
        onGround := false;
        shakeAmt := shakeAmt + 2.0;
      }
    }
  }
}
