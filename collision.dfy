/**
 * The axis-separated collision sweep of draw (sketch.js:104-132): the collision
 * box is moved along one axis and then tested against every platform in array
 * order. Each loop iteration is a function of the loop state and one platform,
 * and a whole pass is the left fold of that function over the platform list.
 *
 * The velocity component is zeroed on the first contact, and neither snap
 * branch fires once it is zero, so the first overlapping platform in array
 * order is the one that decides where the box ends up.
 */
module Collision {
  import opened Geometry

  /** No platform of `plats` overlaps `box`. */
  predicate NoContact(box: Rect, plats: seq<Rect>) {
    forall i :: 0 <= i < |plats| ==> !Overlap(box, plats[i])
  }

  /** `plats[k]` is the first platform in array order that overlaps `box`. */
  predicate FirstContact(box: Rect, plats: seq<Rect>, k: int) {
    0 <= k < |plats| && Overlap(box, plats[k]) && NoContact(box, plats[..k])
  }

  /** Some platform overlaps `box`, so there is a first one. */
  lemma {:induction false} FirstContactExists(box: Rect, plats: seq<Rect>, i: int)
    requires 0 <= i < |plats| && Overlap(box, plats[i])
    ensures exists k :: FirstContact(box, plats, k)
    decreases i
  {
    if NoContact(box, plats[..i]) {
      assert FirstContact(box, plats, i);
    } else {
      var j :| 0 <= j < i && Overlap(box, plats[..i][j]);
      FirstContactExists(box, plats, j);
    }
  }

  // ----- Horizontal pass (sketch.js:104-113) -----

  /** The horizontal loop's state: the box, `blob3.vx` and `shakeAmt`. */
  datatype HState = HState(box: Rect, vx: real, shake: real)

  /** One iteration of the horizontal loop against platform `s`. */
  function HorizontalContact(st: HState, s: Rect, panic: real): HState {
    if Overlap(st.box, s) then
      var x := if st.vx > 0.0 then s.x - st.box.w else if st.vx < 0.0 then s.x + s.w else st.box.x;
      HState(st.box.(x := x), 0.0, st.shake + 1.5 * panic)
    else
      st
  }

  /**
   * The horizontal loop over `plats` in array order. Only the box's x moves,
   * `vx` either survives or becomes 0, and contacts only add to the shake.
   */
  function HorizontalSweep(st: HState, plats: seq<Rect>, panic: real): (r: HState)
    ensures r.box.y == st.box.y && r.box.w == st.box.w && r.box.h == st.box.h
    ensures r.vx == st.vx || r.vx == 0.0
    ensures panic >= 0.0 ==> r.shake >= st.shake
    decreases |plats|
  {
    if plats == [] then st
    else HorizontalContact(HorizontalSweep(st, plats[..|plats| - 1], panic), plats[|plats| - 1], panic)
  }

  /** Once `vx` is zero a contact can no longer move the box. */
  lemma {:induction false} HorizontalAtRest(st: HState, plats: seq<Rect>, panic: real)
    requires st.vx == 0.0
    ensures HorizontalSweep(st, plats, panic).box == st.box
    ensures HorizontalSweep(st, plats, panic).vx == 0.0
    decreases |plats|
  {
    if plats != [] {
      HorizontalAtRest(st, plats[..|plats| - 1], panic);
    }
  }

  /** Without an overlapping platform the pass changes nothing. */
  lemma {:induction false} HorizontalNoContact(st: HState, plats: seq<Rect>, panic: real)
    requires NoContact(st.box, plats)
    ensures HorizontalSweep(st, plats, panic) == st
    decreases |plats|
  {
    if plats != [] {
      var n := |plats| - 1;
      assert NoContact(st.box, plats[..n]) by {
        forall i | 0 <= i < n ensures !Overlap(st.box, plats[..n][i]) {
          assert plats[..n][i] == plats[i];
        }
      }
      HorizontalNoContact(st, plats[..n], panic);
    }
  }

  /**
   * With a first overlapping platform `plats[k]`, the pass stops the blob: moving
   * right puts the box's right edge on that platform's left edge, moving left puts
   * its left edge on the platform's right edge, and the box then only touches
   * that platform. Later overlaps leave the box where it is.
   */
  lemma {:induction false} HorizontalFirstContact(st: HState, plats: seq<Rect>, panic: real, k: int)
    requires FirstContact(st.box, plats, k)
    ensures var r := HorizontalSweep(st, plats, panic);
      && r.vx == 0.0
      && (st.vx > 0.0 ==> r.box.x + r.box.w == plats[k].x)
      && (st.vx < 0.0 ==> r.box.x == plats[k].x + plats[k].w)
      && (st.vx == 0.0 ==> r.box == st.box)
      && (st.vx != 0.0 ==> !Overlap(r.box, plats[k]))
      && (panic >= 0.0 ==> r.shake >= st.shake + 1.5 * panic)
    decreases |plats|
  {
    var n := |plats| - 1;
    if n == k {
      assert plats[..n] == plats[..k];
      HorizontalNoContact(st, plats[..n], panic);
    } else {
      assert plats[..n][..k] == plats[..k];
      assert plats[..n][k] == plats[k];
      HorizontalFirstContact(st, plats[..n], panic, k);
    }
  }

  /** A moving blob is stopped exactly when some platform overlaps the moved box. */
  lemma HorizontalStopsIffContact(st: HState, plats: seq<Rect>, panic: real)
    requires st.vx != 0.0
    ensures HorizontalSweep(st, plats, panic).vx == 0.0 <==>
            exists i :: 0 <= i < |plats| && Overlap(st.box, plats[i])
  {
    if i :| 0 <= i < |plats| && Overlap(st.box, plats[i]) {
      FirstContactExists(st.box, plats, i);
      var k :| FirstContact(st.box, plats, k);
      HorizontalFirstContact(st, plats, panic, k);
    } else {
      HorizontalNoContact(st, plats, panic);
    }
  }

  // ----- Vertical pass (sketch.js:115-132) -----

  /** The vertical loop's state: the box, `blob3.vy`, `blob3.onGround` and `shakeAmt`. */
  datatype VState = VState(box: Rect, vy: real, onGround: bool, shake: real)

  /** One iteration of the vertical loop against platform `s`. */
  function VerticalContact(st: VState, s: Rect, panic: real): VState {
    if Overlap(st.box, s) then
      if st.vy > 0.0 then
        VState(st.box.(y := s.y - st.box.h), 0.0, true, if st.vy > 5.0 then st.shake + 3.0 else st.shake)
      else if st.vy < 0.0 then
        VState(st.box.(y := s.y + s.h), 0.0, st.onGround, st.shake + 1.2 * panic)
      else
        st
    else
      st
  }

  /**
   * The vertical loop over `plats` in array order. Only the box's y moves, `vy`
   * either survives or becomes 0, the grounded flag is only ever set by a
   * downward contact (which also zeroes `vy`), and the shake never decreases.
   */
  function VerticalSweep(st: VState, plats: seq<Rect>, panic: real): (r: VState)
    ensures r.box.x == st.box.x && r.box.w == st.box.w && r.box.h == st.box.h
    ensures r.vy == st.vy || r.vy == 0.0
    ensures r.onGround ==> st.onGround || (st.vy > 0.0 && r.vy == 0.0)
    ensures panic >= 0.0 ==> r.shake >= st.shake
    decreases |plats|
  {
    if plats == [] then st
    else VerticalContact(VerticalSweep(st, plats[..|plats| - 1], panic), plats[|plats| - 1], panic)
  }

  /** Once `vy` is zero the vertical pass changes nothing more. */
  lemma {:induction false} VerticalAtRest(st: VState, plats: seq<Rect>, panic: real)
    requires st.vy == 0.0
    ensures VerticalSweep(st, plats, panic) == st
    decreases |plats|
  {
    if plats != [] {
      VerticalAtRest(st, plats[..|plats| - 1], panic);
    }
  }

  /** Without an overlapping platform the pass changes nothing. */
  lemma {:induction false} VerticalNoContact(st: VState, plats: seq<Rect>, panic: real)
    requires NoContact(st.box, plats)
    ensures VerticalSweep(st, plats, panic) == st
    decreases |plats|
  {
    if plats != [] {
      var n := |plats| - 1;
      assert NoContact(st.box, plats[..n]) by {
        forall i | 0 <= i < n ensures !Overlap(st.box, plats[..n][i]) {
          assert plats[..n][i] == plats[i];
        }
      }
      VerticalNoContact(st, plats[..n], panic);
    }
  }

  /**
   * With a first overlapping platform `plats[k]`: falling lands the box's bottom on
   * that platform's top, zeroes `vy`, sets the grounded flag and adds 3 to the
   * shake for a hard landing (vy > 5); rising puts the box's top on the platform's
   * bottom, zeroes `vy`, leaves the flag alone and adds 1.2·panic; with vy = 0
   * nothing happens. Later overlaps change nothing.
   */
  lemma {:induction false} VerticalFirstContact(st: VState, plats: seq<Rect>, panic: real, k: int)
    requires FirstContact(st.box, plats, k)
    ensures var r := VerticalSweep(st, plats, panic);
      && (st.vy > 0.0 ==>
            r.box.y + r.box.h == plats[k].y && r.vy == 0.0 && r.onGround &&
            r.shake == (if st.vy > 5.0 then st.shake + 3.0 else st.shake))
      && (st.vy < 0.0 ==>
            r.box.y == plats[k].y + plats[k].h && r.vy == 0.0 && r.onGround == st.onGround &&
            r.shake == st.shake + 1.2 * panic)
      && (st.vy == 0.0 ==> r == st)
      && (st.vy != 0.0 ==> !Overlap(r.box, plats[k]))
    decreases |plats|
  {
    var n := |plats| - 1;
    if n == k {
      assert plats[..n] == plats[..k];
      VerticalNoContact(st, plats[..n], panic);
    } else {
      assert plats[..n][..k] == plats[..k];
      assert plats[..n][k] == plats[k];
      VerticalFirstContact(st, plats[..n], panic, k);
      var r' := VerticalSweep(st, plats[..n], panic);
      if st.vy != 0.0 {
        VerticalAtRest(r', plats[n..n + 1], panic);
        assert plats[..n + 1] == plats;
      }
    }
  }

  /**
   * Starting from `onGround = false`, the pass leaves the blob grounded exactly
   * when it was falling and some platform overlaps the moved box.
   */
  lemma VerticalGroundedIff(st: VState, plats: seq<Rect>, panic: real)
    requires !st.onGround
    ensures VerticalSweep(st, plats, panic).onGround <==>
            st.vy > 0.0 && exists i :: 0 <= i < |plats| && Overlap(st.box, plats[i])
  {
    if i :| 0 <= i < |plats| && Overlap(st.box, plats[i]) {
      FirstContactExists(st.box, plats, i);
      var k :| FirstContact(st.box, plats, k);
      VerticalFirstContact(st, plats, panic, k);
    } else {
      VerticalNoContact(st, plats, panic);
    }
  }
}
