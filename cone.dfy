/** The range and cone test shared by Wall.is_visible and Enemy.can_see_rat:
    a target is seen when it is at most VISION_LENGTH away and its bearing
    is within half of VISION_ANGLE of the viewer's facing, on either side of
    the 0/360 wrap. Angles are in degrees. */
module Cone {

  const VISION_ANGLE: real := 120.0
  const VISION_LENGTH: real := 400.0

  /** Half of the cone's opening: Python's `VISION_ANGLE / 2`. */
  const HALF_ANGLE: real := VISION_ANGLE / 2.0

  /** Python's `a % 360` on a float: the floor modulus, in [0, 360). */
  function FloorMod360(a: real): (r: real)
    ensures 0.0 <= r < 360.0
  {
    a - 360.0 * ((a / 360.0).Floor as real)
  }

  /** An angle already in [0, 360) is its own remainder. */
  lemma FloorMod360OfReduced(a: real)
    requires 0.0 <= a < 360.0
    ensures FloorMod360(a) == a
  {
    assert (a / 360.0).Floor == 0;
  }

  /** The remainder ignores whole turns. */
  lemma FloorMod360Periodic(a: real, k: int)
    ensures FloorMod360(a + 360.0 * k as real) == FloorMod360(a)
  {
    var m := (a / 360.0).Floor;
    assert (a + 360.0 * k as real) / 360.0 == a / 360.0 + k as real;
    assert ((a + 360.0 * k as real) / 360.0).Floor == m + k;
  }

  /** The bearing is within HALF_ANGLE of the facing after removing k whole
      turns. */
  ghost predicate WithinTurns(bearing: real, facing: real, k: int) {
    -HALF_ANGLE <= bearing - facing - 360.0 * k as real <= HALF_ANGLE
  }

  /** The source's test on the reduced difference `(bearing - facing) % 360`:
      outside only when strictly between the two boundaries. */
  predicate DiffInCone(diff: real) {
    !(diff > HALF_ANGLE && diff < 360.0 - HALF_ANGLE)
  }

  /** The cone test of Wall.is_visible and Enemy.can_see_rat: it holds
      exactly when some whole number of turns brings the bearing within
      HALF_ANGLE of the facing, both cone edges included. */
  function InCone(bearing: real, facing: real): (r: bool)
    ensures r <==> exists k :: WithinTurns(bearing, facing, k)
  {
    InConeIffWithinTurns(bearing, facing);
    DiffInCone(FloorMod360(bearing - facing))
  }

  /** The reduced-difference test holds exactly when some whole number of
      turns brings the bearing within HALF_ANGLE of the facing. */
  lemma InConeIffWithinTurns(bearing: real, facing: real)
    ensures DiffInCone(FloorMod360(bearing - facing)) <==> exists k :: WithinTurns(bearing, facing, k)
  {
    var a := bearing - facing;
    var m := (a / 360.0).Floor;
    var diff := FloorMod360(a);
    assert diff == a - 360.0 * m as real;
    if DiffInCone(diff) {
      if diff <= HALF_ANGLE {
        assert WithinTurns(bearing, facing, m);
      } else {
        assert WithinTurns(bearing, facing, m + 1);
      }
    }
    if k :| WithinTurns(bearing, facing, k) {
      var e := a - 360.0 * k as real;
      FloorMod360Periodic(e, k);
      assert e + 360.0 * k as real == a;
      if e >= 0.0 {
        FloorMod360OfReduced(e);
      } else {
        FloorMod360OfReduced(e + 360.0);
        FloorMod360Periodic(e + 360.0, -1);
        assert e + 360.0 + 360.0 * (-1) as real == e;
      }
    }
  }

  /** Both cone edges are inside; just past an edge is outside. */
  lemma ConeEdgesInclusive(facing: real, eps: real)
    requires 0.0 < eps < 360.0 - 2.0 * HALF_ANGLE
    ensures InCone(facing + HALF_ANGLE, facing)
    ensures InCone(facing - HALF_ANGLE, facing)
    ensures !InCone(facing + HALF_ANGLE + eps, facing)
    ensures !InCone(facing - HALF_ANGLE - eps, facing)
  {
    assert facing + HALF_ANGLE - facing == HALF_ANGLE;
    FloorMod360OfReduced(HALF_ANGLE);
    assert facing - HALF_ANGLE - facing == -HALF_ANGLE;
    FloorMod360Periodic(360.0 - HALF_ANGLE, -1);
    FloorMod360OfReduced(360.0 - HALF_ANGLE);
    assert facing + HALF_ANGLE + eps - facing == HALF_ANGLE + eps;
    FloorMod360OfReduced(HALF_ANGLE + eps);
    assert facing - HALF_ANGLE - eps - facing == -HALF_ANGLE - eps;
    FloorMod360Periodic(360.0 - HALF_ANGLE - eps, -1);
    FloorMod360OfReduced(360.0 - HALF_ANGLE - eps);
  }

  /** `math.hypot(dx, dy) <= VISION_LENGTH`, compared on squares. */
  predicate InRange(dx: real, dy: real) {
    dx * dx + dy * dy <= VISION_LENGTH * VISION_LENGTH
  }

  /** The first two checks of Enemy.can_see_rat and all of Wall.is_visible:
      return False when too far, then False when outside the cone, else
      True. `bearing` is `degrees(atan2(dy, dx))`. */
  function RangeAndCone(dx: real, dy: real, bearing: real, facing: real): (r: bool)
    ensures r <==> InRange(dx, dy) && exists k :: WithinTurns(bearing, facing, k)
  {
    if !InRange(dx, dy) then false
    else if !InCone(bearing, facing) then false
    else true
  }
}
