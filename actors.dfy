/** The two actors, the rat (the player) and the enemy that hunts it, with
    the collision gate they share and the rat's vision clipping.

    Trigonometry is a parameter: `bearing(dx, dy)` stands for
    `degrees(atan2(dy, dx))` and `heading(a)` for `(cos(a°), sin(a°))`. */
module Actors {
  import opened Geometry
  import opened Cone
  import opened World

  const SPEED: real := 3.0
  const ENEMY_SPEED: real := 2.5
  /** `random.uniform(-10, 10)` bounds the wander jitter. */
  const WANDER_JITTER: real := 10.0

  // ---------------------------------------------------------------------
  // Hit box and the all-or-nothing collision gate
  // ---------------------------------------------------------------------

  /** `pygame.Rect(x - 10, y - 5, 20, 10)`: the 20 x 10 box centred on (x, y). */
  function HitBox(x: real, y: real): Box {
    Box(x - 10.0, y - 5.0, 20.0, 10.0)
  }

  /** `rect.center = (cx, cy)`: the box moves, its size stays. */
  function Recentered(b: Box, cx: real, cy: real): Box {
    Box(cx - b.width / 2.0, cy - b.height / 2.0, b.width, b.height)
  }

  /** Enemy.check_collision: the hit box centred at (x, y) overlaps a wall. */
  function CheckCollision(x: real, y: real, walls: seq<Wall>): (r: bool)
    ensures r <==> exists w :: w in walls && Overlaps(HitBox(x, y), w.rect)
  {
    if walls == [] then false
    else if Overlaps(HitBox(x, y), walls[0].rect) then true
    else
      assert forall w :: w in walls <==> w == walls[0] || w in walls[1..];
      CheckCollision(x, y, walls[1..])
  }

  /** The new position after proposing `step` from `pos`: the whole step is
      taken when the box at the candidate position overlaps no wall, and
      none of it otherwise. */
  function Gated(pos: Point, step: Point, walls: seq<Wall>): (r: Point)
    ensures var c := Point(pos.x + step.x, pos.y + step.y);
      (CheckCollision(c.x, c.y, walls) ==> r == pos) &&
      (!CheckCollision(c.x, c.y, walls) ==> r == c)
    ensures r == pos || !CheckCollision(r.x, r.y, walls)
  {
    var candidate := Point(pos.x + step.x, pos.y + step.y);
    if CheckCollision(candidate.x, candidate.y, walls) then pos else candidate
  }

  /** An actor clear of every wall stays clear after a gated move, and a
      rejected move leaves it where it was. */
  lemma GateKeepsClear(pos: Point, step: Point, walls: seq<Wall>)
    ensures !CheckCollision(pos.x, pos.y, walls) ==>
      var r := Gated(pos, step, walls);
      !CheckCollision(r.x, r.y, walls)
    ensures var r := Gated(pos, step, walls);
      r != Point(pos.x + step.x, pos.y + step.y) ==> r == pos
  {
  }

  /** No sliding: a diagonal step into a wall is refused whole, although its
      vertical part alone would have been accepted. */
  lemma NoSlidingAlongWalls()
    ensures var walls := [Wall(Rect(12, -100, 10, 200))];
      Gated(Point(0.0, 0.0), Point(3.0, 3.0), walls) == Point(0.0, 0.0) &&
      Gated(Point(0.0, 0.0), Point(0.0, 3.0), walls) == Point(0.0, 3.0)
  {
    var walls := [Wall(Rect(12, -100, 10, 200))];
    assert Overlaps(HitBox(3.0, 3.0), walls[0].rect);
    assert !Overlaps(HitBox(0.0, 3.0), walls[0].rect);
  }

  /** An actor at (100, 100) whose candidate box lies inside the wall
      (90, 95, 40, 40) is left at (100, 100). */
  lemma MoveIntoWallRejected()
    ensures Gated(Point(100.0, 100.0), Point(3.0, 0.0), [Wall(Rect(90, 95, 40, 40))]) == Point(100.0, 100.0)
  {
    var walls := [Wall(Rect(90, 95, 40, 40))];
    assert Overlaps(HitBox(103.0, 100.0), walls[0].rect);
  }

  /** The displacement of a forward move: `(cos(a°) * speed, sin(a°) * speed)`. */
  function Forward(a: real, speed: real, heading: real -> Point): Point {
    Point(heading(a).x * speed, heading(a).y * speed)
  }

  /** The keys the rat's move reads: W forward, S back, A and D strafe. */
  datatype Keys = Keys(w: bool, s: bool, a: bool, d: bool)

  /** Rat.update's `move_vec`, built up key by key from (0, 0): SPEED along
      the facing for W, against it for S, and along facing - 90 and
      facing + 90 degrees for A and D. The result is the sum of the
      contributions of the pressed keys. */
  function MoveVector(a: real, keys: Keys, heading: real -> Point): (v: Point)
    ensures var f, l, r := Forward(a, SPEED, heading), Forward(a - 90.0, SPEED, heading), Forward(a + 90.0, SPEED, heading);
      v.x == (if keys.w then f.x else 0.0) - (if keys.s then f.x else 0.0)
           + (if keys.a then l.x else 0.0) + (if keys.d then r.x else 0.0) &&
      v.y == (if keys.w then f.y else 0.0) - (if keys.s then f.y else 0.0)
           + (if keys.a then l.y else 0.0) + (if keys.d then r.y else 0.0)
    ensures keys == Keys(false, false, false, false) ==> v == Point(0.0, 0.0)
    ensures keys.w && keys.s && !keys.a && !keys.d ==> v == Point(0.0, 0.0)
  {
    var f, l, r := Forward(a, SPEED, heading), Forward(a - 90.0, SPEED, heading), Forward(a + 90.0, SPEED, heading);
    var w := if keys.w then f else Point(0.0, 0.0);
    var s := if keys.s then Point(w.x - f.x, w.y - f.y) else w;
    var sa := if keys.a then Point(s.x + l.x, s.y + l.y) else s;
    if keys.d then Point(sa.x + r.x, sa.y + r.y) else sa
  }

  // ---------------------------------------------------------------------
  // Vision clipping (Rat.clip_vision)
  // ---------------------------------------------------------------------

  /** One step of the clipping: a wall the ray hits moves its end point. */
  function ClipStep(start: Point, end: Point, wall: Wall): Point {
    match LineRectIntersection(start, end, wall.rect)
    case Some(p) => p
    case None => end
  }

  /** The end point after clipping against the walls in order, each against
      the ray already shortened by the walls before it. */
  function Clipped(start: Point, end: Point, walls: seq<Wall>): Point
    decreases |walls|
  {
    if walls == [] then end
    else ClipStep(start, Clipped(start, end, walls[..|walls| - 1]), walls[|walls| - 1])
  }

  /** What wall k finds on the ray as the walls before it left it. */
  function HitOnClipped(start: Point, end: Point, walls: seq<Wall>, k: nat): Option<Point>
    requires k < |walls|
  {
    LineRectIntersection(start, Clipped(start, end, walls[..k]), walls[k].rect)
  }

  /** Rat.clip_vision, with the wall list passed in. */
  method ClipVision(start: Point, end: Point, walls: seq<Wall>) returns (r: Point)
    ensures r == Clipped(start, end, walls)
  {
    var e := end;
    var i := 0;
    while i < |walls|
      invariant 0 <= i <= |walls|
      invariant e == Clipped(start, end, walls[..i])
    {
      var intersection := LineRectIntersection(start, e, walls[i].rect);
      if intersection.Some? {
        e := intersection.value;
      }
      assert walls[..i + 1][..i] == walls[..i];
      i := i + 1;
    }
    assert walls[..|walls|] == walls;
    r := e;
  }

  lemma PrefixOfPrefix(walls: seq<Wall>, n: nat, j: nat)
    requires j <= n <= |walls|
    ensures walls[..n][..j] == walls[..j]
  {
  }

  /** When no wall hits the (never shortened) ray, the end point is returned
      unchanged. */
  lemma {:induction false} ClipWithoutHits(start: Point, end: Point, walls: seq<Wall>)
    requires forall i :: 0 <= i < |walls| ==> LineRectIntersection(start, end, walls[i].rect).None?
    ensures Clipped(start, end, walls) == end
  {
    if walls != [] {
      var n := |walls| - 1;
      ClipWithoutHits(start, end, walls[..n]);
    }
  }

  /** The result is the hit found by the last wall that hits the ray as
      clipped so far: once wall k hits and no later wall hits, wall k's hit
      is the end point. */
  lemma {:induction false} ClipDecidedByLastHit(start: Point, end: Point, walls: seq<Wall>, k: nat)
    requires k < |walls|
    requires HitOnClipped(start, end, walls, k).Some?
    requires forall j :: k < j < |walls| ==> HitOnClipped(start, end, walls, j).None?
    ensures Clipped(start, end, walls) == HitOnClipped(start, end, walls, k).value
  {
    var n := |walls| - 1;
    if k < n {
      var pre := walls[..n];
      forall j | k <= j < n
        ensures HitOnClipped(start, end, pre, j) == HitOnClipped(start, end, walls, j)
      {
        PrefixOfPrefix(walls, n, j);
      }
      ClipDecidedByLastHit(start, end, pre, k);
      assert HitOnClipped(start, end, walls, n).None?;
    }
  }

  /** When no wall hits the ray as clipped so far, nothing is clipped. */
  lemma {:induction false} ClipUnchangedWithoutProgressiveHits(start: Point, end: Point, walls: seq<Wall>)
    requires forall j :: 0 <= j < |walls| ==> HitOnClipped(start, end, walls, j).None?
    ensures Clipped(start, end, walls) == end
  {
    if walls != [] {
      var n := |walls| - 1;
      var pre := walls[..n];
      forall j | 0 <= j < n
        ensures HitOnClipped(start, end, pre, j) == HitOnClipped(start, end, walls, j)
      {
        PrefixOfPrefix(walls, n, j);
      }
      ClipUnchangedWithoutProgressiveHits(start, end, pre);
      assert HitOnClipped(start, end, walls, n).None?;
    }
  }

  /** The far end of a cone edge: VISION_LENGTH along angle a from (x, y). */
  function RayEnd(x: real, y: real, a: real, heading: real -> Point): Point {
    Point(x + heading(a).x * VISION_LENGTH, y + heading(a).y * VISION_LENGTH)
  }

  /** The clipped corners of the vision triangle computed by
      Rat.draw_vision: both cone edges, each clipped against the walls. */
  method VisionCorners(x: real, y: real, a: real, walls: seq<Wall>, heading: real -> Point)
    returns (left: Point, right: Point)
    ensures left == Clipped(Point(x, y), RayEnd(x, y, a - HALF_ANGLE, heading), walls)
    ensures right == Clipped(Point(x, y), RayEnd(x, y, a + HALF_ANGLE, heading), walls)
  {
    left := ClipVision(Point(x, y), RayEnd(x, y, a - HALF_ANGLE, heading), walls);
    right := ClipVision(Point(x, y), RayEnd(x, y, a + HALF_ANGLE, heading), walls);
  }

  // ---------------------------------------------------------------------
  // The rat
  // ---------------------------------------------------------------------

  class Rat {
    var x: real
    var y: real
    var angle: real
    /** The hit box; always centred on (x, y). */
    var rect: Box

    ghost predicate Valid()
      reads this
    {
      rect == HitBox(x, y)
    }

    constructor (x0: real, y0: real)
      ensures Valid() && x == x0 && y == y0 && angle == 0.0
    {
      x, y, angle := x0, y0, 0.0;
      rect := Box(x0 - 10.0, y0 - 5.0, 20.0, 10.0);
    }

    /** Rat.update: face the mouse, propose the key-driven move, and commit it
        only when the recentred box overlaps no wall; the angle changes
        either way. */
    method Update(walls: seq<Wall>, mouse: Point, keys: Keys,
                  bearing: (real, real) -> real, heading: real -> Point)
      requires Valid()
      modifies this
      ensures Valid()
      ensures angle == bearing(mouse.x - old(x), mouse.y - old(y))
      ensures var step := MoveVector(angle, keys, heading);
        var nx, ny := old(x) + step.x, old(y) + step.y;
        if CheckCollision(nx, ny, walls) then x == old(x) && y == old(y)
        else x == nx && y == ny
      ensures old(!CheckCollision(x, y, walls)) ==> !CheckCollision(x, y, walls)
    {
      angle := bearing(mouse.x - x, mouse.y - y);
      var step := MoveVector(angle, keys, heading);
      var newX, newY := x + step.x, y + step.y;
      rect := Recentered(rect, newX, newY);
      assert rect == HitBox(newX, newY);

      var collision := false;
      var i := 0;
      while i < |walls|
        invariant 0 <= i <= |walls|
        invariant forall j :: 0 <= j < i ==> !Overlaps(rect, walls[j].rect)
      {
        if Overlaps(rect, walls[i].rect) {
          collision := true;
          break;
        }
        i := i + 1;
      }
      assert collision == CheckCollision(newX, newY, walls);

      if !collision {
        x, y := newX, newY;
      } else {
        rect := Recentered(rect, x, y);
      }
    }
  }

  // ---------------------------------------------------------------------
  // Line of sight (Enemy.can_see_rat)
  // ---------------------------------------------------------------------

  /** No wall's rectangle is crossed by the segment p-q. */
  function Unoccluded(p: Point, q: Point, walls: seq<Wall>): (r: bool)
    ensures r <==> forall i :: 0 <= i < |walls| ==> LineRectIntersection(p, q, walls[i].rect).None?
  {
    if walls == [] then true
    else if LineRectIntersection(p, q, walls[0].rect).Some? then false
    else
      assert forall i :: 0 < i < |walls| ==> walls[1..][i - 1] == walls[i];
      Unoccluded(p, q, walls[1..])
  }

  /** Enemy.can_see_rat with its occlusion step calling the rat's
      line_rect_intersection: the rat is seen when it is in range, inside
      the cone and no edge of any wall crosses the sight line. */
  function CanSeeRat(ex: real, ey: real, facing: real, rx: real, ry: real,
                     walls: seq<Wall>, bearing: (real, real) -> real): (r: bool)
    ensures var dx, dy := rx - ex, ry - ey;
      r <==>
        InRange(dx, dy) && (exists k :: WithinTurns(bearing(dx, dy), facing, k)) &&
        forall i, j :: 0 <= i < |walls| && 0 <= j < 4 ==>
          EdgeHit(Point(ex, ey), Point(rx, ry), Edges(walls[i].rect)[j]).None?
  {
    var dx, dy := rx - ex, ry - ey;
    if !RangeAndCone(dx, dy, bearing(dx, dy), facing) then false
    else Unoccluded(Point(ex, ey), Point(rx, ry), walls)
  }

  /** What Enemy.can_see_rat does as written. */
  datatype Sight = Returned(seen: bool) | AttributeError

  /** Enemy.can_see_rat as written: its occlusion loop calls
      `self.line_rect_intersection`, which Enemy does not have, so reaching
      the loop with at least one wall raises AttributeError. */
  function CanSeeRatAsWritten(ex: real, ey: real, facing: real, rx: real, ry: real,
                              walls: seq<Wall>, bearing: (real, real) -> real): (r: Sight)
    ensures r == if !RangeAndCone(rx - ex, ry - ey, bearing(rx - ex, ry - ey), facing) then Returned(false)
                 else if walls != [] then AttributeError
                 else Returned(true)
    ensures r.Returned? ==> r.seen == CanSeeRat(ex, ey, facing, rx, ry, walls, bearing)
  {
    var dx, dy := rx - ex, ry - ey;
    if !RangeAndCone(dx, dy, bearing(dx, dy), facing) then Returned(false)
    else if walls != [] then AttributeError
    else Returned(true)
  }

  /** As written, every rat in range and inside the cone of an enemy, in a
      level with any wall, makes can_see_rat raise. */
  lemma CanSeeRatAsWrittenRaises(ex: real, ey: real, facing: real, rx: real, ry: real,
                                 walls: seq<Wall>, bearing: (real, real) -> real)
    requires walls != []
    requires InRange(rx - ex, ry - ey)
    requires InCone(bearing(rx - ex, ry - ey), facing)
    ensures CanSeeRatAsWritten(ex, ey, facing, rx, ry, walls, bearing) == AttributeError
  {
    assert RangeAndCone(rx - ex, ry - ey, bearing(rx - ex, ry - ey), facing);
  }

  /** Occlusion: when the sight line crosses an edge of some wall, not in
      parallel, the rat is not seen, whatever the range and the cone say. */
  lemma CrossedEdgeHidesRat(ex: real, ey: real, facing: real, rx: real, ry: real,
                            walls: seq<Wall>, bearing: (real, real) -> real,
                            i: nat, j: nat, t: real, u: real)
    requires i < |walls| && j < 4
    requires var e := Edges(walls[i].rect)[j];
      Denom(Point(ex, ey), Point(rx, ry), e.a, e.b) != 0.0 &&
      Crosses(Point(ex, ey), Point(rx, ry), e.a, e.b, t, u)
    ensures !CanSeeRat(ex, ey, facing, rx, ry, walls, bearing)
  {
    var e := Edges(walls[i].rect)[j];
    LineLineFindsCrossing(Point(ex, ey), Point(rx, ry), e.a, e.b, t, u);
  }

  /** A wall between viewer and target hides it even inside the cone: viewer
      at (0, 0), target at (200, 0), wall from (50, -10) to (70, 10), whose
      right edge the sight line crosses at (70, 0). */
  lemma WallHidesRat(bearing: (real, real) -> real)
    ensures !CanSeeRat(0.0, 0.0, 0.0, 200.0, 0.0, [Wall(Rect(50, -10, 20, 20))], bearing)
  {
    var p, q, r := Point(0.0, 0.0), Point(200.0, 0.0), Rect(50, -10, 20, 20);
    var right := Edges(r)[1];
    assert right == Segment(Point(70.0, -10.0), Point(70.0, 10.0));
    assert Denom(p, q, right.a, right.b) == 4000.0;
    assert Lerp(p, q, 0.35) == Point(70.0, 0.0) == Lerp(right.a, right.b, 0.5);
    CrossedEdgeHidesRat(0.0, 0.0, 0.0, 200.0, 0.0, [Wall(r)], bearing, 0, 1, 0.35, 0.5);
  }

  // ---------------------------------------------------------------------
  // The enemy
  // ---------------------------------------------------------------------

  class Enemy {
    var x: real
    var y: real
    var angle: real
    var speed: real
    /** The rat's position while the enemy chases it, None while it wanders. */
    var target: Option<Point>

    constructor (x0: real, y0: real)
      ensures x == x0 && y == y0 && angle == 0.0 && speed == ENEMY_SPEED && target == None
    {
      x, y, angle, speed, target := x0, y0, 0.0, ENEMY_SPEED, None;
    }

    /** Enemy.move_towards_target: nothing when already at the target
        (distance 0); otherwise face it and take one gated step. */
    method MoveTowardsTarget(walls: seq<Wall>, bearing: (real, real) -> real, heading: real -> Point)
      requires target.Some?
      modifies this
      ensures target == old(target) && speed == old(speed)
      ensures var t := old(target).value;
        if t == Point(old(x), old(y)) then x == old(x) && y == old(y) && angle == old(angle)
        else
          angle == bearing(t.x - old(x), t.y - old(y)) &&
          Point(x, y) == Gated(Point(old(x), old(y)), Forward(angle, speed, heading), walls)
      ensures old(!CheckCollision(x, y, walls)) ==> !CheckCollision(x, y, walls)
    {
      var dx, dy := target.value.x - x, target.value.y - y;
      // math.hypot(dx, dy) > 0 exactly when the vector is not zero.
      if !(dx == 0.0 && dy == 0.0) {
        angle := bearing(dx, dy);
        var step := Forward(angle, speed, heading);
        var newX, newY := x + step.x, y + step.y;
        GateKeepsClear(Point(x, y), step, walls);
        if !CheckCollision(newX, newY, walls) {
          x, y := newX, newY;
        }
      }
    }

    /** Enemy.wander: turn by the jitter, then take one gated step. */
    method Wander(walls: seq<Wall>, jitter: real, heading: real -> Point)
      requires -WANDER_JITTER <= jitter <= WANDER_JITTER
      modifies this
      ensures target == old(target) && speed == old(speed)
      ensures angle == old(angle) + jitter
      ensures Point(x, y) == Gated(Point(old(x), old(y)), Forward(angle, speed, heading), walls)
      ensures old(!CheckCollision(x, y, walls)) ==> !CheckCollision(x, y, walls)
    {
      angle := angle + jitter;
      var step := Forward(angle, speed, heading);
      var newX, newY := x + step.x, y + step.y;
      GateKeepsClear(Point(x, y), step, walls);
      if !CheckCollision(newX, newY, walls) {
        x, y := newX, newY;
      }
    }

    /** Enemy.update: chase the rat while it is seen, wander otherwise. */
    method Update(rat: Rat, walls: seq<Wall>, jitter: real,
                  bearing: (real, real) -> real, heading: real -> Point)
      requires -WANDER_JITTER <= jitter <= WANDER_JITTER
      modifies this
      ensures speed == old(speed)
      ensures var seen := CanSeeRat(old(x), old(y), old(angle), rat.x, rat.y, walls, bearing);
        target == (if seen then Some(Point(rat.x, rat.y)) else None)
      ensures var seen := CanSeeRat(old(x), old(y), old(angle), rat.x, rat.y, walls, bearing);
        var t := Point(rat.x, rat.y);
        seen ==>
          if t == Point(old(x), old(y)) then x == old(x) && y == old(y) && angle == old(angle)
          else
            angle == bearing(t.x - old(x), t.y - old(y)) &&
            Point(x, y) == Gated(Point(old(x), old(y)), Forward(angle, speed, heading), walls)
      ensures var seen := CanSeeRat(old(x), old(y), old(angle), rat.x, rat.y, walls, bearing);
        !seen ==>
          angle == old(angle) + jitter &&
          Point(x, y) == Gated(Point(old(x), old(y)), Forward(angle, speed, heading), walls)
      ensures old(!CheckCollision(x, y, walls)) ==> !CheckCollision(x, y, walls)
    {
      if CanSeeRat(x, y, angle, rat.x, rat.y, walls, bearing) {
        target := Some(Point(rat.x, rat.y));
      } else {
        target := None;
        Wander(walls, jitter, heading);
      }

      if target.Some? {
        MoveTowardsTarget(walls, bearing, heading);
      }
    }
  }
}
