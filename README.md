# Mouse-and-cat game core: geometry, vision and movement

A model of the per-frame simulation core of the "Mouse-Cat Game" prototype
(`test.py`). The player is a rat that faces the mouse cursor and moves with
the W/A/S/D keys. An enemy wanders, and the intent is that it chases the
rat once the rat is inside its vision cone. As written, though,
`Enemy.can_see_rat` raises AttributeError at test.py:153 the first time the
rat is in range and inside the cone while the level has walls, which ends
the game (see "## Findings"). Walls block movement. The rat's vision triangle is
clipped against the walls. A door can be toggled with a click.

The model is split into four modules:

- `Geometry` (geometry.dfy) holds points, pygame rectangles (integer
  `Rect`), actor hit boxes (real `Box`), segment-segment intersection by
  Cramer's rule, and the segment-rectangle test that returns the first edge
  hit in the fixed order top, right, bottom, left.
- `Cone` (cone.dfy) holds the range check and the cone check that
  `Wall.is_visible` and `Enemy.can_see_rat` share. These are the floor
  modulus 360 of the bearing difference and the two inclusive cone edges.
- `World` (world.dfy) holds walls with their visibility test and the door
  (its toggle and the click handler).
- `Actors` (actors.dfy) holds the 20 x 10 hit box and the all-or-nothing
  collision gate, the rat's chained vision clipping, the `Rat` class and
  the `Enemy` class with its chase/wander choice, and the line-of-sight
  test.

Coordinates are exact reals. Trigonometry is passed in as function
parameters:

- `bearing(dx, dy)` stands for `degrees(atan2(dy, dx))`;
- `heading(a)` stands for `(cos(a°), sin(a°))`.

`math.hypot(dx, dy) > 400` is compared on squares. The wander jitter drawn
by `random.uniform(-10, 10)` is a parameter bounded to [-10, 10]. The wall
list read as a global by `clip_vision` and `wander` is an explicit
parameter. `Actors.Enemy.Update` passes its own `walls` on to `Wander`,
whereas the source's `wander` always reads the global list (test.py:172).
The two agree because the program's only call (test.py:252) passes the
global list itself.

The state that the source changes in place is modelled as classes:

- `Rat` with `x`, `y`, `angle` and the hit box `rect`;
- `Enemy` with `x`, `y`, `angle`, `speed` and `target`;
- `Door` with `is_open`.

Their methods state the entire new state. The pure routines are functions,
and the lemmas beside them state their properties.

## Model

| member | source | states |
|---|---|---|
| Geometry.Trunc | test.py:120 | `int()` truncates toward zero: the result is the integer at most 1 away from the input toward 0 |
| Geometry.HalfTowardZero | test.py:197 | the half-width used by pygame's `centerx`/`centery`, rounded toward zero |
| Geometry.LineLineIntersection | test.py:113-121 | None whenever `denom == 0`; a returned point has both parameters in [0, 1], the two segments meet at parameter t, and the point is that crossing point truncated |
| Geometry.CramerSolves | test.py:114-118 | the t and u of Cramer's rule name one and the same point on both lines |
| Geometry.CrossingIsUnique | test.py:114-118 | non-parallel lines share only that point, so any crossing has exactly those parameters |
| Geometry.LineLineFindsCrossing | test.py:113-121 | whenever two non-parallel segments cross, the intersection is returned, truncated |
| Geometry.LineLineSymmetric | test.py:113-121 | swapping the two segments gives the same result |
| Geometry.LineLineWithinBoxes | test.py:119-120 | a returned point comes from a crossing point inside the bounding boxes of both segments |
| Geometry.CrossingAtMidpoints | test.py:113-121 | (0,0)-(10,0) against (5,-5)-(5,5) gives (5,0) |
| Geometry.Edges | test.py:101-106 | the four edges top, right, bottom, left, starting at the top-left corner; each edge ends where the next begins, closing the boundary; the top and bottom edges are horizontal at `top` and `bottom`, the right and left edges vertical at `right` and `left` |
| Geometry.FirstHit | test.py:107-111 | the edge scan returns None exactly when no edge intersects |
| Geometry.FirstHitIsEarliest | test.py:107-110 | the result is the hit of the earliest intersecting edge; a later edge's hit is never returned while an earlier one hits |
| Geometry.LineRectIntersection | test.py:100-111 | None exactly when none of the four edges intersects |
| Geometry.LineRectFirstEdgeWins | test.py:101-110 | the edges are tried in the order top, right, bottom, left, and the first that hits gives the result |
| Geometry.FirstHitIsNotNearest | test.py:100-111 | a segment entering through the bottom edge and leaving through the top edge is reported at the far top edge (5, 0), although the bottom edge is hit at (5, 10), nearer the start (t = 0.25 against 0.5) |
| Geometry.BottomEdgeHit | test.py:113-121 | the segment (5,20)-(5,-20) meets the bottom edge (10,10)-(0,10) at (5,10), with t = 0.25 |
| Cone.FloorMod360 | test.py:149 | Python's `% 360` on a float lies in [0, 360) |
| Cone.FloorMod360OfReduced | test.py:149 | an angle already in [0, 360) is unchanged |
| Cone.FloorMod360Periodic | test.py:149 | whole turns do not change the remainder |
| Cone.InConeIffWithinTurns | test.py:149-151 | the source's test on `abs((angle - self.angle) % 360)` holds iff the bearing is within 60 degrees of the facing modulo whole turns, in both directions |
| Cone.InCone | test.py:149-150 | the cone test is true iff some whole number of turns brings the bearing within 60 degrees of the facing, both edges included |
| Cone.ConeEdgesInclusive | test.py:150 | both cone edges (facing ± 60) are inside and just past either edge is outside |
| Cone.RangeAndCone | test.py:144-151 | false beyond VISION_LENGTH; otherwise true iff the bearing is within 60 degrees of the facing modulo whole turns |
| World.Wall.IsVisible | test.py:196-205 | the wall's (truncated) centre is in range and inside the rat's cone; no occlusion is applied |
| World.Door.constructor | test.py:208-210 | a door starts closed |
| World.Door.Toggle | test.py:216-217 | `is_open` is flipped |
| World.ToggleTwiceRestores | test.py:216-217 | toggling twice restores the door's state |
| World.ClickDoor | test.py:245-247 | a click inside the door's rectangle (half-open on the right and bottom) toggles it, any other click does not |
| Actors.CheckCollision | test.py:176-181 | true iff some wall's rect strictly overlaps the box `(x-10, y-5, 20, 10)` |
| Actors.Gated | test.py:164-166 | the whole step is taken when the box at the candidate position overlaps no wall, otherwise the position is unchanged; the result is the old position or a clear one (the same gate is used at test.py:172-174 and test.py:69-73) |
| Actors.GateKeepsClear | test.py:164-166 | a gated move from a clear position ends clear; a refused move leaves the position unchanged |
| Actors.NoSlidingAlongWalls | test.py:59-73 | a diagonal step into a wall is refused whole even though its vertical part alone would be accepted |
| Actors.MoveIntoWallRejected | test.py:176-181 | an actor at (100,100) stepping into the wall (90,95,40,40) stays at (100,100) |
| Actors.MoveVector | test.py:41-56 | the move vector is the sum of the pressed keys' contributions: SPEED along the facing for W, against it for S, along facing - 90 for A and facing + 90 for D; no keys, or W and S alone, give (0, 0) |
| Actors.ClipVision | test.py:93-98 | the loop computes the wall-by-wall clipping, where each wall is tested against the ray as already shortened |
| Actors.ClipWithoutHits | test.py:93-98 | if no wall intersects the ray, the end point is returned unchanged |
| Actors.ClipUnchangedWithoutProgressiveHits | test.py:94-98 | if no wall hits the ray as clipped so far, nothing is clipped |
| Actors.ClipDecidedByLastHit | test.py:94-97 | the result is the intersection found by the last wall that hits the progressively clipped ray |
| Actors.VisionCorners | test.py:82-89 | the vision triangle's corners are the two cone-edge rays of length VISION_LENGTH, each clipped against the walls |
| Actors.Rat.constructor | test.py:27-33 | position as given, angle 0, hit box centred on the position |
| Actors.Rat.Update | test.py:35-73 | the angle always faces the mouse; the key-driven move is taken whole when the recentred box overlaps no wall, otherwise position and box stay; the box stays centred on the position; a clear rat stays clear |
| Actors.Unoccluded | test.py:152-155 | true iff the sight line intersects no wall's rectangle |
| Actors.CanSeeRat | test.py:143-155 | seen iff in range, inside the cone modulo whole turns, and no edge of any wall crosses the sight line |
| Actors.CanSeeRatAsWritten | test.py:143-155 | as written: False when out of range or outside the cone; otherwise AttributeError when there is a wall and True when there is none; whenever it returns, it agrees with CanSeeRat |
| Actors.CanSeeRatAsWrittenRaises | test.py:152-154 | as written, any rat in range and inside the cone, with a wall in the level, raises AttributeError |
| Actors.CrossedEdgeHidesRat | test.py:152-154 | a sight line crossing some wall's edge (not in parallel) means the rat is not seen |
| Actors.WallHidesRat | test.py:143-155 | viewer (0,0), target (200,0), wall (50,-10)-(70,10): not seen, whatever the cone says |
| Actors.Enemy.constructor | test.py:124-131 | position as given, angle 0, speed 2.5, no target |
| Actors.Enemy.MoveTowardsTarget | test.py:157-166 | nothing happens at distance 0; otherwise the enemy faces the target and takes a gated step of `speed` along its new angle; the target is kept |
| Actors.Enemy.Wander | test.py:168-174 | the angle changes by the jitter, then a gated step along the new angle |
| Actors.Enemy.Update | test.py:133-141 | `target` is the rat's position iff the rat is seen, else None; seen means chase, unseen means wander; a clear enemy stays clear |

## Left out

- Drawing and the frame loop are I/O and presentation rather than logic.
  This covers surfaces and images, `draw` for the rat, enemy, wall and
  door, the polygon and circle of `draw_vision`, `display.flip`,
  `clock.tick`, the event loop's quit handling, and mouse and keyboard
  polling. The mouse position and the pressed keys are parameters of
  `Rat.Update`.
- `atan2`, `degrees`, `radians`, `cos`, `sin` and `hypot` are parameters or
  squared comparisons, not computed. The model uses exact reals, so the
  rounding of floats is not modelled.
- `rad_angle ± pi/2` in the strafe moves is written as the facing ± 90
  degrees passed to `heading`.
- `random.uniform` in `wander` is a parameter. `random.randint` for the
  enemy's start is part of the level data.
- pygame `Rect` converts floats to integers when a rect is built from, or
  centred on, float coordinates. This is a foreign library behaviour: the
  actor's hit box is a real-valued box.
- pygame's `colliderect` never reports a collision for a rect of zero
  width or height. The model reads `colliderect` as strict overlap and
  does not model that case. Every rect in the game has a positive size.
- The wall list literal, the door's position and the start positions are
  data, not logic.
- The program has no door blocking, level exit, timer or peripheral
  detection. The door is never added to `walls` (test.py:220-234), so it
  blocks nothing, and `PERIPHERAL_RADIUS` is only drawn.
- `line_line_intersection` truncates both coordinates of the intersection
  point with `int()` (test.py:120); `Geometry.LineLineIntersection` does
  the same.
- Actors.Enemy.Update: the enemy's line of sight uses the corrected
  `Actors.CanSeeRat`, not the raising one; see Findings.

## Findings

| source | as written | input that shows it | evidently intended | confidence | as-written member | corrected member |
|---|---|---|---|---|---|---|
| test.py:153 | `Enemy.can_see_rat` calls `self.line_rect_intersection`, but only `Rat` defines that method | an enemy with the rat within 400 units and inside its 120-degree cone, with a non-empty wall list (the game's list has eleven walls) | test the sight line against each wall with the rat's segment-rectangle routine, and report not seen once a wall blocks | high (not executed) | Actors.CanSeeRatAsWritten | Actors.CanSeeRat |
