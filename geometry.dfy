/** Plane geometry used by the game: points, pygame rectangles, actor hit
    boxes, segment-segment and segment-rectangle intersection.
    Coordinates are exact reals standing for the program's floats. */
module Geometry {

  datatype Option<T> = None | Some(value: T)

  datatype Point = Point(x: real, y: real)

  /** A segment from `a` to `b`, as one edge of a rectangle. */
  datatype Segment = Segment(a: Point, b: Point)

  /** A pygame Rect: integer left, top, width and height. */
  datatype Rect = Rect(left: int, top: int, width: int, height: int) {
    function Right(): int { left + width }
    function Bottom(): int { top + height }
    /** pygame's centerx / centery: C integer division, which truncates. */
    function CenterX(): int { left + HalfTowardZero(width) }
    function CenterY(): int { top + HalfTowardZero(height) }
  }

  /** An actor's hit box, an axis-aligned box with real corners. */
  datatype Box = Box(left: real, top: real, width: real, height: real)

  /** n / 2 rounded toward zero, as C's integer division does. */
  function HalfTowardZero(n: int): (h: int)
    ensures n >= 0 ==> 0 <= n - 2 * h <= 1
    ensures n < 0 ==> -1 <= n - 2 * h <= 0
  {
    if n >= 0 then n / 2 else -((-n) / 2)
  }

  /** Python's `int(r)` on a float: truncation toward zero. */
  function Trunc(r: real): (n: int)
    ensures 0.0 <= r ==> n as real <= r < n as real + 1.0
    ensures r < 0.0 ==> n as real - 1.0 < r <= n as real
  {
    if r >= 0.0 then r.Floor else -((-r).Floor)
  }

  function TruncPoint(p: Point): Point {
    Point(Trunc(p.x) as real, Trunc(p.y) as real)
  }

  /** pygame's colliderect, read as strict overlap: boxes that only touch
      along an edge do not collide. */
  predicate Overlaps(b: Box, r: Rect) {
    b.left < r.Right() as real && b.top < r.Bottom() as real &&
    b.left + b.width > r.left as real && b.top + b.height > r.top as real
  }

  /** pygame's collidepoint: the right and bottom edges are outside. */
  predicate CollidePoint(r: Rect, px: int, py: int) {
    r.left <= px < r.Right() && r.top <= py < r.Bottom()
  }

  // ---------------------------------------------------------------------
  // Segment-segment intersection (Cramer's rule)
  // ---------------------------------------------------------------------

  /** The point at parameter t along the segment from a to b. */
  function Lerp(a: Point, b: Point, t: real): Point {
    Point(Mix(a.x, b.x, t), Mix(a.y, b.y, t))
  }

  function Mix(a: real, b: real, t: real): real {
    a + t * (b - a)
  }

  function Denom(p1: Point, p2: Point, p3: Point, p4: Point): real {
    (p1.x - p2.x) * (p3.y - p4.y) - (p1.y - p2.y) * (p3.x - p4.x)
  }

  function ParamT(p1: Point, p2: Point, p3: Point, p4: Point): real
    requires Denom(p1, p2, p3, p4) != 0.0
  {
    ((p1.x - p3.x) * (p3.y - p4.y) - (p1.y - p3.y) * (p3.x - p4.x)) / Denom(p1, p2, p3, p4)
  }

  function ParamU(p1: Point, p2: Point, p3: Point, p4: Point): real
    requires Denom(p1, p2, p3, p4) != 0.0
  {
    -((p1.x - p2.x) * (p1.y - p3.y) - (p1.y - p2.y) * (p1.x - p3.x)) / Denom(p1, p2, p3, p4)
  }

  /** Parameter t on segment p1-p2 and u on segment p3-p4 name one common
      point of the two closed segments. */
  ghost predicate Crosses(p1: Point, p2: Point, p3: Point, p4: Point, t: real, u: real) {
    0.0 <= t <= 1.0 && 0.0 <= u <= 1.0 && Lerp(p1, p2, t) == Lerp(p3, p4, u)
  }

  /** Rat.line_line_intersection: None when the segments are parallel or
      collinear (even overlapping), otherwise the truncated common point when
      both parameters lie in [0, 1]. */
  function LineLineIntersection(p1: Point, p2: Point, p3: Point, p4: Point): (r: Option<Point>)
    ensures Denom(p1, p2, p3, p4) == 0.0 ==> r == None
    ensures r.Some? ==>
      Denom(p1, p2, p3, p4) != 0.0 &&
      Crosses(p1, p2, p3, p4, ParamT(p1, p2, p3, p4), ParamU(p1, p2, p3, p4)) &&
      r.value == TruncPoint(Lerp(p1, p2, ParamT(p1, p2, p3, p4)))
  {
    if Denom(p1, p2, p3, p4) == 0.0 then None
    else
      var t := ParamT(p1, p2, p3, p4);
      var u := ParamU(p1, p2, p3, p4);
      if 0.0 <= t <= 1.0 && 0.0 <= u <= 1.0 then
        CramerSolves(p1, p2, p3, p4);
        Some(TruncPoint(Lerp(p1, p2, t)))
      else None
  }

  /** The Cramer's-rule parameters name the same point on both lines. */
  lemma CramerSolves(p1: Point, p2: Point, p3: Point, p4: Point)
    requires Denom(p1, p2, p3, p4) != 0.0
    ensures Lerp(p1, p2, ParamT(p1, p2, p3, p4)) == Lerp(p3, p4, ParamU(p1, p2, p3, p4))
  {
    var a, b := p1.x - p2.x, p1.y - p2.y;
    var c, d := p3.x - p4.x, p3.y - p4.y;
    var e, f := p1.x - p3.x, p1.y - p3.y;
    var den := a * d - b * c;
    assert den == Denom(p1, p2, p3, p4);
    var t, u := ParamT(p1, p2, p3, p4), ParamU(p1, p2, p3, p4);
    assert t * den == e * d - f * c;
    assert u * den == b * e - a * f;
    assert (t * a - u * c) * den == (t * den) * a - (u * den) * c;
    assert (e * d - f * c) * a - (b * e - a * f) * c == e * den;
    assert t * a - u * c == e;
    assert (t * b - u * d) * den == (t * den) * b - (u * den) * d;
    assert (e * d - f * c) * b - (b * e - a * f) * d == f * den;
    assert t * b - u * d == f;
  }

  /** Non-parallel lines meet in at most one point: any common point has the
      Cramer's-rule parameters. */
  lemma CrossingIsUnique(p1: Point, p2: Point, p3: Point, p4: Point, t: real, u: real)
    requires Denom(p1, p2, p3, p4) != 0.0
    requires Lerp(p1, p2, t) == Lerp(p3, p4, u)
    ensures t == ParamT(p1, p2, p3, p4) && u == ParamU(p1, p2, p3, p4)
  {
    CramerSolves(p1, p2, p3, p4);
    var t', u' := ParamT(p1, p2, p3, p4), ParamU(p1, p2, p3, p4);
    var a, b := p1.x - p2.x, p1.y - p2.y;
    var c, d := p3.x - p4.x, p3.y - p4.y;
    var dt, du := t - t', u - u';
    // Subtracting the two equal points: dt * (p1 - p2) == du * (p3 - p4).
    assert dt * a == du * c;
    assert dt * b == du * d;
    assert dt * Denom(p1, p2, p3, p4) == (dt * a) * d - (dt * b) * c;
    assert (du * c) * d - (du * d) * c == 0.0;
    assert dt == 0.0;
  }

  /** Whenever the two segments cross and are not parallel, the intersection
      is found, and it is the truncation of the crossing point. */
  lemma LineLineFindsCrossing(p1: Point, p2: Point, p3: Point, p4: Point, t: real, u: real)
    requires Denom(p1, p2, p3, p4) != 0.0
    requires Crosses(p1, p2, p3, p4, t, u)
    ensures LineLineIntersection(p1, p2, p3, p4) == Some(TruncPoint(Lerp(p1, p2, t)))
  {
    CrossingIsUnique(p1, p2, p3, p4, t, u);
  }

  /** The intersection does not depend on which segment comes first. */
  lemma LineLineSymmetric(p1: Point, p2: Point, p3: Point, p4: Point)
    ensures LineLineIntersection(p1, p2, p3, p4) == LineLineIntersection(p3, p4, p1, p2)
  {
    assert Denom(p3, p4, p1, p2) == -Denom(p1, p2, p3, p4);
    if LineLineIntersection(p1, p2, p3, p4).Some? {
      var t, u := ParamT(p1, p2, p3, p4), ParamU(p1, p2, p3, p4);
      LineLineFindsCrossing(p3, p4, p1, p2, u, t);
    } else if LineLineIntersection(p3, p4, p1, p2).Some? {
      var t, u := ParamT(p3, p4, p1, p2), ParamU(p3, p4, p1, p2);
      LineLineFindsCrossing(p1, p2, p3, p4, u, t);
    }
  }

  /** The segment (0, 0)-(10, 0) meets the segment (5, -5)-(5, 5) at (5, 0). */
  lemma CrossingAtMidpoints()
    ensures LineLineIntersection(Point(0.0, 0.0), Point(10.0, 0.0), Point(5.0, -5.0), Point(5.0, 5.0))
            == Some(Point(5.0, 0.0))
  {
    var p1, p2, p3, p4 := Point(0.0, 0.0), Point(10.0, 0.0), Point(5.0, -5.0), Point(5.0, 5.0);
    assert Denom(p1, p2, p3, p4) == 100.0;
    assert ParamT(p1, p2, p3, p4) == 0.5;
    assert ParamU(p1, p2, p3, p4) == 0.5;
  }

  /** A number a + t * (b - a) with t in [0, 1] lies between a and b. */
  lemma Between(a: real, b: real, t: real)
    requires 0.0 <= t <= 1.0
    ensures (a <= Mix(a, b, t) <= b) || (b <= Mix(a, b, t) <= a)
  {
    var w := b - a;
    assert w - t * w == (1.0 - t) * w;
    if w >= 0.0 {
      assert (1.0 - t) * w >= 0.0;
      assert t * w >= 0.0;
    } else {
      assert (1.0 - t) * w <= 0.0;
      assert t * w <= 0.0;
    }
  }

  /** A point at a parameter in [0, 1] lies in the segment's bounding box. */
  lemma LerpInBox(a: Point, b: Point, t: real)
    requires 0.0 <= t <= 1.0
    ensures (a.x <= Lerp(a, b, t).x <= b.x) || (b.x <= Lerp(a, b, t).x <= a.x)
    ensures (a.y <= Lerp(a, b, t).y <= b.y) || (b.y <= Lerp(a, b, t).y <= a.y)
  {
    Between(a.x, b.x, t);
    Between(a.y, b.y, t);
  }

  /** Containment: whenever an intersection is returned, the exact crossing
      point lies in the bounding boxes of both segments, and the returned
      point is that crossing point truncated toward zero. */
  lemma LineLineWithinBoxes(p1: Point, p2: Point, p3: Point, p4: Point)
    requires LineLineIntersection(p1, p2, p3, p4).Some?
    ensures Denom(p1, p2, p3, p4) != 0.0
    ensures var q := Lerp(p1, p2, ParamT(p1, p2, p3, p4));
      ((p1.x <= q.x <= p2.x) || (p2.x <= q.x <= p1.x)) &&
      ((p1.y <= q.y <= p2.y) || (p2.y <= q.y <= p1.y)) &&
      ((p3.x <= q.x <= p4.x) || (p4.x <= q.x <= p3.x)) &&
      ((p3.y <= q.y <= p4.y) || (p4.y <= q.y <= p3.y)) &&
      LineLineIntersection(p1, p2, p3, p4).value == TruncPoint(q)
  {
    var t, u := ParamT(p1, p2, p3, p4), ParamU(p1, p2, p3, p4);
    LerpInBox(p1, p2, t);
    LerpInBox(p3, p4, u);
  }

  // ---------------------------------------------------------------------
  // Segment-rectangle intersection: first edge hit, in a fixed order
  // ---------------------------------------------------------------------

  /** The four boundary edges, in the order they are tried: top, right,
      bottom, left. */
  function Edges(r: Rect): (es: seq<Segment>)
    ensures |es| == 4
    ensures es[0].a == Point(r.left as real, r.top as real)
    ensures es[0].b == es[1].a && es[1].b == es[2].a && es[2].b == es[3].a && es[3].b == es[0].a
    ensures es[0].a.y == es[0].b.y == r.top as real && es[1].a.x == es[1].b.x == r.Right() as real
    ensures es[2].a.y == es[2].b.y == r.Bottom() as real && es[3].a.x == es[3].b.x == r.left as real
  {
    var l, t, rt, b := r.left as real, r.top as real, r.Right() as real, r.Bottom() as real;
    [ Segment(Point(l, t), Point(rt, t)),
      Segment(Point(rt, t), Point(rt, b)),
      Segment(Point(rt, b), Point(l, b)),
      Segment(Point(l, b), Point(l, t)) ]
  }

  function EdgeHit(p1: Point, p2: Point, e: Segment): Option<Point> {
    LineLineIntersection(p1, p2, e.a, e.b)
  }

  /** The hit of the first edge in `edges` that the segment p1-p2 intersects. */
  function FirstHit(p1: Point, p2: Point, edges: seq<Segment>): (r: Option<Point>)
    ensures r.None? <==> forall i :: 0 <= i < |edges| ==> EdgeHit(p1, p2, edges[i]).None?
    decreases |edges|
  {
    if edges == [] then None
    else
      var h := EdgeHit(p1, p2, edges[0]);
      if h.Some? then h else FirstHit(p1, p2, edges[1..])
  }

  /** The edge FirstHit reports is the earliest intersecting one: a later
      edge's hit is never returned while an earlier edge also hits. */
  lemma {:induction false} FirstHitIsEarliest(p1: Point, p2: Point, edges: seq<Segment>, k: int)
    requires 0 <= k < |edges|
    requires forall j :: 0 <= j < k ==> EdgeHit(p1, p2, edges[j]).None?
    requires EdgeHit(p1, p2, edges[k]).Some?
    ensures FirstHit(p1, p2, edges) == EdgeHit(p1, p2, edges[k])
  {
    if k > 0 {
      assert EdgeHit(p1, p2, edges[0]).None?;
      assert forall j :: 0 <= j < k - 1 ==> edges[1..][j] == edges[j + 1];
      FirstHitIsEarliest(p1, p2, edges[1..], k - 1);
    }
  }

  /** Rat.line_rect_intersection. */
  function LineRectIntersection(p1: Point, p2: Point, r: Rect): (h: Option<Point>)
    ensures h.None? <==> forall i :: 0 <= i < 4 ==> EdgeHit(p1, p2, Edges(r)[i]).None?
  {
    FirstHit(p1, p2, Edges(r))
  }

  /** The edges are tried in the order top, right, bottom, left and the first
      one that hits decides the result. */
  lemma LineRectFirstEdgeWins(p1: Point, p2: Point, r: Rect)
    ensures var es := Edges(r);
      var top, right, bottom, left := EdgeHit(p1, p2, es[0]), EdgeHit(p1, p2, es[1]),
                                      EdgeHit(p1, p2, es[2]), EdgeHit(p1, p2, es[3]);
      LineRectIntersection(p1, p2, r) ==
        if top.Some? then top
        else if right.Some? then right
        else if bottom.Some? then bottom
        else left
  {
    var es := Edges(r);
    if EdgeHit(p1, p2, es[0]).Some? {
      FirstHitIsEarliest(p1, p2, es, 0);
    } else if EdgeHit(p1, p2, es[1]).Some? {
      FirstHitIsEarliest(p1, p2, es, 1);
    } else if EdgeHit(p1, p2, es[2]).Some? {
      FirstHitIsEarliest(p1, p2, es, 2);
    } else if EdgeHit(p1, p2, es[3]).Some? {
      FirstHitIsEarliest(p1, p2, es, 3);
    }
  }

  /** First hit is not nearest hit: a vertical segment entering the rectangle
      (0, 0, 10, 10) through its bottom edge and leaving through its top edge
      is reported at the top edge, the far one, although the bottom edge is
      hit nearer the start (t = 0.25 against t = 0.5). */
  lemma FirstHitIsNotNearest()
    ensures LineRectIntersection(Point(5.0, 20.0), Point(5.0, -20.0), Rect(0, 0, 10, 10))
            == Some(Point(5.0, 0.0))
    ensures EdgeHit(Point(5.0, 20.0), Point(5.0, -20.0), Edges(Rect(0, 0, 10, 10))[2])
            == Some(Point(5.0, 10.0))
    ensures var es := Edges(Rect(0, 0, 10, 10));
      ParamT(Point(5.0, 20.0), Point(5.0, -20.0), es[2].a, es[2].b)
        < ParamT(Point(5.0, 20.0), Point(5.0, -20.0), es[0].a, es[0].b)
  {
    var p1, p2, r := Point(5.0, 20.0), Point(5.0, -20.0), Rect(0, 0, 10, 10);
    var es := Edges(r);
    assert Denom(p1, p2, es[0].a, es[0].b) == 400.0;
    assert ParamT(p1, p2, es[0].a, es[0].b) == 0.5;
    assert ParamU(p1, p2, es[0].a, es[0].b) == 0.5;
    FirstHitIsEarliest(p1, p2, es, 0);
    assert es[2] == Segment(Point(10.0, 10.0), Point(0.0, 10.0));
    BottomEdgeHit();
  }

  /** The vertical segment (5, 20)-(5, -20) meets the bottom edge of the
      rectangle (0, 0, 10, 10) at (5, 10), a quarter of the way along. */
  lemma BottomEdgeHit()
    ensures var p1, p2, e := Point(5.0, 20.0), Point(5.0, -20.0), Segment(Point(10.0, 10.0), Point(0.0, 10.0));
      EdgeHit(p1, p2, e) == Some(Point(5.0, 10.0)) && ParamT(p1, p2, e.a, e.b) == 0.25
  {
    var p1, p2, e := Point(5.0, 20.0), Point(5.0, -20.0), Segment(Point(10.0, 10.0), Point(0.0, 10.0));
    assert Denom(p1, p2, e.a, e.b) == -400.0;
    assert ParamT(p1, p2, e.a, e.b) == 0.25;
    assert ParamU(p1, p2, e.a, e.b) == 0.5;
    assert Lerp(p1, p2, 0.25) == Point(5.0, 10.0);
  }
}
