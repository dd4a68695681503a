/**
 * The enemy's field of view in src/scenes/MainScene.js: the sight-cone
 * triangle built from the enemy's pose, and the detection test of the
 * player's body against it. Phaser's point-in-polygon and line-to-circle
 * tests, and the trigonometric functions, come from the engine and are
 * supplied as function values.
 */
module Sight {

  datatype Point = Point(x: real, y: real)
  datatype Segment = Segment(start: Point, end: Point)
  datatype Circle = Circle(center: Point, radius: real)

  /**
   * The engine functions the scene calls: Phaser.Geom.Polygon.ContainsPoint,
   * Phaser.Geom.Intersects.LineToCircle, Math.cos, Math.sin and
   * Phaser.Math.Angle.Between.
   */
  datatype Engine = Engine(
    containsPoint: (seq<Point>, Point) -> bool,
    lineToCircle: (Segment, Circle) -> bool,
    cos: real -> real,
    sin: real -> real,
    angleBetween: (Point, Point) -> real)

  const ConeLength: real := 200.0
  const ConeWidth: real := 60.0

  /** A point given relative to pivot, rotated by the angle with cosine c and sine s. */
  function ToWorld(pivot: Point, local: Point, c: real, s: real): Point {
    Point(pivot.x + (local.x * c - local.y * s), pivot.y + (local.x * s + local.y * c))
  }

  function SquaredDistance(p: Point, q: Point): (d: real)
    ensures d >= 0.0
  {
    (p.x - q.x) * (p.x - q.x) + (p.y - q.y) * (p.y - q.y)
  }

  /**
   * getSightConePolygon: the tip at the enemy's position and the two base
   * corners (-30, -200) and (30, -200), rotated and placed in the world.
   */
  function SightConePolygon(pos: Point, c: real, s: real): (poly: seq<Point>)
    ensures |poly| == 3
    ensures poly[0] == pos
  {
    [ToWorld(pos, Point(0.0, 0.0), c, s),
     ToWorld(pos, Point(-ConeWidth / 2.0, -ConeLength), c, s),
     ToWorld(pos, Point(ConeWidth / 2.0, -ConeLength), c, s)]
  }

  /** The i-th edge of a polygon, from points[i] to points[(i + 1) % n]. */
  function Edge(poly: seq<Point>, i: int): Segment
    requires 0 <= i < |poly|
  {
    Segment(poly[i], poly[(i + 1) % |poly|])
  }

  /** The player is seen when the centre is inside the polygon or some edge meets the body. */
  predicate Detects(eng: Engine, poly: seq<Point>, body: Circle) {
    eng.containsPoint(poly, body.center)
    || exists i :: 0 <= i < |poly| && eng.lineToCircle(Edge(poly, i), body)
  }

  /**
   * The detection test as the scene runs it: the containment test first,
   * then the edges in order, stopping at the first that meets the body.
   */
  method DetectPlayer(eng: Engine, poly: seq<Point>, body: Circle) returns (detected: bool)
    ensures detected <==> Detects(eng, poly, body)
  {
    if eng.containsPoint(poly, body.center) {
      return true;
    }
    detected := false;
    var i := 0;
    while i < |poly|
      invariant 0 <= i <= |poly|
      invariant forall j :: 0 <= j < i ==> !eng.lineToCircle(Edge(poly, j), body)
    {
      if eng.lineToCircle(Edge(poly, i), body) {
        detected := true;
        break;
      }
      i := i + 1;
    }
  }

  /**
   * For a true rotation (c^2 + s^2 = 1) the cone is an isosceles triangle:
   * both sides are sqrt(30^2 + 200^2) long and the base is 60 wide.
   */
  lemma ConeIsIsosceles(pos: Point, c: real, s: real)
    requires c * c + s * s == 1.0
    ensures var poly := SightConePolygon(pos, c, s);
            && SquaredDistance(poly[0], poly[1]) == 30.0 * 30.0 + 200.0 * 200.0
            && SquaredDistance(poly[0], poly[2]) == 30.0 * 30.0 + 200.0 * 200.0
            && SquaredDistance(poly[1], poly[2]) == 60.0 * 60.0
  {
    // Each squared length is a multiple of c * c + s * s, which is 1.
    var poly := SightConePolygon(pos, c, s);
    var dx, dy := 30.0 * c - 200.0 * s, 30.0 * s + 200.0 * c;
    SquaredDistanceOf(poly[0], poly[1], dx, dy);
    assert dx * dx + dy * dy == (30.0 * 30.0 + 200.0 * 200.0) * (c * c + s * s);
    dx, dy := -30.0 * c - 200.0 * s, -30.0 * s + 200.0 * c;
    SquaredDistanceOf(poly[0], poly[2], dx, dy);
    assert dx * dx + dy * dy == (30.0 * 30.0 + 200.0 * 200.0) * (c * c + s * s);
    dx, dy := -60.0 * c, -60.0 * s;
    SquaredDistanceOf(poly[1], poly[2], dx, dy);
    assert dx * dx + dy * dy == (60.0 * 60.0) * (c * c + s * s);
  }

  /** The squared distance written with the coordinate differences named. */
  lemma SquaredDistanceOf(p: Point, q: Point, dx: real, dy: real)
    requires p.x - q.x == dx && p.y - q.y == dy
    ensures SquaredDistance(p, q) == dx * dx + dy * dy
  {
  }

  /**
   * The point half a cone length straight ahead of the enemy is the weighted
   * average of the corners (1/2 tip, 1/4 each base corner), so it lies
   * inside the cone whatever the rotation.
   */
  lemma AxisPointInsideCone(pos: Point, c: real, s: real)
    ensures var poly := SightConePolygon(pos, c, s);
            var ahead := ToWorld(pos, Point(0.0, -ConeLength / 2.0), c, s);
            && ahead.x == poly[0].x / 2.0 + poly[1].x / 4.0 + poly[2].x / 4.0
            && ahead.y == poly[0].y / 2.0 + poly[1].y / 4.0 + poly[2].y / 4.0
  {
  }

  /** Facing up (rotation 0) the base corners are 30 either side, 200 above the enemy. */
  lemma FacingUpCone(pos: Point)
    ensures SightConePolygon(pos, 1.0, 0.0)
            == [pos, Point(pos.x - 30.0, pos.y - 200.0), Point(pos.x + 30.0, pos.y - 200.0)]
  {
  }
}
