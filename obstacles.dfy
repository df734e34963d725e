/**
 * Obstacle cars (script.js, class ObstacleCar): rectangles that drift left
 * and respawn ahead of the camera, and the ray test sensors use on them.
 */
module Obstacles {
  import opened Wrappers
  import opened Geometry
  import opened Road

  /**
   * The four sides of a `w` by `h` rectangle centred on `c`, in the order
   * the source tests them: top, right, bottom, left. Each side starts where
   * the previous one ends, so they go once round the rectangle.
   */
  function Edges(c: Point, w: real, h: real): (e: seq<Segment>)
    ensures |e| == 4
    ensures e[0].b == e[1].a && e[1].b == e[2].a && e[2].b == e[3].a && e[3].b == e[0].a
    ensures e[0].a.y == e[0].b.y == c.y - h / 2.0
    ensures e[1].a.x == e[1].b.x == c.x + w / 2.0
    ensures e[2].a.y == e[2].b.y == c.y + h / 2.0
    ensures e[3].a.x == e[3].b.x == c.x - w / 2.0
  {
    var left, right := c.x - w / 2.0, c.x + w / 2.0;
    var top, bottom := c.y - h / 2.0, c.y + h / 2.0;
    [ Segment(Point(left, top), Point(right, top)),
      Segment(Point(right, top), Point(right, bottom)),
      Segment(Point(right, bottom), Point(left, bottom)),
      Segment(Point(left, bottom), Point(left, top)) ]
  }

  /** The position of the first edge the ray meets, or |edges| if it meets none. */
  function FirstHitIndex(ray: Segment, edges: seq<Segment>): (k: nat)
    ensures k <= |edges|
    ensures forall j :: 0 <= j < k ==> Intersect(ray, edges[j]).None?
    ensures k < |edges| ==> Intersect(ray, edges[k]).Some?
    decreases |edges|
  {
    if edges == [] then 0
    else if Intersect(ray, edges[0]).Some? then 0
    else 1 + FirstHitIndex(ray, edges[1..])
  }

  /** The early-return scan: the hit on the first edge, in order, that the ray meets. */
  function FirstHit(ray: Segment, edges: seq<Segment>): (r: Option<Point>)
    ensures r.None? <==> forall j :: 0 <= j < |edges| ==> Intersect(ray, edges[j]).None?
    ensures r.Some? ==> exists k :: 0 <= k < |edges| && r == Intersect(ray, edges[k]) &&
                                   forall j :: 0 <= j < k ==> Intersect(ray, edges[j]).None?
  {
    var k := FirstHitIndex(ray, edges);
    if k < |edges| then Intersect(ray, edges[k]) else None
  }

  /**
   * The ray test of a `w` by `h` rectangle centred on `c`: the hit on the
   * first side, in the order top, right, bottom, left, that the ray meets.
   * There is none exactly when the ray meets no side; a hit lies on the ray.
   */
  function RectHit(c: Point, w: real, h: real, ray: Segment): (r: Option<Point>)
    ensures r.None? <==> forall j :: 0 <= j < 4 ==> Intersect(ray, Edges(c, w, h)[j]).None?
    ensures r.Some? ==> OnLine(ray, r.value) && InBox(ray, r.value)
  {
    FirstHit(ray, Edges(c, w, h))
  }

  /** Lower bound on x below which an obstacle counts as left behind by the camera. */
  function BehindLimit(cameraX: real, width: real): real {
    cameraX - CANVAS_WIDTH / 2.0 - width
  }

  /** The lane a respawning obstacle takes for a random draw `u` in [0, 1). */
  function SpawnLane(u: real): (lane: int)
    requires 0.0 <= u < 1.0
    ensures IsLane(lane)
    ensures lane as real <= u * LANE_COUNT as real < (lane + 1) as real
  {
    (u * LANE_COUNT as real).Floor
  }

  class ObstacleCar {
    var x: real
    var y: real
    const width: real
    const height: real
    var speed: real

    constructor (x: real, y: real, width: real, height: real, speed: real)
      ensures this.x == x && this.y == y && this.speed == speed
      ensures this.width == width && this.height == height
    {
      this.x := x;
      this.y := y;
      this.width := width;
      this.height := height;
      this.speed := speed;
    }

    /**
     * ObstacleCar.getIntersection: the first of the four sides, top, right,
     * bottom, left, that the segment from `start` to `end` meets. This is
     * not necessarily the side nearest to `start` (see FirstHitNotNearest).
     */
    function Intersection(start: Point, end: Point): (r: Option<Point>)
      reads this
      ensures r.None? <==> forall j :: 0 <= j < 4 ==> Intersect(Segment(start, end), Edges(Point(x, y), width, height)[j]).None?
      ensures r.Some? ==> OnLine(Segment(start, end), r.value) && InBox(Segment(start, end), r.value)
    {
      RectHit(Point(x, y), width, height, Segment(start, end))
    }

    /**
     * ObstacleCar.resetPosition with its three random draws `u1`, `u2`, `u3`
     * in [0, 1): somewhere in the three canvas widths beyond the right edge
     * of the view, on the centre of a random lane, at a speed in [2, 4).
     */
    method ResetPosition(cameraX: real, u1: real, u2: real, u3: real)
      requires 0.0 <= u1 < 1.0 && 0.0 <= u2 < 1.0 && 0.0 <= u3 < 1.0
      modifies this
      ensures x == cameraX + CANVAS_WIDTH / 2.0 + width + u1 * CANVAS_WIDTH * 3.0
      ensures y == LaneCenter(SpawnLane(u2))
      ensures speed == 2.0 + u3 * 2.0
      ensures IsLane(LaneIndex(y)) && 2.0 <= speed < 4.0
      ensures cameraX + CANVAS_WIDTH / 2.0 + width <= x < cameraX + CANVAS_WIDTH / 2.0 + width + 3.0 * CANVAS_WIDTH
    {
      x := cameraX + CANVAS_WIDTH / 2.0 + width + u1 * CANVAS_WIDTH * 3.0;
      var lane := SpawnLane(u2);
      y := LaneCenter(lane);
      speed := 2.0 + u3 * 2.0;
    }

    /**
     * ObstacleCar.update: drift left by `speed`; once past the left edge of
     * the view by more than its width, respawn ahead.
     */
    method Update(cameraX: real, u1: real, u2: real, u3: real)
      requires 0.0 <= u1 < 1.0 && 0.0 <= u2 < 1.0 && 0.0 <= u3 < 1.0
      modifies this
      ensures old(x) - old(speed) >= BehindLimit(cameraX, width) ==>
                x == old(x) - old(speed) && y == old(y) && speed == old(speed)
      ensures old(x) - old(speed) < BehindLimit(cameraX, width) ==>
                x == cameraX + CANVAS_WIDTH / 2.0 + width + u1 * CANVAS_WIDTH * 3.0 &&
                y == LaneCenter(SpawnLane(u2)) && speed == 2.0 + u3 * 2.0
      ensures width >= 0.0 ==> x >= BehindLimit(cameraX, width)
    {
      x := x - speed;
      if x < BehindLimit(cameraX, width) {
        ResetPosition(cameraX, u1, u2, u3);
      }
    }
  }

  /**
   * The rectangle test returns the first side in its fixed order, not the
   * nearest: a ray going up through a 40 by 20 obstacle centred on the
   * origin crosses the bottom side at distance 90 but is reported at the
   * top side, 110 away.
   */
  lemma FirstHitNotNearest()
    ensures var ray := Segment(Point(0.0, 100.0), Point(0.0, -100.0));
            var edges := Edges(Point(0.0, 0.0), 40.0, 20.0);
            FirstHit(ray, edges) == Some(Point(0.0, -10.0)) &&
            Intersect(ray, edges[2]) == Some(Point(0.0, 10.0)) &&
            DistSq(ray.a, Point(0.0, 10.0)) < DistSq(ray.a, Point(0.0, -10.0))
  {
    var ray := Segment(Point(0.0, 100.0), Point(0.0, -100.0));
    var edges := Edges(Point(0.0, 0.0), 40.0, 20.0);
    var top := Segment(Point(-20.0, -10.0), Point(20.0, -10.0));
    var bottom := Segment(Point(20.0, 10.0), Point(-20.0, 10.0));
    assert edges[0] == top && edges[2] == bottom;
    assert LineOf(ray) == Line(-200.0, 0.0, 0.0);
    assert LineOf(top) == Line(0.0, -40.0, 400.0);
    assert LineOf(bottom) == Line(0.0, 40.0, 400.0);
    IntersectComplete(ray, top, Point(0.0, -10.0));
    IntersectComplete(ray, bottom, Point(0.0, 10.0));
    assert FirstHitIndex(ray, edges) == 0;
  }
}
