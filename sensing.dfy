/**
 * The player's sensors (script.js, class Sensors): a fan of rays cast from
 * the car, each reporting the nearest traffic light or obstacle it meets.
 */
module Sensing {
  import opened Wrappers
  import opened Geometry
  import opened Signals
  import opened Obstacles

  const RAY_COUNT: int := 36
  const RAY_LENGTH: real := 500.0
  /** Total opening of the fan, in degrees, centred on the car's heading. */
  const RAY_SPREAD: real := 180.0

  /** What a ray met: a traffic light (with the colour it showed) or an obstacle car. */
  datatype Source = TrafficHit(state: Color) | ObstacleHit

  /** An entry of `detected`: where a ray stopped and what stopped it. */
  datatype Detection = Detection(at: Point, source: Source)

  /** An entry of `rays`: where the ray ends, and what it hit if anything. */
  datatype Ray = Ray(end: Point, source: Option<Source>)

  /** Heading, in degrees, of ray `i` of the fan around the car heading `angle`. */
  function RayAngle(angle: real, i: int): (a: real)
    ensures i == 0 ==> a == angle - RAY_SPREAD / 2.0
    ensures i == RAY_COUNT - 1 ==> a == angle + RAY_SPREAD / 2.0
    ensures 0 <= i < RAY_COUNT ==> angle - RAY_SPREAD / 2.0 <= a <= angle + RAY_SPREAD / 2.0
  {
    angle - RAY_SPREAD / 2.0 + RAY_SPREAD / (RAY_COUNT - 1) as real * i as real
  }

  /**
   * The far end of a ray of RAY_LENGTH from `origin` heading `deg` degrees;
   * `cosDeg` and `sinDeg` stand for the cosine and sine of an angle given in
   * degrees.
   */
  function RayEnd(origin: Point, deg: real, cosDeg: real -> real, sinDeg: real -> real): (e: Point)
    ensures cosDeg(deg) * cosDeg(deg) + sinDeg(deg) * sinDeg(deg) == 1.0 ==>
              DistSq(origin, e) == RAY_LENGTH * RAY_LENGTH
  {
    var c, s := cosDeg(deg), sinDeg(deg);
    var e := Point(origin.x + RAY_LENGTH * c, origin.y + RAY_LENGTH * s);
    ScaledLength(origin, e, c, s);
    e
  }

  lemma ScaledLength(origin: Point, e: Point, c: real, s: real)
    requires e == Point(origin.x + RAY_LENGTH * c, origin.y + RAY_LENGTH * s)
    ensures DistSq(origin, e) == RAY_LENGTH * RAY_LENGTH * (c * c + s * s)
  {
    var dx, dy := e.x - origin.x, e.y - origin.y;
    assert dx == RAY_LENGTH * c && dy == RAY_LENGTH * s;
    calc {
      DistSq(origin, e);
      dx * dx + dy * dy;
      (RAY_LENGTH * c) * (RAY_LENGTH * c) + (RAY_LENGTH * s) * (RAY_LENGTH * s);
      RAY_LENGTH * RAY_LENGTH * (c * c + s * s);
    }
  }

  /** What a ray sees of a traffic light: where it stands and the colour it shows. */
  datatype LightView = LightView(at: Point, state: Color)

  /** What a ray sees of an obstacle: its centre and its size. */
  datatype ObstacleView = ObstacleView(at: Point, width: real, height: real)

  function LightViews(lights: seq<TrafficLight>): (vs: seq<LightView>)
    reads lights
    ensures |vs| == |lights|
    decreases |lights|
  {
    if lights == [] then [] else LightViews(lights[..|lights| - 1]) + [ViewOfLight(lights[|lights| - 1])]
  }

  function ViewOfLight(tl: TrafficLight): LightView
    reads tl
  {
    LightView(Point(tl.x, tl.y), tl.state)
  }

  function ObstacleViews(obstacles: seq<ObstacleCar>): (vs: seq<ObstacleView>)
    reads obstacles
    ensures |vs| == |obstacles|
    decreases |obstacles|
  {
    if obstacles == [] then [] else ObstacleViews(obstacles[..|obstacles| - 1]) + [ViewOfObstacle(obstacles[|obstacles| - 1])]
  }

  function ViewOfObstacle(ob: ObstacleCar): ObstacleView
    reads ob
  {
    ObstacleView(Point(ob.x, ob.y), ob.width, ob.height)
  }

  lemma {:induction false} LightViewsAt(lights: seq<TrafficLight>, i: int)
    requires 0 <= i < |lights|
    ensures LightViews(lights)[i] == ViewOfLight(lights[i])
    decreases |lights|
  {
    if i < |lights| - 1 {
      LightViewsAt(lights[..|lights| - 1], i);
    }
  }

  lemma {:induction false} ObstacleViewsAt(obstacles: seq<ObstacleCar>, i: int)
    requires 0 <= i < |obstacles|
    ensures ObstacleViews(obstacles)[i] == ViewOfObstacle(obstacles[i])
    decreases |obstacles|
  {
    if i < |obstacles| - 1 {
      ObstacleViewsAt(obstacles[..|obstacles| - 1], i);
    }
  }

  /** What the ray from `origin` to `end` reports about one traffic light. */
  function LightHit(origin: Point, end: Point, v: LightView, sqrt: real -> real): Option<Detection> {
    match RayCircle(Segment(origin, end), v.at, LIGHT_RADIUS, sqrt)
    case None => None
    case Some(p) => Some(Detection(p, TrafficHit(v.state)))
  }

  /** What the ray from `origin` to `end` reports about one obstacle. */
  function ObstacleHitOf(origin: Point, end: Point, v: ObstacleView): Option<Detection> {
    match RectHit(v.at, v.width, v.height, Segment(origin, end))
    case None => None
    case Some(p) => Some(Detection(p, ObstacleHit))
  }

  /** Every traffic light's report, in list order. */
  function LightHits(origin: Point, end: Point, lights: seq<LightView>, sqrt: real -> real): (hs: seq<Option<Detection>>)
    ensures |hs| == |lights|
    decreases |lights|
  {
    if lights == [] then []
    else LightHits(origin, end, lights[..|lights| - 1], sqrt) + [LightHit(origin, end, lights[|lights| - 1], sqrt)]
  }

  /** Every obstacle's report, in list order. */
  function ObstacleHits(origin: Point, end: Point, obstacles: seq<ObstacleView>): (hs: seq<Option<Detection>>)
    ensures |hs| == |obstacles|
    decreases |obstacles|
  {
    if obstacles == [] then []
    else ObstacleHits(origin, end, obstacles[..|obstacles| - 1]) + [ObstacleHitOf(origin, end, obstacles[|obstacles| - 1])]
  }

  lemma {:induction false} LightHitsAt(origin: Point, end: Point, lights: seq<LightView>, sqrt: real -> real, i: int)
    requires 0 <= i < |lights|
    ensures LightHits(origin, end, lights, sqrt)[i] == LightHit(origin, end, lights[i], sqrt)
    decreases |lights|
  {
    if i < |lights| - 1 {
      LightHitsAt(origin, end, lights[..|lights| - 1], sqrt, i);
    }
  }

  lemma {:induction false} ObstacleHitsAt(origin: Point, end: Point, obstacles: seq<ObstacleView>, i: int)
    requires 0 <= i < |obstacles|
    ensures ObstacleHits(origin, end, obstacles)[i] == ObstacleHitOf(origin, end, obstacles[i])
    decreases |obstacles|
  {
    if i < |obstacles| - 1 {
      ObstacleHitsAt(origin, end, obstacles[..|obstacles| - 1], i);
    }
  }

  /** The candidates castRay compares: the traffic lights first, then the obstacles. */
  function Candidates(origin: Point, end: Point, lights: seq<LightView>, obstacles: seq<ObstacleView>,
                      sqrt: real -> real): seq<Option<Detection>>
  {
    LightHits(origin, end, lights, sqrt) + ObstacleHits(origin, end, obstacles)
  }

  function Dist(origin: Point, d: Detection): real {
    DistSq(origin, d.at)
  }

  /**
   * The position of the candidate a left-to-right scan keeps when it replaces
   * its choice only on a strictly smaller distance, or |cands| if no
   * candidate is a hit. The chosen hit is at least as near as every hit, and
   * strictly nearer than every earlier hit: ties go to the earliest.
   */
  function ClosestIndex(origin: Point, cands: seq<Option<Detection>>): (k: nat)
    ensures k <= |cands|
    ensures k == |cands| <==> forall j :: 0 <= j < |cands| ==> cands[j].None?
    ensures k < |cands| ==> cands[k].Some?
    ensures k < |cands| ==> forall j :: 0 <= j < |cands| && cands[j].Some? ==>
                                 Dist(origin, cands[k].value) <= Dist(origin, cands[j].value)
    ensures k < |cands| ==> forall j :: 0 <= j < k && cands[j].Some? ==>
                                 Dist(origin, cands[k].value) < Dist(origin, cands[j].value)
    decreases |cands|
  {
    if cands == [] then 0
    else
      var init, c := cands[..|cands| - 1], cands[|cands| - 1];
      var k := ClosestIndex(origin, init);
      if c.None? then (if k == |init| then |cands| else k)
      else if k == |init| || Dist(origin, c.value) < Dist(origin, init[k].value) then |init|
      else k
  }

  /** No candidate is a hit. */
  predicate AllMiss(cands: seq<Option<Detection>>) {
    forall j :: 0 <= j < |cands| ==> cands[j].None?
  }

  lemma AllMissConcat(a: seq<Option<Detection>>, b: seq<Option<Detection>>)
    ensures AllMiss(a + b) <==> AllMiss(a) && AllMiss(b)
  {
    if AllMiss(a) && AllMiss(b) {
      forall j | 0 <= j < |a + b| ensures (a + b)[j].None? {
        if j >= |a| {
          assert (a + b)[j] == b[j - |a|];
        }
      }
    }
    if AllMiss(a + b) {
      forall j | 0 <= j < |a| ensures a[j].None? {
        assert (a + b)[j] == a[j];
      }
      forall j | 0 <= j < |b| ensures b[j].None? {
        assert (a + b)[|a| + j] == b[j];
      }
    }
  }

  /** The scan's step: a hit replaces the kept candidate only if strictly nearer. */
  function Keep(origin: Point, kept: Option<Detection>, c: Option<Detection>): Option<Detection> {
    if c.Some? && (kept.None? || Dist(origin, c.value) < Dist(origin, kept.value)) then c else kept
  }

  /** What a left-to-right scan over `cands` keeps, starting from `kept`. */
  function ScanFrom(origin: Point, kept: Option<Detection>, cands: seq<Option<Detection>>): Option<Detection>
    decreases |cands|
  {
    if cands == [] then kept
    else Keep(origin, ScanFrom(origin, kept, cands[..|cands| - 1]), cands[|cands| - 1])
  }

  /** The candidate a scan from nothing keeps, if any. */
  function Closest(origin: Point, cands: seq<Option<Detection>>): Option<Detection> {
    ScanFrom(origin, None, cands)
  }

  /** The scan keeps exactly the candidate ClosestIndex names. */
  lemma {:induction false} ClosestAtIndex(origin: Point, cands: seq<Option<Detection>>)
    ensures Closest(origin, cands) ==
            if ClosestIndex(origin, cands) < |cands| then cands[ClosestIndex(origin, cands)] else None
    decreases |cands|
  {
    if cands != [] {
      ClosestAtIndex(origin, cands[..|cands| - 1]);
    }
  }

  /** One more step of the scan. */
  lemma ScanSnoc(origin: Point, kept: Option<Detection>, cands: seq<Option<Detection>>, c: Option<Detection>)
    ensures ScanFrom(origin, kept, cands + [c]) == Keep(origin, ScanFrom(origin, kept, cands), c)
  {
    assert (cands + [c])[..|cands|] == cands;
  }

  /** Scanning two lists one after the other is scanning their concatenation. */
  lemma {:induction false} ScanConcat(origin: Point, kept: Option<Detection>, a: seq<Option<Detection>>,
                                      b: seq<Option<Detection>>)
    ensures ScanFrom(origin, kept, a + b) == ScanFrom(origin, ScanFrom(origin, kept, a), b)
    decreases |b|
  {
    if b == [] {
      assert a + b == a;
    } else {
      var init := b[..|b| - 1];
      ScanConcat(origin, kept, a, init);
      assert (a + b)[..|a + b| - 1] == a + init;
    }
  }

  /**
   * Sensors.castRay as a function: the kept hit, or the ray's far end with
   * no type. The kept hit is the candidate ClosestIndex names: no candidate
   * is nearer, and every earlier one is farther.
   */
  function Cast(origin: Point, deg: real, lights: seq<LightView>, obstacles: seq<ObstacleView>,
                sqrt: real -> real, cosDeg: real -> real, sinDeg: real -> real): (r: Ray)
    ensures var end := RayEnd(origin, deg, cosDeg, sinDeg);
            var cands := Candidates(origin, end, lights, obstacles, sqrt);
            var k := ClosestIndex(origin, cands);
            (k == |cands| ==> r == Ray(end, None)) &&
            (k < |cands| ==> r == Ray(cands[k].value.at, Some(cands[k].value.source)))
  {
    var end := RayEnd(origin, deg, cosDeg, sinDeg);
    ClosestAtIndex(origin, Candidates(origin, end, lights, obstacles, sqrt));
    RayOf(end, Closest(origin, Candidates(origin, end, lights, obstacles, sqrt)))
  }

  /** The entry of `rays` for a kept hit, or for no hit on a ray ending at `end`. */
  function RayOf(end: Point, hit: Option<Detection>): Ray {
    match hit
    case None => Ray(end, None)
    case Some(d) => Ray(d.at, Some(d.source))
  }

  /** A ray reports nothing exactly when no traffic light and no obstacle is hit. */
  lemma CastMissIffNoHit(origin: Point, deg: real, lights: seq<LightView>, obstacles: seq<ObstacleView>,
                         sqrt: real -> real, cosDeg: real -> real, sinDeg: real -> real)
    ensures Cast(origin, deg, lights, obstacles, sqrt, cosDeg, sinDeg).source.None? <==>
            AllMiss(LightHits(origin, RayEnd(origin, deg, cosDeg, sinDeg), lights, sqrt)) &&
            AllMiss(ObstacleHits(origin, RayEnd(origin, deg, cosDeg, sinDeg), obstacles))
    ensures Cast(origin, deg, lights, obstacles, sqrt, cosDeg, sinDeg).source.None? ==>
            Cast(origin, deg, lights, obstacles, sqrt, cosDeg, sinDeg).end == RayEnd(origin, deg, cosDeg, sinDeg)
  {
    var end := RayEnd(origin, deg, cosDeg, sinDeg);
    var ls, os := LightHits(origin, end, lights, sqrt), ObstacleHits(origin, end, obstacles);
    ClosestAtIndex(origin, ls + os);
    AllMissConcat(ls, os);
  }

  /** The two scans of castRay, one after the other, give what Cast describes. */
  lemma CastFromScans(origin: Point, deg: real, lights: seq<LightView>, obstacles: seq<ObstacleView>,
                      sqrt: real -> real, cosDeg: real -> real, sinDeg: real -> real, kept: Option<Detection>)
    requires kept == ScanFrom(origin, Closest(origin, LightHits(origin, RayEnd(origin, deg, cosDeg, sinDeg), lights, sqrt)),
                              ObstacleHits(origin, RayEnd(origin, deg, cosDeg, sinDeg), obstacles))
    ensures Cast(origin, deg, lights, obstacles, sqrt, cosDeg, sinDeg) ==
            RayOf(RayEnd(origin, deg, cosDeg, sinDeg), kept)
  {
    var end := RayEnd(origin, deg, cosDeg, sinDeg);
    ScanConcat(origin, None, LightHits(origin, end, lights, sqrt), ObstacleHits(origin, end, obstacles));
  }

  /**
   * castRay keeps a nearest hit: when any traffic light or obstacle is hit,
   * the ray reports a hit, and no candidate hit is strictly nearer to the
   * car than the reported point.
   */
  lemma CastIsNearest(origin: Point, deg: real, lights: seq<LightView>, obstacles: seq<ObstacleView>,
                      sqrt: real -> real, cosDeg: real -> real, sinDeg: real -> real, j: int)
    requires 0 <= j < |Candidates(origin, RayEnd(origin, deg, cosDeg, sinDeg), lights, obstacles, sqrt)|
    requires Candidates(origin, RayEnd(origin, deg, cosDeg, sinDeg), lights, obstacles, sqrt)[j].Some?
    ensures Cast(origin, deg, lights, obstacles, sqrt, cosDeg, sinDeg).source.Some?
    ensures DistSq(origin, Cast(origin, deg, lights, obstacles, sqrt, cosDeg, sinDeg).end) <=
            DistSq(origin, Candidates(origin, RayEnd(origin, deg, cosDeg, sinDeg), lights, obstacles, sqrt)[j].value.at)
  {
    var cs := Candidates(origin, RayEnd(origin, deg, cosDeg, sinDeg), lights, obstacles, sqrt);
    ClosestAtIndex(origin, cs);
    var k := ClosestIndex(origin, cs);
    assert k < |cs| && Dist(origin, cs[k].value) <= Dist(origin, cs[j].value);
  }

  /**
   * On a tie between a traffic light and an obstacle the light wins: a ray
   * that reports an obstacle is strictly nearer to it than to any light hit.
   * Only traffic hits carry a colour, by the shape of Source.
   */
  lemma ObstacleOnlyWhenStrictlyNearer(origin: Point, deg: real, lights: seq<LightView>,
                                       obstacles: seq<ObstacleView>, sqrt: real -> real,
                                       cosDeg: real -> real, sinDeg: real -> real, i: int)
    requires 0 <= i < |lights|
    requires Cast(origin, deg, lights, obstacles, sqrt, cosDeg, sinDeg).source == Some(ObstacleHit)
    requires LightHit(origin, RayEnd(origin, deg, cosDeg, sinDeg), lights[i], sqrt).Some?
    ensures DistSq(origin, Cast(origin, deg, lights, obstacles, sqrt, cosDeg, sinDeg).end) <
            DistSq(origin, LightHit(origin, RayEnd(origin, deg, cosDeg, sinDeg), lights[i], sqrt).value.at)
  {
    var end := RayEnd(origin, deg, cosDeg, sinDeg);
    var ls := LightHits(origin, end, lights, sqrt);
    var cs := ls + ObstacleHits(origin, end, obstacles);
    ClosestAtIndex(origin, cs);
    var k := ClosestIndex(origin, cs);
    assert k >= |ls| by {
      if k < |ls| {
        LightHitsAt(origin, end, lights, sqrt, k);
      }
    }
    LightHitsAt(origin, end, lights, sqrt, i);
    assert cs[i] == ls[i];
  }

  /** The rays `cast` gives at the first `n` headings of the fan around `angle`, in order. */
  function Sweep(cast: real -> Ray, angle: real, n: nat): (rs: seq<Ray>)
    ensures |rs| == n
  {
    if n == 0 then [] else Sweep(cast, angle, n - 1) + [cast(RayAngle(angle, n - 1))]
  }

  /** Entry `k` of a sweep is the ray cast at the k-th heading. */
  lemma {:induction false} SweepAt(cast: real -> Ray, angle: real, n: nat, k: int)
    requires 0 <= k < n
    ensures Sweep(cast, angle, n)[k] == cast(RayAngle(angle, k))
  {
    if k < n - 1 {
      SweepAt(cast, angle, n - 1, k);
    }
  }

  /** castRay from `origin` against fixed lights and obstacles, as a function of the heading. */
  function Caster(origin: Point, lights: seq<LightView>, obstacles: seq<ObstacleView>,
                  sqrt: real -> real, cosDeg: real -> real, sinDeg: real -> real): real -> Ray
  {
    deg => Cast(origin, deg, lights, obstacles, sqrt, cosDeg, sinDeg)
  }

  /** The first `n` rays of the fan cast from `origin` around the heading `angle`. */
  function Fan(origin: Point, angle: real, lights: seq<LightView>, obstacles: seq<ObstacleView>,
               sqrt: real -> real, cosDeg: real -> real, sinDeg: real -> real, n: nat): (rs: seq<Ray>)
    ensures |rs| == n
  {
    Sweep(Caster(origin, lights, obstacles, sqrt, cosDeg, sinDeg), angle, n)
  }

  /** Ray `k` of the fan is the ray castRay casts at the k-th heading. */
  lemma FanAt(origin: Point, angle: real, lights: seq<LightView>, obstacles: seq<ObstacleView>,
              sqrt: real -> real, cosDeg: real -> real, sinDeg: real -> real, n: nat, k: int)
    requires 0 <= k < n
    ensures Fan(origin, angle, lights, obstacles, sqrt, cosDeg, sinDeg, n)[k] ==
            Cast(origin, RayAngle(angle, k), lights, obstacles, sqrt, cosDeg, sinDeg)
  {
    SweepAt(Caster(origin, lights, obstacles, sqrt, cosDeg, sinDeg), angle, n, k);
  }

  /** The fan grows by one ray, the one cast at the next heading. */
  lemma FanSnoc(origin: Point, angle: real, lights: seq<LightView>, obstacles: seq<ObstacleView>,
                sqrt: real -> real, cosDeg: real -> real, sinDeg: real -> real, n: nat)
    ensures Fan(origin, angle, lights, obstacles, sqrt, cosDeg, sinDeg, n + 1) ==
            Fan(origin, angle, lights, obstacles, sqrt, cosDeg, sinDeg, n) +
            [Cast(origin, RayAngle(angle, n), lights, obstacles, sqrt, cosDeg, sinDeg)]
  {
  }

  /** The detections a list of rays carries: one per ray that hit, in ray order. */
  function DetectedOf(rays: seq<Ray>): (ds: seq<Detection>)
    ensures |ds| <= |rays|
    decreases |rays|
  {
    if rays == [] then []
    else
      var r := rays[|rays| - 1];
      DetectedOf(rays[..|rays| - 1]) + (if r.source.Some? then [Detection(r.end, r.source.value)] else [])
  }

  /** A prefix one longer is the shorter prefix and one more element. */
  lemma TakeSnoc<T>(s: seq<T>, i: int)
    requires 0 <= i < |s|
    ensures s[..i + 1] == s[..i] + [s[i]]
  {
  }

  /** The first loop of castRay: over the traffic lights, starting with nothing kept. */
  method ScanLights(origin: Point, end: Point, lights: seq<TrafficLight>, sqrt: real -> real)
    returns (closest: Option<Detection>)
    ensures closest == Closest(origin, LightHits(origin, end, LightViews(lights), sqrt))
  {
    ghost var ls := LightHits(origin, end, LightViews(lights), sqrt);
    closest := None;
    var i := 0;
    while i < |lights|
      invariant 0 <= i <= |lights|
      invariant closest == ScanFrom(origin, None, ls[..i])
    {
      var tl := lights[i];
      var hit := tl.Intersection(origin, end, sqrt);
      LightScanStep(origin, end, lights, sqrt, i);
      if hit.Some? {
        var d := Detection(hit.value, TrafficHit(tl.state));
        if closest.None? || Dist(origin, d) < Dist(origin, closest.value) {
          closest := Some(d);
        }
      }
      i := i + 1;
    }
    assert ls[..i] == ls;
  }

  /** One step of the traffic-light loop, as ScanFrom sees it. */
  lemma LightScanStep(origin: Point, end: Point, lights: seq<TrafficLight>, sqrt: real -> real, i: int)
    requires 0 <= i < |lights|
    ensures Closest(origin, LightHits(origin, end, LightViews(lights), sqrt)[..i + 1]) ==
            Keep(origin, Closest(origin, LightHits(origin, end, LightViews(lights), sqrt)[..i]),
                 LightHit(origin, end, ViewOfLight(lights[i]), sqrt))
  {
    var ls := LightHits(origin, end, LightViews(lights), sqrt);
    LightViewsAt(lights, i);
    LightHitsAt(origin, end, LightViews(lights), sqrt, i);
    ScanSnoc(origin, None, ls[..i], ls[i]);
    TakeSnoc(ls, i);
  }

  /** The second loop of castRay: over the obstacles, starting from what the first kept. */
  method ScanObstacles(origin: Point, end: Point, kept: Option<Detection>, obstacles: seq<ObstacleCar>)
    returns (closest: Option<Detection>)
    ensures closest == ScanFrom(origin, kept, ObstacleHits(origin, end, ObstacleViews(obstacles)))
  {
    ghost var os := ObstacleHits(origin, end, ObstacleViews(obstacles));
    closest := kept;
    var j := 0;
    assert os[..0] == [];
    while j < |obstacles|
      invariant 0 <= j <= |obstacles|
      invariant closest == ScanFrom(origin, kept, os[..j])
    {
      var ob := obstacles[j];
      var hit := ob.Intersection(origin, end);
      ObstacleScanStep(origin, end, kept, obstacles, j, hit, closest);
      if hit.Some? {
        var d := Detection(hit.value, ObstacleHit);
        if closest.None? || Dist(origin, d) < Dist(origin, closest.value) {
          closest := Some(d);
        }
      }
      j := j + 1;
    }
    assert os[..j] == os;
  }

  /** One step of the obstacle loop, as ScanFrom sees it. */
  lemma ObstacleScanStep(origin: Point, end: Point, kept: Option<Detection>, obstacles: seq<ObstacleCar>, j: int,
                         hit: Option<Point>, closest: Option<Detection>)
    requires 0 <= j < |obstacles|
    requires hit == obstacles[j].Intersection(origin, end)
    requires closest == ScanFrom(origin, kept, ObstacleHits(origin, end, ObstacleViews(obstacles))[..j])
    ensures ScanFrom(origin, kept, ObstacleHits(origin, end, ObstacleViews(obstacles))[..j + 1]) ==
            if hit.Some? && (closest.None? || Dist(origin, Detection(hit.value, ObstacleHit)) < Dist(origin, closest.value))
            then Some(Detection(hit.value, ObstacleHit)) else closest
  {
    var os := ObstacleHits(origin, end, ObstacleViews(obstacles));
    ObstacleViewsAt(obstacles, j);
    ObstacleHitsAt(origin, end, ObstacleViews(obstacles), j);
    ScanSnoc(origin, kept, os[..j], os[j]);
    TakeSnoc(os, j);
  }

  /** Appending a ray appends its detection, if it has one. */
  lemma DetectedSnoc(rays: seq<Ray>, r: Ray)
    ensures DetectedOf(rays + [r]) ==
            DetectedOf(rays) + (if r.source.Some? then [Detection(r.end, r.source.value)] else [])
  {
    assert (rays + [r])[..|rays|] == rays;
  }

  class Sensors {
    var rays: seq<Ray>
    var detected: seq<Detection>

    constructor ()
      ensures rays == [] && detected == []
    {
      rays := [];
      detected := [];
    }

    /**
     * Sensors.castRay: scan the lights, then the obstacles, keeping the hit
     * with strictly the smallest distance; record a kept hit in `detected`.
     */
    method CastRay(origin: Point, deg: real, lights: seq<TrafficLight>, obstacles: seq<ObstacleCar>,
                   sqrt: real -> real, cosDeg: real -> real, sinDeg: real -> real) returns (ray: Ray)
      modifies this
      ensures ray == Cast(origin, deg, old(LightViews(lights)), old(ObstacleViews(obstacles)), sqrt, cosDeg, sinDeg)
      ensures rays == old(rays)
      ensures ray.source.None? ==> detected == old(detected)
      ensures ray.source.Some? ==> detected == old(detected) + [Detection(ray.end, ray.source.value)]
    {
      var end := RayEnd(origin, deg, cosDeg, sinDeg);
      var closest := ScanLights(origin, end, lights, sqrt);
      closest := ScanObstacles(origin, end, closest, obstacles);
      CastFromScans(origin, deg, LightViews(lights), ObstacleViews(obstacles), sqrt, cosDeg, sinDeg, closest);
      if closest.Some? {
        detected := detected + [closest.value];
        ray := Ray(closest.value.at, Some(closest.value.source));
      } else {
        ray := Ray(end, None);
      }
    }

    /**
     * Sensors.update: rebuild `rays` and `detected` from scratch, one ray
     * per position in the fan, for a car at `origin` heading `angle`.
     */
    method Update(origin: Point, angle: real, lights: seq<TrafficLight>, obstacles: seq<ObstacleCar>,
                  sqrt: real -> real, cosDeg: real -> real, sinDeg: real -> real)
      modifies this
      ensures rays == Fan(origin, angle, LightViews(lights), ObstacleViews(obstacles), sqrt, cosDeg, sinDeg, RAY_COUNT)
      ensures detected == DetectedOf(rays)
    {
      ghost var lv, ov := LightViews(lights), ObstacleViews(obstacles);
      rays := [];
      detected := [];
      var i := 0;
      while i < RAY_COUNT
        invariant 0 <= i <= RAY_COUNT
        invariant LightViews(lights) == lv
        invariant ObstacleViews(obstacles) == ov
        invariant rays == Fan(origin, angle, lv, ov, sqrt, cosDeg, sinDeg, i)
        invariant detected == DetectedOf(rays)
      {
        var ray := CastRay(origin, RayAngle(angle, i), lights, obstacles, sqrt, cosDeg, sinDeg);
        FanSnoc(origin, angle, lv, ov, sqrt, cosDeg, sinDeg, i);
        DetectedSnoc(rays, ray);
        rays := rays + [ray];
        i := i + 1;
      }
    }
  }

  /** At most one detection per ray, and exactly those of the rays that hit. */
  lemma {:induction false} DetectedMatchesHits(rays: seq<Ray>)
    ensures |DetectedOf(rays)| == |set i | 0 <= i < |rays| && rays[i].source.Some?|
    decreases |rays|
  {
    if rays != [] {
      var init := rays[..|rays| - 1];
      DetectedMatchesHits(init);
      var n := |rays| - 1;
      var a := set i | 0 <= i < |init| && init[i].source.Some?;
      var b := set i | 0 <= i < |rays| && rays[i].source.Some?;
      if rays[n].source.Some? {
        assert b == a + {n};
      } else {
        assert b == a;
      }
    }
  }
}
