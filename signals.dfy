/**
 * Traffic lights (script.js, class TrafficLight): a three-colour cycle
 * driven by elapsed time, and a small circle that sensor rays can hit.
 */
module Signals {
  import opened Wrappers
  import opened Geometry

  datatype Color = Green | Yellow | Red

  /** The colours in cycle order, and how long (ms) each one lasts. */
  const States: seq<Color> := [Green, Yellow, Red]
  const Durations: seq<real> := [15000.0, 5000.0, 15000.0]

  /** Radius of the circle a ray must cross to detect a light. */
  const LIGHT_RADIUS: real := 5.0

  /** The colour that follows `c`: green, then yellow, then red, then green again. */
  function Next(c: Color): (n: Color) {
    match c
    case Green => Yellow
    case Yellow => Red
    case Red => Green
  }

  /** The part of a light that update() changes: the state index and the timer. */
  datatype Phase = Phase(index: int, timer: real)

  predicate ValidPhase(p: Phase) {
    0 <= p.index < |States|
  }

  /** The timer never exceeds the duration of the current colour. */
  predicate TimerBounded(p: Phase)
    requires ValidPhase(p)
  {
    0.0 <= p.timer <= Durations[p.index]
  }

  /**
   * TrafficLight.update as a function of the phase: add the elapsed time; once
   * it is strictly over the current duration, restart the timer and move to
   * the next colour. One call moves at most one colour on, however large
   * `dt` is, and the excess time is dropped.
   */
  function Tick(p: Phase, dt: real): (q: Phase)
    requires ValidPhase(p)
    ensures ValidPhase(q)
    ensures q.index == p.index || States[q.index] == Next(States[p.index])
    ensures q.index != p.index <==> p.timer + dt > Durations[p.index]
    ensures q.index != p.index ==> q.timer == 0.0
    ensures q.index == p.index ==> q.timer == p.timer + dt
  {
    var t := p.timer + dt;
    if t > Durations[p.index] then Phase((p.index + 1) % |States|, 0.0)
    else Phase(p.index, t)
  }

  /** With non-negative elapsed times the timer stays within the current duration. */
  lemma TickKeepsTimerBounded(p: Phase, dt: real)
    requires ValidPhase(p) && TimerBounded(p) && dt >= 0.0
    ensures TimerBounded(Tick(p, dt))
  {
  }

  /** The phase after a sequence of updates with the given elapsed times. */
  function Run(p: Phase, dts: seq<real>): (q: Phase)
    requires ValidPhase(p)
    ensures ValidPhase(q)
    decreases |dts|
  {
    if dts == [] then p else Run(Tick(p, dts[0]), dts[1..])
  }

  /** How many of those updates changed the colour. */
  function Transitions(p: Phase, dts: seq<real>): nat
    requires ValidPhase(p)
    decreases |dts|
  {
    if dts == [] then 0
    else
      var q := Tick(p, dts[0]);
      (if q.index != p.index then 1 else 0) + Transitions(q, dts[1..])
  }

  /**
   * Over any run the colour has gone round the cycle once per transition,
   * and there are never more transitions than updates: no catching up.
   */
  lemma {:induction false} RunFollowsCycle(p: Phase, dts: seq<real>)
    requires ValidPhase(p)
    ensures Run(p, dts).index == (p.index + Transitions(p, dts)) % |States|
    ensures Transitions(p, dts) <= |dts|
    decreases |dts|
  {
    if dts != [] {
      var q := Tick(p, dts[0]);
      RunFollowsCycle(q, dts[1..]);
      if q.index != p.index {
        assert q.index == (p.index + 1) % 3;
      }
    }
  }

  class TrafficLight {
    const x: real
    const y: real
    var currentStateIndex: int
    var state: Color
    var timer: real

    /** The colour shown is the one the state index names. */
    ghost predicate Valid()
      reads this
    {
      ValidPhase(PhaseOf()) && state == States[currentStateIndex]
    }

    function PhaseOf(): Phase
      reads this
    {
      Phase(currentStateIndex, timer)
    }

    constructor (x: real, y: real)
      ensures Valid()
      ensures this.x == x && this.y == y
      ensures PhaseOf() == Phase(0, 0.0) && state == Green
    {
      this.x := x;
      this.y := y;
      currentStateIndex := 0;
      state := States[0];
      timer := 0.0;
    }

    /** TrafficLight.update. */
    method Update(deltaTime: real)
      requires Valid()
      modifies this
      ensures Valid()
      ensures PhaseOf() == Tick(old(PhaseOf()), deltaTime)
    {
      timer := timer + deltaTime;
      if timer > Durations[currentStateIndex] {
        timer := 0.0;
        currentStateIndex := (currentStateIndex + 1) % |States|;
        state := States[currentStateIndex];
      }
    }

    /**
     * TrafficLight.getIntersection: the ray against a circle of LIGHT_RADIUS
     * around the light. A hit is a point of the segment; with a true square
     * root it is the first point of the segment on the circle, and no hit on
     * a segment of non-zero length means the segment misses the circle.
     */
    function Intersection(start: Point, end: Point, sqrt: real -> real): (r: Option<Point>)
      ensures start == end ==> r.None?
      ensures r.Some? ==> exists t :: 0.0 <= t <= 1.0 && r.value == At(Segment(start, end), t)
      ensures r.Some? && RootOk(Segment(start, end), Point(x, y), LIGHT_RADIUS, sqrt) ==>
                OnCircle(r.value, Point(x, y), LIGHT_RADIUS) &&
                exists t :: 0.0 <= t <= 1.0 && r.value == At(Segment(start, end), t) &&
                  forall u :: 0.0 <= u < t ==> !OnCircle(At(Segment(start, end), u), Point(x, y), LIGHT_RADIUS)
      ensures r.None? && RootOk(Segment(start, end), Point(x, y), LIGHT_RADIUS, sqrt) && DistSq(start, end) != 0.0 ==>
                forall u :: 0.0 <= u <= 1.0 ==> !OnCircle(At(Segment(start, end), u), Point(x, y), LIGHT_RADIUS)
    {
      var s := Segment(start, end);
      if RootOk(s, Point(x, y), LIGHT_RADIUS, sqrt) then
        RayCircleFirstPoint(s, Point(x, y), LIGHT_RADIUS, sqrt);
        RayCircle(s, Point(x, y), LIGHT_RADIUS, sqrt)
      else
        RayCircle(s, Point(x, y), LIGHT_RADIUS, sqrt)
    }
  }
}
