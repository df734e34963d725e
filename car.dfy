/**
 * The player's driving controller (script.js, class Car): read the sensor
 * detections, choose between stopping, changing lane and cruising, step
 * towards the target lane, then move along the road.
 */
module Driving {
  import opened Wrappers
  import opened Geometry
  import opened Road
  import opened Signals
  import opened Obstacles
  import opened Sensing

  const ACCELERATION: real := 0.2
  /** Extra distance, beyond the stopping distance, at which a red light makes the car brake. */
  const STOP_MARGIN: real := 20.0
  /** An obstacle nearer than this along the road (either way) makes isLaneFree say no. */
  const OBSTACLE_GAP: real := 150.0
  /** A red light nearer than this along the road (either way) makes isLaneFree say no. */
  const RED_LIGHT_GAP: real := 500.0
  /** Share of the remaining gap to the target lane centre covered per step. */
  const STEER_RATE: real := 0.05
  /** Within this distance of the target lane centre the car snaps onto it. */
  const SNAP_DISTANCE: real := 1.0

  datatype Mode = Driving | Stopped

  function Abs(r: real): (a: real)
    ensures 0.0 <= a && (a == r || a == -r)
  {
    if r < 0.0 then -r else r
  }

  /** The fields decideMovement and move read and write. */
  datatype CarState = CarState(x: real, y: real, speed: real, maxSpeed: real,
                               currentLane: int, targetLane: int, mode: Mode)

  /**
   * What a tick keeps true of the player: speed within [0, maxSpeed], both
   * lanes on the road and at most one apart, and y between the outer lane
   * centres and within a lane's height of the current lane's centre.
   */
  predicate Ok(c: CarState) {
    0.0 <= c.maxSpeed && 0.0 <= c.speed <= c.maxSpeed &&
    IsLane(c.currentLane) && IsLane(c.targetLane) &&
    -1 <= c.targetLane - c.currentLane <= 1 &&
    LaneCenter(0) <= c.y <= LaneCenter(LANE_COUNT - 1) &&
    Abs(c.y - LaneCenter(c.currentLane)) <= LANE_HEIGHT
  }

  // ---------------------------------------------------------------------
  // Reading the detections

  /** A detection in the car's own lane (same lane index) and strictly ahead of it. */
  predicate Ahead(x: real, y: real, d: Detection) {
    LaneIndex(y) == LaneIndex(d.at.y) && d.at.x > x
  }

  predicate ObstacleAhead(x: real, y: real, d: Detection) {
    d.source == ObstacleHit && Ahead(x, y, d)
  }

  predicate RedAhead(x: real, y: real, d: Detection) {
    d.source == TrafficHit(Red) && Ahead(x, y, d)
  }

  /**
   * What the scan of `detected` yields: whether an obstacle is ahead, and
   * the point of the red light to stop for (needToStop is `lastRed.Some?`).
   */
  datatype Scan = Scan(obstacleAhead: bool, lastRed: Option<Point>)

  /** The forEach over the detections, in their order. */
  function ScanDetections(x: real, y: real, ds: seq<Detection>): (s: Scan)
    decreases |ds|
  {
    if ds == [] then Scan(false, None)
    else
      var s := ScanDetections(x, y, ds[..|ds| - 1]);
      var d := ds[|ds| - 1];
      Scan(s.obstacleAhead || ObstacleAhead(x, y, d), if RedAhead(x, y, d) then Some(d.at) else s.lastRed)
  }

  /**
   * The scan sees an obstacle exactly when one of the detections is an
   * obstacle ahead; it stops for a red light exactly when one of them is a
   * red light ahead, and then for the LAST such one in the list, which need
   * not be the nearest.
   */
  lemma {:induction false} ScanMeaning(x: real, y: real, ds: seq<Detection>)
    ensures ScanDetections(x, y, ds).obstacleAhead <==> exists k :: 0 <= k < |ds| && ObstacleAhead(x, y, ds[k])
    ensures ScanDetections(x, y, ds).lastRed.None? <==> forall k :: 0 <= k < |ds| ==> !RedAhead(x, y, ds[k])
    ensures ScanDetections(x, y, ds).lastRed.Some? ==>
              exists k :: 0 <= k < |ds| && RedAhead(x, y, ds[k]) &&
                          ScanDetections(x, y, ds).lastRed.value == ds[k].at &&
                          forall j :: k < j < |ds| ==> !RedAhead(x, y, ds[j])
    decreases |ds|
  {
    if ds != [] {
      var init, d := ds[..|ds| - 1], ds[|ds| - 1];
      ScanMeaning(x, y, init);
      var s := ScanDetections(x, y, init);
      if ObstacleAhead(x, y, d) {
        assert ObstacleAhead(x, y, ds[|ds| - 1]);
      }
      if s.obstacleAhead {
        var k :| 0 <= k < |init| && ObstacleAhead(x, y, init[k]);
        assert ds[k] == init[k];
      }
      if !RedAhead(x, y, d) && s.lastRed.Some? {
        var k :| 0 <= k < |init| && RedAhead(x, y, init[k]) && s.lastRed.value == init[k].at &&
                 forall j :: k < j < |init| ==> !RedAhead(x, y, init[j]);
        assert ds[k] == init[k];
        assert forall j :: k < j < |ds| ==> !RedAhead(x, y, ds[j]) by {
          forall j | k < j < |ds|
            ensures !RedAhead(x, y, ds[j])
          {
            if j < |init| {
              assert ds[j] == init[j];
            }
          }
        }
      }
      if !RedAhead(x, y, d) && s.lastRed.None? {
        assert forall k :: 0 <= k < |ds| ==> !RedAhead(x, y, ds[k]) by {
          forall k | 0 <= k < |ds|
            ensures !RedAhead(x, y, ds[k])
          {
            if k < |init| {
              assert ds[k] == init[k];
            }
          }
        }
      }
    }
  }

  /** Two red lights ahead in the lane: the car stops for the later-listed, farther one. */
  lemma LastRedNotNearest()
    ensures var near := Detection(Point(100.0, LaneCenter(1)), TrafficHit(Red));
            var far := Detection(Point(300.0, LaneCenter(1)), TrafficHit(Red));
            ScanDetections(0.0, LaneCenter(1), [near, far]).lastRed == Some(far.at) &&
            DistSq(Point(0.0, LaneCenter(1)), near.at) < DistSq(Point(0.0, LaneCenter(1)), far.at)
  {
    var near := Detection(Point(100.0, LaneCenter(1)), TrafficHit(Red));
    var far := Detection(Point(300.0, LaneCenter(1)), TrafficHit(Red));
    assert [near, far][..1] == [near];
    assert [near][..0] == [];
  }

  // ---------------------------------------------------------------------
  // isLaneFree

  /** An obstacle in the car's own lane closer than OBSTACLE_GAP along the road. */
  predicate ObstacleBlocks(x: real, y: real, v: ObstacleView) {
    LaneIndex(y) == LaneIndex(v.at.y) && Abs(v.at.x - x) < OBSTACLE_GAP
  }

  /** A red light in the car's own lane closer than RED_LIGHT_GAP along the road. */
  predicate LightBlocks(x: real, y: real, v: LightView) {
    LaneIndex(y) == LaneIndex(v.at.y) && v.state == Red && Abs(v.at.x - x) < RED_LIGHT_GAP
  }

  /**
   * isLaneFree's answer. It looks at the car's OWN lane, whatever target
   * lane it is asked about, so the answer is the same for both neighbours.
   */
  predicate LaneFree(x: real, y: real, lights: seq<LightView>, obstacles: seq<ObstacleView>) {
    (forall k :: 0 <= k < |obstacles| ==> !ObstacleBlocks(x, y, obstacles[k])) &&
    (forall k :: 0 <= k < |lights| ==> !LightBlocks(x, y, lights[k]))
  }

  // ---------------------------------------------------------------------
  // decideMovement and move, on values

  /** The stopping distance at `speed` under ACCELERATION, plus the margin. */
  function StopLimit(speed: real): real {
    speed * speed / (2.0 * ACCELERATION) + STOP_MARGIN
  }

  /**
   * The choice decideMovement makes, before its lane-change step: stop for
   * a red light, else dodge an obstacle (left first, then right, else slow
   * down), else cruise. `free` is isLaneFree's answer.
   */
  function Choose(c: CarState, s: Scan, free: bool): (d: CarState)
    ensures d.x == c.x && d.y == c.y && d.currentLane == c.currentLane && d.maxSpeed == c.maxSpeed
    ensures d.mode == Stopped <==> s.lastRed.Some?
    ensures s.lastRed.Some? || (s.obstacleAhead && !free) ==> d.targetLane == c.targetLane
    ensures s.lastRed.None? && s.obstacleAhead && free && c.currentLane > 0 ==> d.targetLane == c.currentLane - 1
    ensures s.lastRed.None? && !s.obstacleAhead ==> d.targetLane == c.currentLane
    ensures s.lastRed.None? && s.obstacleAhead && free && !(c.currentLane > 0) && c.currentLane < LANE_COUNT - 1 ==>
              d.targetLane == c.currentLane + 1
    ensures s.lastRed.None? && s.obstacleAhead && free && (c.currentLane > 0 || c.currentLane < LANE_COUNT - 1) ==>
              d.speed == c.speed
    ensures s.lastRed.None? && s.obstacleAhead && !(free && (c.currentLane > 0 || c.currentLane < LANE_COUNT - 1)) ==>
              d.speed == Max(c.speed - ACCELERATION, 0.0) && d.targetLane == c.targetLane
    ensures s.lastRed.None? && !s.obstacleAhead && c.speed < c.maxSpeed ==> d.speed == c.speed + ACCELERATION
    ensures s.lastRed.None? && !s.obstacleAhead && c.speed >= c.maxSpeed ==> d.speed == c.speed
    ensures 0.0 <= c.speed && (s.lastRed.Some? || s.obstacleAhead) ==> d.speed <= c.speed
    ensures 0.0 <= c.speed ==> 0.0 <= d.speed
  {
    if s.lastRed.Some? then
      var brake := DistSq(Point(c.x, c.y), s.lastRed.value) <= StopLimit(c.speed) * StopLimit(c.speed);
      c.(mode := Stopped, speed := if brake then Max(c.speed - ACCELERATION, 0.0) else c.speed)
    else if s.obstacleAhead then
      if c.currentLane > 0 && free then c.(mode := Driving, targetLane := c.currentLane - 1)
      else if c.currentLane < LANE_COUNT - 1 && free then c.(mode := Driving, targetLane := c.currentLane + 1)
      else c.(mode := Driving, speed := Max(c.speed - ACCELERATION, 0.0))
    else
      c.(mode := Driving, speed := if c.speed < c.maxSpeed then c.speed + ACCELERATION else c.speed,
         targetLane := c.currentLane)
  }

  /**
   * The lane-change step: away from the target centre by more than
   * SNAP_DISTANCE, cover STEER_RATE of the gap; otherwise land on the
   * centre and make the target lane current.
   */
  function Steer(c: CarState): (d: CarState)
    ensures d.x == c.x && d.speed == c.speed && d.maxSpeed == c.maxSpeed && d.mode == c.mode
    ensures d.targetLane == c.targetLane
    ensures c.targetLane == c.currentLane ==> d == c
    ensures c.targetLane != c.currentLane ==>
              (d.currentLane == c.currentLane &&
               LaneCenter(c.targetLane) - d.y == (1.0 - STEER_RATE) * (LaneCenter(c.targetLane) - c.y) &&
               Abs(LaneCenter(c.targetLane) - c.y) > SNAP_DISTANCE) ||
              (d.currentLane == c.targetLane && d.y == LaneCenter(c.targetLane) &&
               Abs(LaneCenter(c.targetLane) - c.y) <= SNAP_DISTANCE)
  {
    if c.targetLane != c.currentLane then
      var laneCenterY := LaneCenter(c.targetLane);
      var delta := laneCenterY - c.y;
      if Abs(delta) > SNAP_DISTANCE then c.(y := c.y + delta * STEER_RATE)
      else c.(y := laneCenterY, currentLane := c.targetLane)
    else c
  }

  /** decideMovement: the choice, then the lane-change step. */
  function Decide(c: CarState, s: Scan, free: bool): (d: CarState)
    ensures d.x == c.x && d.maxSpeed == c.maxSpeed
    ensures d.mode == Stopped <==> s.lastRed.Some?
    ensures d.currentLane == c.currentLane || d.currentLane == d.targetLane
    ensures 0.0 <= c.speed ==> 0.0 <= d.speed
    ensures 0.0 <= c.speed && (s.lastRed.Some? || s.obstacleAhead) ==> d.speed <= c.speed
    ensures 0.0 <= c.speed <= c.maxSpeed ==> d.speed <= c.maxSpeed + ACCELERATION
  {
    Steer(Choose(c, s, free))
  }

  /** move: accelerate towards maxSpeed when driving, brake towards 0 when stopped, then advance. */
  function Advance(c: CarState): (d: CarState)
    ensures d.y == c.y && d.maxSpeed == c.maxSpeed && d.mode == c.mode
    ensures d.currentLane == c.currentLane && d.targetLane == c.targetLane
    ensures d.x == c.x + d.speed
    ensures 0.0 <= c.maxSpeed && 0.0 <= c.speed <= c.maxSpeed + ACCELERATION ==>
              0.0 <= d.speed <= c.maxSpeed && -ACCELERATION <= d.speed - c.speed <= ACCELERATION
    ensures c.mode == Driving && c.speed <= c.maxSpeed ==> c.speed <= d.speed
    ensures c.mode == Stopped && 0.0 <= c.speed ==> d.speed <= c.speed
  {
    var speed := if c.mode == Driving then Min(c.speed + ACCELERATION, c.maxSpeed)
                 else Max(c.speed - ACCELERATION, 0.0);
    c.(speed := speed, x := c.x + speed)
  }

  /** One update() of the player once the sensors have been read: decideMovement, then move. */
  function PlayerTick(c: CarState, s: Scan, free: bool): (d: CarState)
    ensures d.x == c.x + d.speed && d.maxSpeed == c.maxSpeed
    ensures d.mode == Stopped <==> s.lastRed.Some?
    ensures 0.0 <= c.speed <= c.maxSpeed ==> 0.0 <= d.speed <= c.maxSpeed
  {
    Advance(Decide(c, s, free))
  }

  // ---------------------------------------------------------------------
  // Properties of a tick

  /** Neighbouring lanes have their centres one lane height apart. */
  lemma NeighbourCenters(i: int, j: int)
    requires j == i + 1 || j == i - 1
    ensures LaneCenter(j) - LaneCenter(i) == LANE_HEIGHT || LaneCenter(j) - LaneCenter(i) == -LANE_HEIGHT
  {
  }

  /** The lane-change step keeps the lanes and the car's y where Ok wants them. */
  lemma SteerKeepsLanes(c: CarState)
    requires IsLane(c.currentLane) && IsLane(c.targetLane) && -1 <= c.targetLane - c.currentLane <= 1
    requires LaneCenter(0) <= c.y <= LaneCenter(LANE_COUNT - 1)
    requires Abs(c.y - LaneCenter(c.currentLane)) <= LANE_HEIGHT
    ensures var d := Steer(c);
            IsLane(d.currentLane) && IsLane(d.targetLane) && -1 <= d.targetLane - d.currentLane <= 1 &&
            LaneCenter(0) <= d.y <= LaneCenter(LANE_COUNT - 1) &&
            Abs(d.y - LaneCenter(d.currentLane)) <= LANE_HEIGHT
  {
    var d := Steer(c);
    var t, w := LaneCenter(c.targetLane), LaneCenter(c.currentLane);
    LaneCenterMonotone(0, c.targetLane);
    LaneCenterMonotone(c.targetLane, LANE_COUNT - 1);
    if c.targetLane != c.currentLane && Abs(t - c.y) > SNAP_DISTANCE {
      NeighbourCenters(c.currentLane, c.targetLane);
      StepStaysBetween(c.y, t, w, LaneCenter(0), LaneCenter(LANE_COUNT - 1), d.y);
    }
  }

  /**
   * A step of STEER_RATE from `y` towards a neighbouring lane centre `t`
   * stays within [lo, hi] and within a lane height of the current centre `w`.
   */
  lemma StepStaysBetween(y: real, t: real, w: real, lo: real, hi: real, m: real)
    requires lo <= y <= hi && lo <= t <= hi
    requires -LANE_HEIGHT <= y - w <= LANE_HEIGHT
    requires t - w == LANE_HEIGHT || t - w == -LANE_HEIGHT
    requires t - m == (1.0 - STEER_RATE) * (t - y)
    ensures lo <= m <= hi && Abs(m - w) <= LANE_HEIGHT
  {
  }

  /** A tick of a player in a good state leaves it in a good state. */
  lemma TickKeepsOk(c: CarState, s: Scan, free: bool)
    requires Ok(c)
    ensures Ok(PlayerTick(c, s, free))
  {
    var c1 := Choose(c, s, free);
    assert IsLane(c1.targetLane) && -1 <= c1.targetLane - c1.currentLane <= 1;
    assert 0.0 <= c1.speed <= c1.maxSpeed + ACCELERATION;
    SteerKeepsLanes(c1);
  }

  /**
   * Cruising (no red light, no obstacle ahead) adds ACCELERATION twice per
   * tick, once in decideMovement and once in move, up to maxSpeed.
   */
  lemma CruiseAcceleratesTwice(c: CarState, s: Scan, free: bool)
    requires Ok(c) && s.lastRed.None? && !s.obstacleAhead
    ensures PlayerTick(c, s, free).speed == Min(c.speed + 2.0 * ACCELERATION, c.maxSpeed)
    ensures PlayerTick(c, s, free).targetLane == c.currentLane && PlayerTick(c, s, free).mode == Driving
  {
    var c1 := Choose(c, s, free);
    assert c1.speed == if c.speed < c.maxSpeed then c.speed + ACCELERATION else c.speed;
  }

  /** With a red light to stop for, a tick takes at least ACCELERATION off the speed, down to 0. */
  lemma RedLightBrakes(c: CarState, s: Scan, free: bool)
    requires Ok(c) && s.lastRed.Some?
    ensures PlayerTick(c, s, free).mode == Stopped
    ensures PlayerTick(c, s, free).speed <= Max(c.speed - ACCELERATION, 0.0)
  {
    var c1 := Choose(c, s, free);
    assert c1.speed <= c.speed && c1.mode == Stopped;
  }

  /**
   * The lane change converges: each step that does not land shrinks the
   * gap to the target centre by the factor 1 - STEER_RATE, and a gap of at
   * most SNAP_DISTANCE lands on the next step.
   */
  lemma SteerConverges(c: CarState)
    requires c.targetLane != c.currentLane
    ensures var d := Steer(c);
            (Abs(LaneCenter(c.targetLane) - d.y) == (1.0 - STEER_RATE) * Abs(LaneCenter(c.targetLane) - c.y) &&
             d.currentLane == c.currentLane) ||
            (d.currentLane == d.targetLane && d.y == LaneCenter(d.targetLane))
  {
  }

  /**
   * The braking threshold, with distances compared squared: for a true
   * distance `h` (h >= 0, h * h the squared distance) and a limit `t >= 0`,
   * `h <= t` exactly when `h * h <= t * t`. So Choose brakes exactly when
   * distance() <= stoppingDistance + 20.
   */
  lemma {:induction false} SquaredCompare(h: real, t: real)
    requires 0.0 <= h && 0.0 <= t
    ensures h <= t <==> h * h <= t * t
  {
    if h <= t {
      calc {
        h * h;
      <= h * t;
      <= t * t;
      }
    } else {
      calc {
        t * t;
      <= h * t;
      <  h * h;
      }
    }
  }

  /**
   * The brake rule for a red light: with `h` the true distance to the
   * remembered red light, the car takes ACCELERATION off its speed (down
   * to 0) exactly when h <= speed² / (2 · ACCELERATION) + STOP_MARGIN, and
   * otherwise keeps its speed.
   */
  lemma BrakeRule(c: CarState, s: Scan, free: bool, h: real)
    requires s.lastRed.Some? && 0.0 <= h && h * h == DistSq(Point(c.x, c.y), s.lastRed.value)
    ensures Choose(c, s, free).speed == if h <= StopLimit(c.speed) then Max(c.speed - ACCELERATION, 0.0) else c.speed
  {
    assert 0.0 <= c.speed * c.speed;
    SquaredCompare(h, StopLimit(c.speed));
  }

  /** At speed 2 the car brakes for a red light 30 ahead, but not for one 31 ahead. */
  lemma StopThresholdAtSpeedTwo(lane: int)
    ensures var c := CarState(0.0, LaneCenter(lane), 2.0, 4.0, lane, lane, Driving);
            Choose(c, Scan(false, Some(Point(30.0, LaneCenter(lane)))), true).speed == 1.8 &&
            Choose(c, Scan(false, Some(Point(31.0, LaneCenter(lane)))), true).speed == 2.0
  {
    assert StopLimit(2.0) == 30.0;
  }

  /**
   * isLaneFree only looks at the car's own lane: with an obstacle ahead in
   * the car's lane but out of OBSTACLE_GAP, the car moves over to the left
   * lane even though another obstacle sits right beside it there.
   */
  lemma LaneChangeIntoOccupiedLane()
    ensures var c := CarState(0.0, LaneCenter(1), 2.0, 4.0, 1, 1, Driving);
            var ov := [ObstacleView(Point(200.0, LaneCenter(1)), 40.0, 20.0),
                       ObstacleView(Point(0.0, LaneCenter(0)), 40.0, 20.0)];
            Choose(c, Scan(true, None), LaneFree(c.x, c.y, [], ov)).targetLane == 0
  {
    var ov := [ObstacleView(Point(200.0, LaneCenter(1)), 40.0, 20.0),
               ObstacleView(Point(0.0, LaneCenter(0)), 40.0, 20.0)];
    assert LaneIndex(LaneCenter(0)) != LaneIndex(LaneCenter(1));
    assert !ObstacleBlocks(0.0, LaneCenter(1), ov[0]);
    assert !ObstacleBlocks(0.0, LaneCenter(1), ov[1]);
  }

  /**
   * And the other way round: an obstacle within OBSTACLE_GAP in the car's
   * own lane (such as the one it is about to hit) rules out every lane
   * change, so decideMovement lowers the speed by one step, which move
   * gives back (BlockedTickKeepsSpeed).
   */
  lemma NearObstacleBlocksLaneChange(c: CarState, lights: seq<LightView>, obstacles: seq<ObstacleView>, k: int)
    requires 0 <= k < |obstacles| && ObstacleBlocks(c.x, c.y, obstacles[k])
    ensures var d := Choose(c, Scan(true, None), LaneFree(c.x, c.y, lights, obstacles));
            d.targetLane == c.targetLane && d.speed == Max(c.speed - ACCELERATION, 0.0)
  {
    assert !LaneFree(c.x, c.y, lights, obstacles);
  }

  /**
   * Over a whole tick a blocked car does not slow down: decideMovement
   * takes ACCELERATION off the speed and move, still driving, adds it back.
   */
  lemma BlockedTickKeepsSpeed(c: CarState)
    requires Ok(c) && c.speed >= ACCELERATION
    ensures PlayerTick(c, Scan(true, None), false).speed == c.speed
    ensures PlayerTick(c, Scan(true, None), false).mode == Driving
  {
    var c1 := Choose(c, Scan(true, None), false);
    assert c1.speed == c.speed - ACCELERATION && c1.mode == Driving;
  }

  // ---------------------------------------------------------------------
  // The Car class

  class Car {
    var x: real
    var y: real
    const width: real
    const height: real
    var speed: real
    const maxSpeed: real
    const isPlayer: bool
    /** Heading in degrees; the source never changes it from 0 (facing right). */
    const angle: real
    var currentLane: int
    var targetLane: int
    var mode: Mode
    const sensors: Sensors

    function StateOf(): CarState
      reads this
    {
      CarState(x, y, speed, maxSpeed, currentLane, targetLane, mode)
    }

    /** A car at rest in the lane holding `y`; a car placed on the road starts in a good state. */
    constructor (x: real, y: real, width: real, height: real, isPlayer: bool)
      ensures this.x == x && this.y == y && this.width == width && this.height == height
      ensures this.isPlayer == isPlayer && angle == 0.0
      ensures speed == 0.0 && maxSpeed == (if isPlayer then 4.0 else 2.0)
      ensures currentLane == LaneIndex(y) && targetLane == currentLane && mode == Driving
      ensures fresh(sensors) && sensors.rays == [] && sensors.detected == []
      ensures LaneCenter(0) <= y <= LaneCenter(LANE_COUNT - 1) ==> Ok(StateOf())
    {
      this.x := x;
      this.y := y;
      this.width := width;
      this.height := height;
      this.isPlayer := isPlayer;
      angle := 0.0;
      speed := 0.0;
      maxSpeed := if isPlayer then 4.0 else 2.0;
      currentLane := LaneIndex(y);
      targetLane := LaneIndex(y);
      mode := Driving;
      sensors := new Sensors();
      new;
      if LaneCenter(0) <= y <= LaneCenter(LANE_COUNT - 1) {
        LaneIndexOnRoad(y);
      }
    }

    /** The forEach of decideMovement over `sensors.detected`. */
    method ScanDetected() returns (scan: Scan)
      ensures scan == ScanDetections(x, y, sensors.detected)
    {
      var ds := sensors.detected;
      var needToStop := false;
      var obstacleAhead := false;
      var closestTrafficLight: Option<Point> := None;
      var i := 0;
      while i < |ds|
        invariant 0 <= i <= |ds|
        invariant Scan(obstacleAhead, closestTrafficLight) == ScanDetections(x, y, ds[..i])
        invariant needToStop == closestTrafficLight.Some?
      {
        var det := ds[i];
        if det.source == ObstacleHit {
          if LaneIndex(y) == LaneIndex(det.at.y) && det.at.x > x {
            obstacleAhead := true;
          }
        }
        if det.source.TrafficHit? {
          if LaneIndex(y) == LaneIndex(det.at.y) && det.at.x > x {
            if det.source.state == Red {
              needToStop := true;
              closestTrafficLight := Some(det.at);
            }
          }
        }
        assert ds[..i + 1][..i] == ds[..i];
        i := i + 1;
      }
      assert ds[..i] == ds;
      scan := Scan(obstacleAhead, closestTrafficLight);
    }

    /** isLaneFree: the two early-return loops, obstacles first, then traffic lights. */
    method IsLaneFree(targetLane: int, lights: seq<TrafficLight>, obstacles: seq<ObstacleCar>)
      returns (free: bool)
      ensures free == LaneFree(x, y, LightViews(lights), ObstacleViews(obstacles))
    {
      ghost var lv, ov := LightViews(lights), ObstacleViews(obstacles);
      var i := 0;
      while i < |obstacles|
        invariant 0 <= i <= |obstacles|
        invariant forall k :: 0 <= k < i ==> !ObstacleBlocks(x, y, ov[k])
      {
        var car := obstacles[i];
        ObstacleViewsAt(obstacles, i);
        if LaneIndex(y) == LaneIndex(car.y) && Abs(car.x - x) < OBSTACLE_GAP {
          return false;
        }
        i := i + 1;
      }
      var j := 0;
      while j < |lights|
        invariant 0 <= j <= |lights|
        invariant forall k :: 0 <= k < j ==> !LightBlocks(x, y, lv[k])
      {
        var tl := lights[j];
        LightViewsAt(lights, j);
        if LaneIndex(y) == LaneIndex(tl.y) && tl.state == Red && Abs(tl.x - x) < RED_LIGHT_GAP {
          return false;
        }
        j := j + 1;
      }
      return true;
    }

    /** decideMovement, on the car's fields: read the detections, choose, then step towards the target lane. */
    method DecideMovement(lights: seq<TrafficLight>, obstacles: seq<ObstacleCar>)
      modifies this
      ensures StateOf() == Decide(old(StateOf()), old(ScanDetections(x, y, sensors.detected)),
                                  old(LaneFree(x, y, LightViews(lights), ObstacleViews(obstacles))))
    {
      var scan := ScanDetected();
      ChooseAction(scan, lights, obstacles);
      ChangeLane();
    }

    /** The three branches of decideMovement: stop, dodge or slow down, cruise. */
    method ChooseAction(scan: Scan, lights: seq<TrafficLight>, obstacles: seq<ObstacleCar>)
      modifies this
      ensures StateOf() == Choose(old(StateOf()), scan, old(LaneFree(x, y, LightViews(lights), ObstacleViews(obstacles))))
    {
      if scan.lastRed.Some? {
        mode := Stopped;
        var stoppingDistance := (speed * speed) / (2.0 * ACCELERATION);
        var limit := stoppingDistance + STOP_MARGIN;
        if DistSq(Point(x, y), scan.lastRed.value) <= limit * limit {
          speed := Max(speed - ACCELERATION, 0.0);
        }
      } else if scan.obstacleAhead {
        mode := Driving;
        var freeLeft := false;
        if currentLane > 0 {
          freeLeft := IsLaneFree(currentLane - 1, lights, obstacles);
        }
        if currentLane > 0 && freeLeft {
          targetLane := currentLane - 1;
        } else {
          var freeRight := false;
          if currentLane < LANE_COUNT - 1 {
            freeRight := IsLaneFree(currentLane + 1, lights, obstacles);
          }
          if currentLane < LANE_COUNT - 1 && freeRight {
            targetLane := currentLane + 1;
          } else {
            speed := Max(speed - ACCELERATION, 0.0);
          }
        }
      } else {
        mode := Driving;
        if speed < maxSpeed {
          speed := speed + ACCELERATION;
        }
        targetLane := currentLane;
      }
    }

    /** The smooth lane change at the end of decideMovement. */
    method ChangeLane()
      modifies this
      ensures StateOf() == Steer(old(StateOf()))
    {
      if targetLane != currentLane {
        var laneCenterY := LaneCenter(targetLane);
        var delta := laneCenterY - y;
        if Abs(delta) > SNAP_DISTANCE {
          y := y + delta * STEER_RATE;
        } else {
          y := laneCenterY;
          currentLane := targetLane;
        }
      }
    }

    /** move: the clamped speed change, then x advances by the new speed. */
    method Move()
      modifies this
      ensures StateOf() == Advance(old(StateOf()))
    {
      if mode == Driving {
        speed := Min(speed + ACCELERATION, maxSpeed);
      } else if mode == Stopped {
        speed := Max(speed - ACCELERATION, 0.0);
      }
      x := x + speed;
    }

    /** moveTowardsPlayer: a non-player car drifts left by its speed. */
    method MoveTowardsPlayer()
      modifies this
      ensures StateOf() == old(StateOf()).(x := old(x) - speed)
    {
      x := x - speed;
    }

    /**
     * update: the player refreshes its sensors from where it stands, then
     * decides and moves; any other car only drifts towards the player.
     */
    method Update(lights: seq<TrafficLight>, obstacles: seq<ObstacleCar>,
                  sqrt: real -> real, cosDeg: real -> real, sinDeg: real -> real)
      modifies this, sensors
      ensures isPlayer ==>
                sensors.rays == Fan(Point(old(x), old(y)), angle, old(LightViews(lights)), old(ObstacleViews(obstacles)),
                                    sqrt, cosDeg, sinDeg, RAY_COUNT) &&
                sensors.detected == DetectedOf(sensors.rays)
      ensures isPlayer ==>
                StateOf() == PlayerTick(old(StateOf()), ScanDetections(old(x), old(y), sensors.detected),
                                  old(LaneFree(x, y, LightViews(lights), ObstacleViews(obstacles))))
      ensures !isPlayer ==> StateOf() == old(StateOf()).(x := old(x) - speed) && unchanged(sensors)
    {
      if isPlayer {
        sensors.Update(Point(x, y), angle, lights, obstacles, sqrt, cosDeg, sinDeg);
        DecideMovement(lights, obstacles);
        Move();
      } else {
        MoveTowardsPlayer();
      }
    }
  }
}
