/**
 * One frame of the simulation (script.js, updateEntities): advance the
 * traffic lights, the player and the obstacle cars, keep a supply of
 * traffic lights ahead of the camera, and move the camera to the player.
 */
module Simulation {
  import opened Wrappers
  import opened Geometry
  import opened Road
  import opened Signals
  import opened Obstacles
  import opened Sensing
  import opened Driving

  /** initEntities places this many obstacle cars, all CAR_WIDTH by CAR_HEIGHT like the player. */
  const OBSTACLE_COUNT: int := 8
  const CAR_WIDTH: real := 40.0
  const CAR_HEIGHT: real := 20.0
  /** The player starts this far inside the left edge of the view. */
  const PLAYER_START: real := 100.0

  /** updateEntities tops the light list up to this many lights (three per lane). */
  const LIGHT_TARGET: int := LANE_COUNT * 3
  /** Gap between a refilled light and the previous last light: FIRST_GAP plus up to GAP_SPREAD. */
  const LIGHT_GAP: real := 1800.0
  const GAP_SPREAD: real := 600.0
  /** Placement of a refilled light when the list has emptied. */
  const FIRST_LIGHT_OFFSET: real := 1500.0
  const FIRST_LIGHT_SPREAD: real := 1800.0

  /** The two random draws, each in [0, 1), that place one refilled light: its lane and its x. */
  datatype LightDraw = LightDraw(lane: real, offset: real)

  /** The three random draws an obstacle's respawn may use (x, lane, speed). */
  datatype ObstacleDraw = ObstacleDraw(u1: real, u2: real, u3: real)

  predicate ObstacleDrawOk(d: ObstacleDraw) {
    0.0 <= d.u1 < 1.0 && 0.0 <= d.u2 < 1.0 && 0.0 <= d.u3 < 1.0
  }

  /** Lights at or behind this x, one canvas width behind the camera, are dropped. */
  function LightCutoff(cameraX: real): real {
    cameraX - CANVAS_WIDTH
  }

  /** The trafficLightsList.filter of updateEntities: the lights strictly past the cutoff, in order. */
  function LightsAhead(lights: seq<TrafficLight>, cutoff: real): (r: seq<TrafficLight>)
    decreases |lights|
  {
    if lights == [] then []
    else
      var init, tl := lights[..|lights| - 1], lights[|lights| - 1];
      LightsAhead(init, cutoff) + (if tl.x > cutoff then [tl] else [])
  }

  /** The filter keeps exactly the lights past the cutoff, and never lengthens the list. */
  lemma {:induction false} LightsAheadMeaning(lights: seq<TrafficLight>, cutoff: real)
    ensures |LightsAhead(lights, cutoff)| <= |lights|
    ensures forall tl :: tl in LightsAhead(lights, cutoff) <==> tl in lights && tl.x > cutoff
    decreases |lights|
  {
    if lights != [] {
      var init, tl := lights[..|lights| - 1], lights[|lights| - 1];
      LightsAheadMeaning(init, cutoff);
      assert lights == init + [tl];
    }
  }

  /** A light the filter keeps comes from the list and stands past the cutoff. */
  lemma {:induction false} KeptFromList(lights: seq<TrafficLight>, cutoff: real, tl: TrafficLight)
    requires tl in LightsAhead(lights, cutoff)
    ensures tl in lights && tl.x > cutoff
  {
    LightsAheadMeaning(lights, cutoff);
  }

  /**
   * Where a refilled light goes: 1800 to 2400 beyond the last light, or,
   * with no light left, 1500 to 3300 beyond the right edge of the view.
   */
  function SpawnX(last: Option<real>, cameraX: real, u: real): real {
    match last
    case Some(x) => x + LIGHT_GAP + u * GAP_SPREAD
    case None => cameraX + CANVAS_WIDTH / 2.0 + FIRST_LIGHT_OFFSET + u * FIRST_LIGHT_SPREAD
  }

  /** The x of the last light in a list, if there is one. */
  function LastX(lights: seq<TrafficLight>): Option<real> {
    if lights == [] then None else Some(lights[|lights| - 1].x)
  }

  /** Where the lights of a list stand (x and y never change after construction). */
  function Positions(lights: seq<TrafficLight>): (ps: seq<Point>)
    ensures |ps| == |lights|
    decreases |lights|
  {
    if lights == [] then [] else Positions(lights[..|lights| - 1]) + [Point(lights[|lights| - 1].x, lights[|lights| - 1].y)]
  }

  /** Every draw of the refill is in [0, 1). */
  predicate DrawsOk(draws: seq<LightDraw>) {
    forall k :: 0 <= k < |draws| ==> 0.0 <= draws[k].lane < 1.0 && 0.0 <= draws[k].offset < 1.0
  }

  /** The x of the last of `ps`, or `last` when `ps` is empty. */
  function LastOr(ps: seq<Point>, last: Option<real>): Option<real> {
    if ps == [] then last else Some(ps[|ps| - 1].x)
  }

  /**
   * Where the refill loop puts one light per draw, after a list whose last
   * light stands at `last` (None: the list was empty).
   */
  function Placements(last: Option<real>, cameraX: real, draws: seq<LightDraw>): (ps: seq<Point>)
    requires DrawsOk(draws)
    ensures |ps| == |draws|
    decreases |draws|
  {
    if draws == [] then []
    else
      var init := Placements(last, cameraX, draws[..|draws| - 1]);
      var d := draws[|draws| - 1];
      init + [Point(SpawnX(LastOr(init, last), cameraX, d.offset), LaneCenter(SpawnLane(d.lane)))]
  }

  /** Refilled lights stand on lane centres, so their lane index is a lane of the road. */
  lemma {:induction false} PlacementsOnLanes(last: Option<real>, cameraX: real, draws: seq<LightDraw>)
    requires DrawsOk(draws)
    ensures forall p :: p in Placements(last, cameraX, draws) ==>
              (exists i :: IsLane(i) && p.y == LaneCenter(i)) && IsLane(LaneIndex(p.y))
    decreases |draws|
  {
    if draws != [] {
      PlacementsOnLanes(last, cameraX, draws[..|draws| - 1]);
      var lane := SpawnLane(draws[|draws| - 1].lane);
      LaneIndexOfCenter(lane);
      assert IsLane(lane) && LaneCenter(lane) == LaneCenter(lane);
    }
  }

  /** A draw in [0, 1) scaled by a positive spread stays within [0, spread). */
  lemma Scaled(u: real, spread: real)
    requires 0.0 <= u < 1.0 && 0.0 < spread
    ensures 0.0 <= u * spread < spread
  {
  }

  /**
   * The first refilled light is placed 1800 to 2400 beyond `last`, or 1500
   * to 3300 past the right edge of the view when the list was empty.
   */
  lemma {:induction false} PlacementsFirst(last: Option<real>, cameraX: real, draws: seq<LightDraw>)
    requires DrawsOk(draws) && |draws| > 0
    ensures var p := Placements(last, cameraX, draws)[0];
            match last
            case Some(prev) => prev + LIGHT_GAP <= p.x < prev + LIGHT_GAP + GAP_SPREAD
            case None => cameraX + CANVAS_WIDTH / 2.0 + FIRST_LIGHT_OFFSET <= p.x <
                         cameraX + CANVAS_WIDTH / 2.0 + FIRST_LIGHT_OFFSET + FIRST_LIGHT_SPREAD
    decreases |draws|
  {
    if |draws| == 1 {
      assert draws[..0] == [];
      Scaled(draws[0].offset, GAP_SPREAD);
      Scaled(draws[0].offset, FIRST_LIGHT_SPREAD);
    } else {
      var init := draws[..|draws| - 1];
      PlacementsFirst(last, cameraX, init);
    }
  }

  /** Refilled light `k` stands 1800 to 2400 beyond refilled light `k - 1`. */
  lemma {:induction false} PlacementsSpacing(last: Option<real>, cameraX: real, draws: seq<LightDraw>, k: int)
    requires DrawsOk(draws) && 0 < k < |draws|
    ensures var ps := Placements(last, cameraX, draws);
            ps[k - 1].x + LIGHT_GAP <= ps[k].x < ps[k - 1].x + LIGHT_GAP + GAP_SPREAD
    decreases |draws|
  {
    var init := draws[..|draws| - 1];
    var ps := Placements(last, cameraX, draws);
    var ips := Placements(last, cameraX, init);
    assert ps[k - 1] == ips[k - 1];
    if k < |ips| {
      PlacementsSpacing(last, cameraX, init, k);
      assert ps[k] == ips[k];
    } else {
      Scaled(draws[k].offset, GAP_SPREAD);
      assert ps[k].x == ips[k - 1].x + LIGHT_GAP + draws[k].offset * GAP_SPREAD;
    }
  }

  /** Refilled lights all stand past the cutoff when the last kept light does. */
  lemma {:induction false} PlacementsAhead(last: Option<real>, cameraX: real, draws: seq<LightDraw>)
    requires DrawsOk(draws)
    requires last.Some? ==> last.value > LightCutoff(cameraX)
    ensures forall p :: p in Placements(last, cameraX, draws) ==> p.x > LightCutoff(cameraX)
    decreases |draws|
  {
    if draws != [] {
      var init := draws[..|draws| - 1];
      PlacementsAhead(last, cameraX, init);
      SpawnPastCutoff(LastOr(Placements(last, cameraX, init), last), cameraX, draws[|draws| - 1].offset);
    }
  }

  /** A refilled light lands past the cutoff, since the previous last light was past it. */
  lemma SpawnPastCutoff(last: Option<real>, cameraX: real, u: real)
    requires 0.0 <= u
    requires last.Some? ==> last.value > LightCutoff(cameraX)
    ensures SpawnX(last, cameraX, u) > LightCutoff(cameraX)
  {
  }

  /** A light as its constructor leaves it: green, at the start of its cycle. */
  predicate JustPlaced(tl: TrafficLight)
    reads tl
  {
    tl.PhaseOf() == Phase(0, 0.0) && tl.state == Green
  }

  /**
   * The while loop of updateEntities: push new lights, each placed after
   * the last one, until the list holds LIGHT_TARGET lights. Refill number
   * `k` uses `draws[k]`.
   */
  method RefillLights(kept: seq<TrafficLight>, cameraX: real, draws: seq<LightDraw>)
    returns (lights: seq<TrafficLight>)
    requires |kept| + |draws| >= LIGHT_TARGET
    requires DrawsOk(draws)
    ensures |lights| == if |kept| < LIGHT_TARGET then LIGHT_TARGET else |kept|
    ensures lights[..|kept|] == kept
    ensures Positions(lights[|kept|..]) == Placements(LastX(kept), cameraX, draws[..|lights| - |kept|])
    ensures forall k :: |kept| <= k < |lights| ==> fresh(lights[k])
    ensures Distinct(kept) ==> Distinct(lights)
    ensures forall k :: |kept| <= k < |lights| ==> JustPlaced(lights[k])
  {
    lights := kept;
    assert lights[|kept|..] == [];
    while |lights| < LIGHT_TARGET
      invariant |kept| <= |lights| <= if |kept| < LIGHT_TARGET then LIGHT_TARGET else |kept|
      invariant lights[..|kept|] == kept
      invariant Positions(lights[|kept|..]) == Placements(LastX(kept), cameraX, draws[..|lights| - |kept|])
      invariant LastX(lights) == LastOr(Positions(lights[|kept|..]), LastX(kept))
      invariant forall k :: |kept| <= k < |lights| ==> fresh(lights[k])
      invariant Distinct(kept) ==> Distinct(lights)
      invariant forall k :: |kept| <= k < |lights| ==> JustPlaced(lights[k])
      decreases LIGHT_TARGET - |lights|
    {
      var n := |lights| - |kept|;
      var d := draws[n];
      var lane := SpawnLane(d.lane);
      var x := SpawnX(LastX(lights), cameraX, d.offset);
      var tl := new TrafficLight(x, LaneCenter(lane));
      RefillStep(kept, lights, tl, cameraX, draws);
      if Distinct(lights) {
        DistinctSnoc(lights, tl);
      }
      lights := lights + [tl];
    }
  }

  /** The bookkeeping of one turn of the refill loop. */
  lemma RefillStep(kept: seq<TrafficLight>, lights: seq<TrafficLight>, tl: TrafficLight, cameraX: real,
                   draws: seq<LightDraw>)
    requires DrawsOk(draws)
    requires |kept| <= |lights| < |kept| + |draws|
    requires lights[..|kept|] == kept
    requires Positions(lights[|kept|..]) == Placements(LastX(kept), cameraX, draws[..|lights| - |kept|])
    requires LastX(lights) == LastOr(Positions(lights[|kept|..]), LastX(kept))
    requires tl.x == SpawnX(LastX(lights), cameraX, draws[|lights| - |kept|].offset)
    requires tl.y == LaneCenter(SpawnLane(draws[|lights| - |kept|].lane))
    ensures (lights + [tl])[..|kept|] == kept
    ensures Positions((lights + [tl])[|kept|..]) == Placements(LastX(kept), cameraX, draws[..|lights| + 1 - |kept|])
    ensures LastX(lights + [tl]) == LastOr(Positions((lights + [tl])[|kept|..]), LastX(kept))
  {
    var n := |lights| - |kept|;
    var next := lights + [tl];
    assert next[..|kept|] == lights[..|kept|];
    assert next[|kept|..] == lights[|kept|..] + [tl];
    assert (lights[|kept|..] + [tl])[..n] == lights[|kept|..];
    assert draws[..n + 1][..n] == draws[..n];
  }

  // ---------------------------------------------------------------------
  // The forEach passes of updateEntities

  /** No object appears twice in the list. */
  predicate Distinct<T(==)>(s: seq<T>) {
    forall i, j :: 0 <= i < j < |s| ==> s[i] != s[j]
  }

  /** Appending an element not already present keeps a list free of repeats. */
  lemma DistinctSnoc<T>(s: seq<T>, x: T)
    requires Distinct(s) && x !in s
    ensures Distinct(s + [x])
  {
  }

  /** trafficLightsList.forEach(tl => tl.update(deltaTime)). */
  method TickLights(lights: seq<TrafficLight>, deltaTime: real)
    requires Distinct(lights)
    requires forall k :: 0 <= k < |lights| ==> lights[k].Valid()
    modifies lights
    ensures forall k :: 0 <= k < |lights| ==>
              old(lights[k].Valid()) && lights[k].Valid() &&
              lights[k].PhaseOf() == Tick(old(lights[k].PhaseOf()), deltaTime)
  {
    var i := 0;
    while i < |lights|
      invariant 0 <= i <= |lights|
      invariant forall k :: 0 <= k < i ==>
                  old(lights[k].Valid()) && lights[k].Valid() &&
                  lights[k].PhaseOf() == Tick(old(lights[k].PhaseOf()), deltaTime)
      invariant forall k :: i <= k < |lights| ==> unchanged(lights[k])
    {
      lights[i].Update(deltaTime);
      i := i + 1;
    }
  }

  /** Where ObstacleCar.resetPosition puts a car of width `width` for the draw `d`. */
  predicate Respawned(x: real, y: real, speed: real, width: real, cameraX: real, d: ObstacleDraw)
    requires ObstacleDrawOk(d)
  {
    x == cameraX + CANVAS_WIDTH / 2.0 + width + d.u1 * CANVAS_WIDTH * 3.0 &&
    y == LaneCenter(SpawnLane(d.u2)) && speed == 2.0 + d.u3 * 2.0
  }

  /** What ObstacleCar.update does to one car, on values: drift left, or respawn once behind the view. */
  predicate Drifted(x0: real, y0: real, speed0: real, x: real, y: real, speed: real,
                    width: real, cameraX: real, d: ObstacleDraw)
    requires ObstacleDrawOk(d)
  {
    if x0 - speed0 >= BehindLimit(cameraX, width) then x == x0 - speed0 && y == y0 && speed == speed0
    else Respawned(x, y, speed, width, cameraX, d)
  }

  /** obstacleCarsList.forEach(car => car.update()); car `k` respawns, if it must, with `draws[k]`. */
  method UpdateObstacles(obstacles: seq<ObstacleCar>, cameraX: real, draws: seq<ObstacleDraw>)
    requires Distinct(obstacles)
    requires |draws| >= |obstacles| && forall k :: 0 <= k < |draws| ==> ObstacleDrawOk(draws[k])
    modifies obstacles
    ensures forall k :: 0 <= k < |obstacles| ==>
              Drifted(old(obstacles[k].x), old(obstacles[k].y), old(obstacles[k].speed),
                      obstacles[k].x, obstacles[k].y, obstacles[k].speed, obstacles[k].width, cameraX, draws[k])
    ensures forall k :: 0 <= k < |obstacles| && obstacles[k].width >= 0.0 ==>
              obstacles[k].x >= BehindLimit(cameraX, obstacles[k].width)
  {
    var i := 0;
    while i < |obstacles|
      invariant 0 <= i <= |obstacles|
      invariant forall k :: 0 <= k < i ==>
                  Drifted(old(obstacles[k].x), old(obstacles[k].y), old(obstacles[k].speed),
                          obstacles[k].x, obstacles[k].y, obstacles[k].speed, obstacles[k].width, cameraX, draws[k])
      invariant forall k :: 0 <= k < i && obstacles[k].width >= 0.0 ==>
                  obstacles[k].x >= BehindLimit(cameraX, obstacles[k].width)
      invariant forall k :: i <= k < |obstacles| ==> unchanged(obstacles[k])
    {
      var d := draws[i];
      obstacles[i].Update(cameraX, d.u1, d.u2, d.u3);
      i := i + 1;
    }
  }

  /**
   * The second obstacle pass of updateEntities: respawn every car behind
   * the view. A car not behind it is left alone, so right after
   * UpdateObstacles with the same camera the pass changes nothing
   * (MoveObstacles).
   */
  method ResetBehind(obstacles: seq<ObstacleCar>, cameraX: real, draws: seq<ObstacleDraw>)
    requires Distinct(obstacles)
    requires |draws| >= |obstacles| && forall k :: 0 <= k < |draws| ==> ObstacleDrawOk(draws[k])
    modifies obstacles
    ensures forall k :: 0 <= k < |obstacles| && old(obstacles[k].x) >= BehindLimit(cameraX, obstacles[k].width) ==>
              unchanged(obstacles[k])
    ensures forall k :: 0 <= k < |obstacles| && old(obstacles[k].x) < BehindLimit(cameraX, obstacles[k].width) ==>
              Respawned(obstacles[k].x, obstacles[k].y, obstacles[k].speed, obstacles[k].width, cameraX, draws[k])
    ensures forall k :: 0 <= k < |obstacles| && obstacles[k].width >= 0.0 ==>
              obstacles[k].x >= BehindLimit(cameraX, obstacles[k].width)
  {
    var i := 0;
    while i < |obstacles|
      invariant 0 <= i <= |obstacles|
      invariant forall k :: 0 <= k < i && old(obstacles[k].x) >= BehindLimit(cameraX, obstacles[k].width) ==>
                  unchanged(obstacles[k])
      invariant forall k :: 0 <= k < i && old(obstacles[k].x) < BehindLimit(cameraX, obstacles[k].width) ==>
                  Respawned(obstacles[k].x, obstacles[k].y, obstacles[k].speed, obstacles[k].width, cameraX, draws[k])
      invariant forall k :: 0 <= k < i && obstacles[k].width >= 0.0 ==>
                  obstacles[k].x >= BehindLimit(cameraX, obstacles[k].width)
      invariant forall k :: i <= k < |obstacles| ==> unchanged(obstacles[k])
    {
      var car := obstacles[i];
      if car.x < BehindLimit(cameraX, car.width) {
        var d := draws[i];
        car.ResetPosition(cameraX, d.u1, d.u2, d.u3);
      }
      i := i + 1;
    }
  }

  /**
   * Both obstacle passes of updateEntities. The second one never finds a
   * car to respawn, so each car ends as its own update left it.
   */
  method MoveObstacles(obstacles: seq<ObstacleCar>, cameraX: real, draws: seq<ObstacleDraw>,
                       resetDraws: seq<ObstacleDraw>)
    requires Distinct(obstacles) && forall k :: 0 <= k < |obstacles| ==> obstacles[k].width >= 0.0
    requires |draws| >= |obstacles| && forall k :: 0 <= k < |draws| ==> ObstacleDrawOk(draws[k])
    requires |resetDraws| >= |obstacles| && forall k :: 0 <= k < |resetDraws| ==> ObstacleDrawOk(resetDraws[k])
    modifies obstacles
    ensures forall k :: 0 <= k < |obstacles| ==>
              Drifted(old(obstacles[k].x), old(obstacles[k].y), old(obstacles[k].speed),
                      obstacles[k].x, obstacles[k].y, obstacles[k].speed, obstacles[k].width, cameraX, draws[k])
    ensures forall k :: 0 <= k < |obstacles| ==> obstacles[k].x >= BehindLimit(cameraX, obstacles[k].width)
  {
    UpdateObstacles(obstacles, cameraX, draws);
    ResetBehind(obstacles, cameraX, resetDraws);
  }

  /** Entry `j` of Positions is where light `j` stands. */
  lemma {:induction false} PositionsAt(lights: seq<TrafficLight>, j: int)
    requires 0 <= j < |lights|
    ensures Positions(lights)[j] == Point(lights[j].x, lights[j].y)
    decreases |lights|
  {
    if j < |lights| - 1 {
      PositionsAt(lights[..|lights| - 1], j);
    }
  }

  /** Where initEntities puts obstacle car `ob` for the draw `d`: like a respawn, but without the width term. */
  predicate Spawned(ob: ObstacleCar, cameraX: real, d: ObstacleDraw)
    requires ObstacleDrawOk(d)
    reads ob
  {
    ob.x == cameraX + CANVAS_WIDTH / 2.0 + d.u1 * CANVAS_WIDTH * 3.0 &&
    ob.y == LaneCenter(SpawnLane(d.u2)) && ob.speed == 2.0 + d.u3 * 2.0 &&
    ob.width == CAR_WIDTH && ob.height == CAR_HEIGHT
  }

  /** The obstacle loop of initEntities: OBSTACLE_COUNT new cars, car `k` placed by `draws[k]`. */
  method SpawnObstacles(cameraX: real, draws: seq<ObstacleDraw>) returns (obs: seq<ObstacleCar>)
    requires |draws| >= OBSTACLE_COUNT && forall k :: 0 <= k < |draws| ==> ObstacleDrawOk(draws[k])
    ensures |obs| == OBSTACLE_COUNT && Distinct(obs)
    ensures forall k :: 0 <= k < OBSTACLE_COUNT ==> fresh(obs[k]) && Spawned(obs[k], cameraX, draws[k])
  {
    obs := [];
    while |obs| < OBSTACLE_COUNT
      invariant |obs| <= OBSTACLE_COUNT && Distinct(obs)
      invariant forall k :: 0 <= k < |obs| ==> fresh(obs[k]) && Spawned(obs[k], cameraX, draws[k])
    {
      var d := draws[|obs|];
      var ob := new ObstacleCar(cameraX + CANVAS_WIDTH / 2.0 + d.u1 * CANVAS_WIDTH * 3.0,
                                LaneCenter(SpawnLane(d.u2)), CAR_WIDTH, CAR_HEIGHT, 2.0 + d.u3 * 2.0);
      obs := obs + [ob];
    }
  }

  /** Where initEntities puts the light of lane `i`: 1800 apart, the first 1500 past the right edge. */
  ghost predicate FirstLight(tl: TrafficLight, cameraX: real, i: int)
    reads tl
  {
    tl.x == cameraX + CANVAS_WIDTH / 2.0 + FIRST_LIGHT_OFFSET + i as real * LIGHT_GAP &&
    tl.y == LaneCenter(i) && tl.Valid() && tl.PhaseOf() == Phase(0, 0.0) && tl.state == Green
  }

  /** The light loop of initEntities: one new light per lane. */
  method PlaceFirstLights(cameraX: real) returns (ls: seq<TrafficLight>)
    ensures |ls| == LANE_COUNT && Distinct(ls)
    ensures forall i :: 0 <= i < LANE_COUNT ==> fresh(ls[i]) && FirstLight(ls[i], cameraX, i)
  {
    ls := [];
    while |ls| < LANE_COUNT
      invariant |ls| <= LANE_COUNT && Distinct(ls)
      invariant forall i :: 0 <= i < |ls| ==> fresh(ls[i]) && FirstLight(ls[i], cameraX, i)
    {
      var tl := new TrafficLight(cameraX + CANVAS_WIDTH / 2.0 + FIRST_LIGHT_OFFSET + |ls| as real * LIGHT_GAP,
                                 LaneCenter(|ls|));
      ls := ls + [tl];
    }
  }

  /**
   * The player's part of updateEntities: Car.update on the player, which
   * keeps its state good (TickKeepsOk). The ghost results `lv` and `ov`
   * are what the sensors saw: entry `k` is the view of light `k` and of
   * obstacle `k` as they stood before the update. The new sensor rays are
   * the fan cast over them, and the new state is PlayerTick of the scan
   * of those rays and of isLaneFree's answer.
   */
  method DrivePlayer(player: Car, lights: seq<TrafficLight>, obstacles: seq<ObstacleCar>,
                     sqrt: real -> real, cosDeg: real -> real, sinDeg: real -> real)
    returns (ghost scan: Scan, ghost free: bool, ghost lv: seq<LightView>, ghost ov: seq<ObstacleView>,
             ghost rays: seq<Ray>)
    requires player.isPlayer && Ok(player.StateOf())
    modifies player, player.sensors
    ensures |lv| == |lights| && forall k :: 0 <= k < |lights| ==> lv[k] == old(ViewOfLight(lights[k]))
    ensures |ov| == |obstacles| && forall k :: 0 <= k < |obstacles| ==> ov[k] == old(ViewOfObstacle(obstacles[k]))
    ensures player.sensors.rays == rays && player.sensors.detected == DetectedOf(rays)
    ensures Perceived(old(player.x), old(player.y), player.angle, lv, ov, sqrt, cosDeg, sinDeg, rays, scan, free)
    ensures Ok(player.StateOf())
    ensures player.StateOf() == PlayerTick(old(player.StateOf()), scan, free)
  {
    ghost var c0 := player.StateOf();
    lv, ov := LightViews(lights), ObstacleViews(obstacles);
    forall k | 0 <= k < |lights| ensures lv[k] == ViewOfLight(lights[k]) { LightViewsAt(lights, k); }
    forall k | 0 <= k < |obstacles| ensures ov[k] == ViewOfObstacle(obstacles[k]) { ObstacleViewsAt(obstacles, k); }
    free := LaneFree(player.x, player.y, lv, ov);
    player.Update(lights, obstacles, sqrt, cosDeg, sinDeg);
    rays := player.sensors.rays;
    scan := ScanDetections(c0.x, c0.y, player.sensors.detected);
    TickKeepsOk(c0, scan, free);
  }

  /**
   * What Car.update makes of the world for a player standing at (x, y)
   * with heading `angle` that sees the lights as `lv` and the obstacles as
   * `ov`: the fan of rays cast from there, the scan of their hits and
   * isLaneFree's answer there.
   */
  predicate Perceived(x: real, y: real, angle: real, lv: seq<LightView>, ov: seq<ObstacleView>,
                      sqrt: real -> real, cosDeg: real -> real, sinDeg: real -> real,
                      rays: seq<Ray>, scan: Scan, free: bool)
  {
    rays == Fan(Point(x, y), angle, lv, ov, sqrt, cosDeg, sinDeg, RAY_COUNT) &&
    scan == ScanDetections(x, y, DetectedOf(rays)) &&
    free == LaneFree(x, y, lv, ov)
  }

  /**
   * The first two steps of updateEntities: tick every light, then update
   * the player, whose sensors see the lights as they are after their tick
   * and the obstacles as they were.
   */
  method TickThenDrive(player: Car, lights: seq<TrafficLight>, obstacles: seq<ObstacleCar>, deltaTime: real,
                       sqrt: real -> real, cosDeg: real -> real, sinDeg: real -> real)
    returns (ghost scan: Scan, ghost free: bool, ghost lv: seq<LightView>, ghost ov: seq<ObstacleView>,
             ghost rays: seq<Ray>)
    requires player.isPlayer && Ok(player.StateOf())
    requires Distinct(lights) && forall k :: 0 <= k < |lights| ==> lights[k].Valid()
    modifies lights, player, player.sensors
    ensures |lv| == |lights|
    ensures forall k :: 0 <= k < |lights| ==>
              old(lights[k].Valid()) && lights[k].Valid() &&
              lights[k].PhaseOf() == Signals.Tick(old(lights[k].PhaseOf()), deltaTime) &&
              lv[k] == ViewOfLight(lights[k])
    ensures |ov| == |obstacles| && forall k :: 0 <= k < |obstacles| ==> ov[k] == old(ViewOfObstacle(obstacles[k]))
    ensures player.sensors.rays == rays && player.sensors.detected == DetectedOf(rays)
    ensures Perceived(old(player.x), old(player.y), player.angle, lv, ov, sqrt, cosDeg, sinDeg, rays, scan, free)
    ensures Ok(player.StateOf())
    ensures player.StateOf() == PlayerTick(old(player.StateOf()), scan, free)
  {
    TickLights(lights, deltaTime);
    scan, free, lv, ov, rays := DrivePlayer(player, lights, obstacles, sqrt, cosDeg, sinDeg);
  }

  /**
   * `r` is `lights` with the lights left behind the cutoff of `cameraX`
   * dropped, in order, then refilled up to LIGHT_TARGET with new lights
   * placed by `draws`.
   */
  predicate Refilled(lights: seq<TrafficLight>, cameraX: real, draws: seq<LightDraw>, r: seq<TrafficLight>)
    requires DrawsOk(draws)
  {
    var kept := LightsAhead(lights, LightCutoff(cameraX));
    |r| == (if |kept| < LIGHT_TARGET then LIGHT_TARGET else |kept|) && r[..|kept|] == kept &&
    |r| - |kept| <= |draws| &&
    Positions(r[|kept|..]) == Placements(LastX(kept), cameraX, draws[..|r| - |kept|])
  }

  /**
   * The light part of updateEntities: keep the lights past the cutoff, in
   * order, then refill the list to LIGHT_TARGET with new lights. Every
   * light of the result stands past the cutoff, appears once and shows
   * the colour its state index names.
   */
  method RefreshLights(lights: seq<TrafficLight>, cameraX: real, draws: seq<LightDraw>)
    returns (r: seq<TrafficLight>)
    requires Distinct(lights) && forall k :: 0 <= k < |lights| ==> lights[k].Valid()
    requires |draws| >= LIGHT_TARGET && DrawsOk(draws)
    ensures Refilled(lights, cameraX, draws, r)
    ensures forall k :: |LightsAhead(lights, LightCutoff(cameraX))| <= k < |r| ==> fresh(r[k]) && JustPlaced(r[k])
    ensures |r| >= LIGHT_TARGET && Distinct(r)
    ensures forall k :: 0 <= k < |r| ==> r[k].Valid() && r[k].x > LightCutoff(cameraX)
  {
    var kept := LightsAhead(lights, LightCutoff(cameraX));
    LightsAheadMeaning(lights, LightCutoff(cameraX));
    KeptDistinct(lights, LightCutoff(cameraX));
    forall k | 0 <= k < |kept|
      ensures kept[k] in lights && kept[k].x > LightCutoff(cameraX)
    {
      KeptFromList(lights, LightCutoff(cameraX), kept[k]);
    }
    r := RefillLights(kept, cameraX, draws[..LIGHT_TARGET]);
    assert draws[..LIGHT_TARGET][..|r| - |kept|] == draws[..|r| - |kept|];
    RefilledAhead(kept, r, cameraX, draws[..LIGHT_TARGET]);
    forall k | 0 <= k < |r|
      ensures r[k].Valid()
    {
      if k < |kept| {
        assert r[k] == r[..|kept|][k];
      }
    }
  }

  // ---------------------------------------------------------------------
  // The world

  class World {
    var cameraX: real
    var cameraY: real
    const player: Car
    const obstacles: seq<ObstacleCar>
    var lights: seq<TrafficLight>

    /**
     * What every frame keeps: the player is the player and in a good state,
     * each light and each obstacle appears once in its list, the lights
     * show the colour their state index names, and no obstacle has a
     * negative width.
     */
    ghost predicate Valid()
      reads this, player, lights
      reads obstacles
    {
      player.isPlayer && Ok(player.StateOf()) &&
      Distinct(lights) && (forall k :: 0 <= k < |lights| ==> lights[k].Valid()) &&
      Distinct(obstacles) && (forall k :: 0 <= k < |obstacles| ==> obstacles[k].width >= 0.0)
    }

    /**
     * The camera at x = 0 and initEntities: the player near the left edge
     * of the view in the middle lane, OBSTACLE_COUNT obstacles spread over
     * the three canvas widths right of the view (car `k` placed by
     * `draws[k]`), and one light per lane, 1800 apart.
     */
    constructor (draws: seq<ObstacleDraw>)
      requires |draws| >= OBSTACLE_COUNT && forall k :: 0 <= k < |draws| ==> ObstacleDrawOk(draws[k])
      ensures Valid()
      ensures cameraX == 0.0 && cameraY == LaneCenter(LANE_COUNT / 2)
      ensures player.x == cameraX - CANVAS_WIDTH / 2.0 + PLAYER_START && player.y == LaneCenter(LANE_COUNT / 2)
      ensures player.speed == 0.0 && player.StateOf().currentLane == LANE_COUNT / 2
      ensures |obstacles| == OBSTACLE_COUNT
      ensures forall k :: 0 <= k < OBSTACLE_COUNT ==> Spawned(obstacles[k], cameraX, draws[k])
      ensures |lights| == LANE_COUNT
      ensures forall i :: 0 <= i < LANE_COUNT ==> FirstLight(lights[i], cameraX, i)
    {
      var obs := SpawnObstacles(0.0, draws);
      var ls := PlaceFirstLights(0.0);
      LaneCenterMonotone(0, LANE_COUNT / 2);
      LaneCenterMonotone(LANE_COUNT / 2, LANE_COUNT - 1);
      LaneIndexOfCenter(LANE_COUNT / 2);
      player := new Car(-CANVAS_WIDTH / 2.0 + PLAYER_START, LaneCenter(LANE_COUNT / 2), CAR_WIDTH, CAR_HEIGHT, true);
      cameraX := 0.0;
      cameraY := LaneCenter(LANE_COUNT / 2);
      obstacles := obs;
      lights := ls;
    }

    /**
     * The first part of updateEntities: tick every light, update the
     * player, then both obstacle passes. The light list itself and the
     * camera stay as they are. Valid() is written out, its light part
     * merged with what happens to each light; the player's sensors saw the
     * lights after their tick and the obstacles before they moved.
     */
    method MoveAgents(deltaTime: real, sqrt: real -> real, cosDeg: real -> real, sinDeg: real -> real,
                      obstacleDraws: seq<ObstacleDraw>, resetDraws: seq<ObstacleDraw>)
      returns (ghost scan: Scan, ghost free: bool, ghost lv: seq<LightView>, ghost ov: seq<ObstacleView>,
               ghost rays: seq<Ray>)
      requires Valid()
      requires |obstacleDraws| >= |obstacles| && forall k :: 0 <= k < |obstacleDraws| ==> ObstacleDrawOk(obstacleDraws[k])
      requires |resetDraws| >= |obstacles| && forall k :: 0 <= k < |resetDraws| ==> ObstacleDrawOk(resetDraws[k])
      modifies player, player.sensors
      modifies lights
      modifies obstacles
      ensures player.isPlayer && Ok(player.StateOf())
      ensures Distinct(obstacles) && forall k :: 0 <= k < |obstacles| ==> obstacles[k].width >= 0.0
      ensures Distinct(lights) && |lv| == |lights|
      ensures forall k :: 0 <= k < |lights| ==>
                lights[k].Valid() && lights[k].PhaseOf() == Signals.Tick(old(lights[k].PhaseOf()), deltaTime) &&
                lv[k] == ViewOfLight(lights[k])
      ensures |ov| == |obstacles| && forall k :: 0 <= k < |obstacles| ==> ov[k] == old(ViewOfObstacle(obstacles[k]))
      ensures player.sensors.rays == rays && player.sensors.detected == DetectedOf(rays)
      ensures Perceived(old(player.x), old(player.y), player.angle, lv, ov, sqrt, cosDeg, sinDeg, rays, scan, free)
      ensures player.StateOf() == PlayerTick(old(player.StateOf()), scan, free)
      ensures forall k :: 0 <= k < |obstacles| ==>
                Drifted(old(obstacles[k].x), old(obstacles[k].y), old(obstacles[k].speed),
                        obstacles[k].x, obstacles[k].y, obstacles[k].speed, obstacles[k].width,
                        cameraX, obstacleDraws[k])
    {
      scan, free, lv, ov, rays := TickThenDrive(player, lights, obstacles, deltaTime, sqrt, cosDeg, sinDeg);
      MoveObstacles(obstacles, cameraX, obstacleDraws, resetDraws);
    }

    /**
     * The last part of updateEntities: drop the lights left behind and
     * refill the list, then move the camera to the player.
     */
    method RefreshAndFollow(lightDraws: seq<LightDraw>)
      requires Distinct(lights) && forall k :: 0 <= k < |lights| ==> lights[k].Valid()
      requires |lightDraws| >= LIGHT_TARGET && DrawsOk(lightDraws)
      modifies this
      ensures cameraX == player.x && cameraY == LaneCenter(LANE_COUNT / 2)
      ensures Refilled(old(lights), old(cameraX), lightDraws, lights)
      ensures forall k :: |LightsAhead(old(lights), LightCutoff(old(cameraX)))| <= k < |lights| ==>
                fresh(lights[k]) && JustPlaced(lights[k])
      ensures |lights| >= LIGHT_TARGET && Distinct(lights)
      ensures forall k :: 0 <= k < |lights| ==> lights[k].Valid() && lights[k].x > LightCutoff(old(cameraX))
    {
      lights := RefreshLights(lights, cameraX, lightDraws);
      cameraX := player.x;
      cameraY := LaneCenter(LANE_COUNT / 2);
    }

    /**
     * updateEntities: tick the lights, update the player and the obstacles,
     * drop the lights left behind and refill the list, and move the camera
     * to the player. The random draws are parameters: `obstacleDraws[k]`
     * and `resetDraws[k]` for obstacle `k`'s two chances to respawn,
     * `lightDraws[k]` for the k-th new light.
     */
    method Tick(deltaTime: real, sqrt: real -> real, cosDeg: real -> real, sinDeg: real -> real,
                obstacleDraws: seq<ObstacleDraw>, lightDraws: seq<LightDraw>, resetDraws: seq<ObstacleDraw>)
      returns (ghost scan: Scan, ghost free: bool, ghost lv: seq<LightView>, ghost ov: seq<ObstacleView>,
               ghost rays: seq<Ray>)
      requires Valid()
      requires |obstacleDraws| >= |obstacles| && forall k :: 0 <= k < |obstacleDraws| ==> ObstacleDrawOk(obstacleDraws[k])
      requires |resetDraws| >= |obstacles| && forall k :: 0 <= k < |resetDraws| ==> ObstacleDrawOk(resetDraws[k])
      requires |lightDraws| >= LIGHT_TARGET && DrawsOk(lightDraws)
      modifies this, player, player.sensors
      modifies lights
      modifies obstacles
      ensures Valid()
      ensures cameraX == player.x && cameraY == LaneCenter(LANE_COUNT / 2)
      ensures player.sensors.rays == rays && player.sensors.detected == DetectedOf(rays)
      ensures Perceived(old(player.x), old(player.y), player.angle, lv, ov, sqrt, cosDeg, sinDeg, rays, scan, free)
      ensures |lv| == |old(lights)| && forall k :: 0 <= k < |old(lights)| ==>
                old(lights)[k].PhaseOf() == Signals.Tick(old(lights[k].PhaseOf()), deltaTime) &&
                lv[k] == ViewOfLight(old(lights)[k])
      ensures |ov| == |obstacles| && forall k :: 0 <= k < |obstacles| ==> ov[k] == old(ViewOfObstacle(obstacles[k]))
      ensures player.StateOf() == PlayerTick(old(player.StateOf()), scan, free)
      ensures forall k :: 0 <= k < |obstacles| ==>
                Drifted(old(obstacles[k].x), old(obstacles[k].y), old(obstacles[k].speed),
                        obstacles[k].x, obstacles[k].y, obstacles[k].speed, obstacles[k].width,
                        old(cameraX), obstacleDraws[k])
      ensures Refilled(old(lights), old(cameraX), lightDraws, lights)
      ensures forall k :: |LightsAhead(old(lights), LightCutoff(old(cameraX)))| <= k < |lights| ==>
                fresh(lights[k]) && JustPlaced(lights[k])
      ensures |lights| >= LIGHT_TARGET
      ensures forall k :: 0 <= k < |lights| ==> lights[k].x > LightCutoff(old(cameraX))
    {
      scan, free, lv, ov, rays := MoveAgents(deltaTime, sqrt, cosDeg, sinDeg, obstacleDraws, resetDraws);
      RefreshAndFollow(lightDraws);
    }
  }

  /** Filtering a list without repeats gives a list without repeats. */
  lemma {:induction false} KeptDistinct(lights: seq<TrafficLight>, cutoff: real)
    requires Distinct(lights)
    ensures Distinct(LightsAhead(lights, cutoff))
    decreases |lights|
  {
    if lights != [] {
      var init, tl := lights[..|lights| - 1], lights[|lights| - 1];
      assert Distinct(init) by {
        forall i, j | 0 <= i < j < |init|
          ensures init[i] != init[j]
        {
          assert init[i] == lights[i] && init[j] == lights[j];
        }
      }
      KeptDistinct(init, cutoff);
      LightsAheadMeaning(init, cutoff);
      assert tl !in init;
    }
  }

  /** After the refill every light stands past the cutoff, the kept ones and the new ones alike. */
  lemma RefilledAhead(kept: seq<TrafficLight>, lights: seq<TrafficLight>, cameraX: real, draws: seq<LightDraw>)
    requires DrawsOk(draws)
    requires |kept| <= |lights| <= |kept| + |draws|
    requires lights[..|kept|] == kept
    requires Positions(lights[|kept|..]) == Placements(LastX(kept), cameraX, draws[..|lights| - |kept|])
    requires forall k :: 0 <= k < |kept| ==> kept[k].x > LightCutoff(cameraX)
    ensures forall k :: 0 <= k < |lights| ==> lights[k].x > LightCutoff(cameraX)
  {
    var ds := draws[..|lights| - |kept|];
    PlacementsAhead(LastX(kept), cameraX, ds);
    forall k | 0 <= k < |lights|
      ensures lights[k].x > LightCutoff(cameraX)
    {
      if k < |kept| {
        assert lights[k] == kept[k];
      } else {
        PositionsAt(lights[|kept|..], k - |kept|);
        assert Placements(LastX(kept), cameraX, ds)[k - |kept|] in Placements(LastX(kept), cameraX, ds);
      }
    }
  }
}
