# Traffic simulation core in Dafny

A model of the perception-and-decision core of a browser traffic simulation
(`script.js`). The player's car drives right along a four-lane road. A fan
of 36 sensor rays picks up traffic lights and obstacle cars. From what the
rays report, the car decides each frame to stop for a red light, dodge an
obstacle by changing lane, slow down, or cruise. Traffic lights cycle
green, yellow, red on timers. Obstacle cars drift left and respawn ahead
of the camera. The list of traffic lights is kept topped up ahead of the
player.

The model has one module per part of the program:

| module | file | what it holds |
|---|---|---|
| `Wrappers` | `wrappers.dfy` | `Option`, standing for the source's `null` |
| `Road` | `road.dfy` | lane constants, `getLaneCenter`, `getLaneIndex` |
| `Geometry` | `geometry.dfy` | points, `getLineIntersection`, the circle test of `TrafficLight.getIntersection` |
| `Signals` | `signals.dfy` | class `TrafficLight` and its colour cycle |
| `Obstacles` | `obstacles.dfy` | class `ObstacleCar`, its rectangle ray test, update and respawn |
| `Sensing` | `sensing.dfy` | class `Sensors`: `castRay` and `update` |
| `Driving` | `car.dfy` | class `Car`: `update`, `decideMovement`, `isLaneFree`, `move` |
| `Simulation` | `world.dfy` | `initEntities` and `updateEntities` as class `World` |

How the model is built:

- **State.** Objects whose fields the source updates in place are classes
  with those fields: `TrafficLight`, `ObstacleCar`, `Sensors`, `Car` and
  `World`. Their methods carry `modifies` clauses, and each method is proved
  against a function on values. For example, `Car.DecideMovement` ends in
  the state `Decide` computes, and `TrafficLight.Update` ends in the phase
  `Tick` computes. The properties the source promises are then proved about
  those functions.
- **Arithmetic.** Coordinates and speeds are exact reals.
- **Math library.** `Math.hypot` is replaced by the squared distance, which
  orders non-negative distances the same way. `Math.sqrt`, and the cosine
  and sine of an angle in degrees, are functions the caller supplies. Where
  a proof needs a true square root, the lemma says so in its `requires`.
- **Randomness.** Every `Math.random()` draw is a parameter in [0, 1).

## Model

| member | source | states |
|---|---|---|
| Road.LaneIndex | script.js:98-100 | the lane returned is the band that holds `y`, by rounding down, with no clamping |
| Road.LaneIndexOfCenter | script.js:23-25 | `getLaneIndex(getLaneCenter(i)) == i` for every `i`; a road lane's centre lies strictly inside the road |
| Road.LaneCenterMonotone | script.js:23-25 | lane centres are ordered like their lane numbers |
| Road.LaneIndexOnRoad | script.js:98-100 | a `y` between the outermost lane centres has a lane index of the road |
| Geometry.DistSq | script.js:34-38 | the squared distance, standing for `distance`, is never negative |
| Geometry.LineOf | script.js:42-50 | both endpoints of a segment satisfy `a*x + b*y == c` with the source's coefficients |
| Geometry.Cramer | script.js:52-58 | for a non-zero determinant, the solved point is exactly the one point on both lines |
| Geometry.Intersect | script.js:41-76 | null when the determinant is 0; a returned point satisfies both line equations and lies in both inclusive bounding boxes |
| Geometry.IntersectComplete | script.js:41-76 | converse: with a non-zero determinant, a point on both lines and in both boxes is what is returned |
| Geometry.PreferFirst | script.js:503-511 | t1 whenever it lies in [0, 1]; otherwise t2 when it does; none exactly when neither does; when t1 <= t2 and t2 is in range, the result is at most t2 |
| Geometry.HitParam | script.js:479-512 | the chosen parameter lies in [0, 1]; a negative discriminant or a zero-length ray gives none |
| Geometry.HitParamShape | script.js:482-501 | a chosen parameter comes with `a != 0` and a non-negative discriminant, and is one of the two roots `(-b ∓ sqrt(d)) / 2a` |
| Geometry.RayCircle | script.js:479-512 | a hit exactly when a parameter is chosen, at the point of the ray at that parameter |
| Geometry.OnCircleIffRoot | script.js:482-489 | the point at parameter t is on the circle iff t is a root of `a*t*t + b*t + c` built from the source's `a`, `b`, `c` |
| Geometry.OnlyRootsMeet | script.js:491-501 | with a true square root, every parameter where the ray's line meets the circle is t1 or t2 |
| Geometry.HitIsOnCircle | script.js:500-509 | with a true square root, the returned point lies on the light's circle |
| Geometry.RootsOrdered | script.js:500-501 | for `a > 0`, t1 <= t2 |
| Geometry.RayCircleFirstPoint | script.js:479-512 | with a true square root, the hit is the first point of the ray on the circle; on a ray of non-zero length, no hit means no point of the ray is on the circle |
| Signals.Tick | script.js:454-461 | the index stays in 0..2; it moves on by exactly one colour, to the next in the cycle, iff `timer + dt` exceeds the current duration, and then the timer restarts at 0; otherwise the timer grows by `dt` |
| Signals.TickKeepsTimerBounded | script.js:454-461 | with non-negative elapsed time the timer stays within [0, current duration] |
| Signals.RunFollowsCycle | script.js:454-461 | over any run of updates, the index is the start index plus the transitions, mod 3, and there are never more transitions than updates |
| Signals.TrafficLight.constructor | script.js:444-452 | a new light is green, at index 0, with timer 0, at the given position |
| Signals.TrafficLight.Update | script.js:454-461 | `state == states[currentStateIndex]` is kept, and the new index and timer are `Tick` of the old ones |
| Signals.TrafficLight.Intersection | script.js:479-512 | a segment of length zero never hits; a hit is a point of the segment; with a true square root it is the first point of the segment on the light's circle of radius 5, and no hit on a segment of non-zero length means the segment misses the circle |
| Obstacles.Edges | script.js:396-421 | four sides, top, right, bottom, left, at the rectangle's bounds; each starts where the previous ends |
| Obstacles.FirstHitIndex | script.js:423-438 | the position of the first side the ray meets: every earlier side is missed |
| Obstacles.FirstHit | script.js:423-438 | null iff every side is missed; otherwise the hit on a side all of whose predecessors are missed |
| Obstacles.RectHit | script.js:394-439 | null iff none of the four sides is met; a hit lies on the ray's line and in its bounding box |
| Obstacles.FirstHitNotNearest | script.js:394-439 | a ray going up through a 40 by 20 car is reported at the top side, though it crosses the nearer bottom side |
| Obstacles.SpawnLane | script.js:375 | `floor(u * LANE_COUNT)` is a lane of the road for `u` in [0, 1) |
| Obstacles.ObstacleCar.constructor | script.js:355-362 | the car has the given position, size and speed |
| Obstacles.ObstacleCar.ResetPosition | script.js:371-381 | x is `camera.x + CANVAS_WIDTH/2 + width + u1*CANVAS_WIDTH*3`, so within three canvas widths of the view's right edge plus the width; y is the centre of the drawn lane; speed is `2 + u3*2`, in [2, 4) |
| Obstacles.ObstacleCar.Update | script.js:364-369 | drift left by `speed`, and respawn iff then behind the view's left edge by more than the width; for a non-negative width, x ends at or past that limit either way |
| Obstacles.ObstacleCar.Intersection | script.js:394-439 | no hit iff the segment meets none of the four sides; a hit lies on the segment |
| Sensing.RayAngle | script.js:267-277 | ray 0 is at the heading minus 90 degrees, ray 35 at the heading plus 90 degrees, and every ray lies between |
| Sensing.RayEnd | script.js:287-289 | with `cos^2 + sin^2 == 1` the far end is `rayLength` from the car |
| Sensing.ClosestIndex | script.js:292-317 | the candidate kept: none iff nothing is hit; it is at least as near as every hit and strictly nearer than every earlier hit |
| Sensing.ClosestAtIndex | script.js:292-317 | the strict-less-than scan keeps exactly that candidate |
| Sensing.ScanConcat | script.js:292-317 | the light loop followed by the obstacle loop is one scan over lights then obstacles |
| Sensing.CastMissIffNoHit | script.js:319-324 | a ray has no type iff no light and no obstacle is hit, and then it ends at the max-range endpoint |
| Sensing.CastIsNearest | script.js:292-317 | when any light or obstacle is hit, the ray reports a hit and no hit is strictly nearer |
| Sensing.ObstacleOnlyWhenStrictlyNearer | script.js:308-317 | a ray reports an obstacle only if it is strictly nearer than every traffic-light hit: ties go to the light |
| Sensing.CastFromScans | script.js:281-325 | the two loops of castRay together give the ray `Cast` describes |
| Sensing.Cast | script.js:281-325 | a ray with no hit ends at its far end with no type; otherwise it ends at the candidate `ClosestIndex` names (no hit nearer, every earlier hit farther) and carries that candidate's type |
| Sensing.Fan | script.js:273-278 | the loop yields exactly one ray per step |
| Sensing.FanAt | script.js:273-278 | ray `k` of the fan is castRay at the k-th heading |
| Sensing.DetectedOf | script.js:319-321 | there are never more detections than rays |
| Sensing.DetectedMatchesHits | script.js:319-321 | there is exactly one detection per ray that hit |
| Sensing.ScanLights | script.js:296-305 | the traffic-light loop leaves the scan's choice over the light hits |
| Sensing.ScanObstacles | script.js:308-317 | the obstacle loop continues that scan over the obstacle hits |
| Sensing.Sensors.constructor | script.js:258-265 | empty `rays` and `detected` |
| Sensing.Sensors.CastRay | script.js:281-325 | the returned ray is `Cast`; a kept hit is pushed onto `detected`, and nothing else changes |
| Sensing.Sensors.Update | script.js:267-279 | `rays` is the fan of 36 cast rays, in order, and `detected` holds the hits of those rays in ray order |
| Driving.ScanMeaning | script.js:120-141 | obstacle ahead iff some detection is an obstacle in the car's lane and ahead; stop iff some detection is a red light in the lane and ahead, and then the last such one is remembered |
| Driving.LastRedNotNearest | script.js:131-141 | with two red lights ahead, the car stops for the later-listed, farther one |
| Driving.Choose | script.js:144-174 | `stopped` iff a red light is remembered, with the target lane kept and the speed never up; else, with an obstacle ahead, the left lane when free and there is one, else the right lane when free and there is one (speed kept), else the speed drops by one step down to 0; else cruise with `targetLane := currentLane` and one acceleration step while below maxSpeed |
| Driving.Decide | script.js:113-187 | decideMovement leaves x and maxSpeed alone; `stopped` iff a red light is remembered; the current lane changes only by landing on the target lane; speed stays non-negative, never rises with a red light or obstacle ahead, and exceeds maxSpeed by at most one acceleration step |
| Driving.BrakeRule | script.js:144-151 | with `h` the distance to the remembered red light, the speed drops by one step (down to 0) iff `h <= speed²/(2·0.2) + 20`, and is kept otherwise |
| Driving.SquaredCompare | script.js:147-148 | comparing squared distances gives the same braking decision as comparing distances |
| Driving.StopThresholdAtSpeedTwo | script.js:144-151 | at speed 2 the threshold is 30: brake for a red light 30 ahead, not 31 |
| Driving.LaneChangeIntoOccupiedLane | script.js:152-166 | isLaneFree looks at the car's own lane: the car moves into a lane with an obstacle right beside it |
| Driving.NearObstacleBlocksLaneChange | script.js:152-166 | an obstacle within 150 in the car's own lane rules out both lane changes, so decideMovement lowers the speed by one step, which move gives back |
| Driving.BlockedTickKeepsSpeed | script.js:152-166 | over a whole tick a blocked car at speed at least 0.2 keeps its speed: decideMovement takes a step off and move adds it back |
| Driving.Steer | script.js:176-186 | away from the target centre by more than 1, y covers 5% of the gap and the lane is kept; otherwise y snaps to the centre and the target lane becomes current |
| Driving.SteerConverges | script.js:176-186 | each step that does not land shrinks the gap by the factor 0.95 |
| Driving.SteerKeepsLanes | script.js:176-186 | the lane-change step keeps both lanes on the road, at most one apart, and y between the outer lane centres |
| Driving.Advance | script.js:209-218 | a driving car's speed rises towards maxSpeed (never falls while at most maxSpeed) and a stopped car's falls towards 0 (never rises); speed stays in [0, maxSpeed] and moves by at most one acceleration step; x grows by the new speed |
| Driving.PlayerTick | script.js:102-111 | over one update x grows by the new speed, the car is `stopped` iff a red light is remembered, and a speed in [0, maxSpeed] stays there |
| Driving.TickKeepsOk | script.js:102-111 | a player's tick keeps speed, lanes and y in their bounds |
| Driving.CruiseAcceleratesTwice | script.js:167-174 | cruising adds the acceleration twice per tick (decideMovement and move), capped at maxSpeed |
| Driving.RedLightBrakes | script.js:144-151 | with a red light to stop for, speed drops by at least one acceleration step per tick, down to 0 |
| Driving.Car.constructor | script.js:80-96 | speed 0, maxSpeed 4 for the player (else 2), lane from `getLaneIndex(y)`, `driving`, empty sensors; a car placed on the road starts in bounds |
| Driving.Car.ScanDetected | script.js:120-142 | the forEach over `detected` yields `ScanDetections` |
| Driving.Car.IsLaneFree | script.js:189-207 | false iff an obstacle in the car's own lane is within 150 along x, or a red light there within 500; `targetLane` plays no part |
| Driving.Car.ChooseAction | script.js:144-174 | the new state is `Choose` of the old one |
| Driving.Car.ChangeLane | script.js:176-186 | the new state is `Steer` of the old one |
| Driving.Car.DecideMovement | script.js:113-187 | the new state is `Decide` of the old state, the detections and isLaneFree's answer |
| Driving.Car.Move | script.js:209-218 | the new state is `Advance` of the old one |
| Driving.Car.MoveTowardsPlayer | script.js:220-223 | x decreases by the speed; nothing else changes |
| Driving.Car.Update | script.js:102-111 | the player refreshes its sensors at its old position, then its state is `PlayerTick`; any other car only drifts left |
| Simulation.LightsAheadMeaning | script.js:601 | the filter keeps exactly the lights strictly past `camera.x - CANVAS_WIDTH`, never lengthening the list |
| Simulation.KeptDistinct | script.js:601 | filtering a list without repeats gives a list without repeats |
| Simulation.PlacementsFirst | script.js:605 | the first new light goes 1800 to 2400 past the last kept light, or 1500 to 3300 past the view's right edge when none is left |
| Simulation.PlacementsSpacing | script.js:602-608 | each further new light goes 1800 to 2400 past the one before |
| Simulation.PlacementsOnLanes | script.js:602-608 | every new light stands on a lane centre of the road |
| Simulation.PlacementsAhead | script.js:602-608 | every new light stands past the cutoff |
| Simulation.RefilledAhead | script.js:601-608 | after the refill every light, kept or new, stands past the cutoff |
| Simulation.RefillLights | script.js:602-608 | the list grows to 12 lights, the kept ones first and unchanged; new light `k` stands where draw `k` places it; repeats never appear; each new light is green at the start of its cycle |
| Simulation.RefreshLights | script.js:601-608 | filter, then refill: the kept lights first, in order, then new lights placed by the draws, up to 12; no repeats, all past the cutoff, all showing the colour their state index names; every new light is a fresh object, green at the start of its cycle |
| Simulation.TickLights | script.js:592 | each light's phase is `Tick` of its old phase |
| Simulation.UpdateObstacles | script.js:598 | each obstacle drifts or respawns as `ObstacleCar.update` says |
| Simulation.ResetBehind | script.js:611-615 | a car not behind the view is left alone; a car behind it gets the x, y and speed its draw gives, as `ObstacleCar.resetPosition` sets them; afterwards none is behind it |
| Simulation.MoveObstacles | script.js:598-615 | after both passes each car ends as its own update left it, and none is behind the view |
| Simulation.SpawnObstacles | script.js:567-574 | eight new distinct 40 by 20 cars, car `k` placed by draw `k` |
| Simulation.PlaceFirstLights | script.js:577-582 | one new green light per lane, 1800 apart, the first 1500 past the view's right edge |
| Simulation.DrivePlayer | script.js:595 | the player's sensors hold the fan of rays cast from its old position over the lights and obstacles as they stood (view `k` is light `k`, obstacle `k`), and the detections are those rays' hits; its state becomes `PlayerTick` of its old state, the scan of those detections and isLaneFree's answer over the same views, and stays in bounds |
| Simulation.TickThenDrive | script.js:592-595 | each light's phase is `Tick` of its old one; then the player's sensors hold the fan over the ticked lights and the obstacles, and its state is `PlayerTick` of the scan and isLaneFree's answer over those views |
| Simulation.World.constructor | script.js:555-583 | camera at x 0 on the middle lane; player 100 inside the view's left edge, in the middle lane, at rest; 8 obstacles and 4 lights placed as above |
| Simulation.World.MoveAgents | script.js:590-598 | each light's phase is `Tick` of its old one; the player's sensors hold the fan over the ticked lights and the obstacles before they move, the detections are its hits, and the player's state is `PlayerTick` of its old state, the scan of those detections and isLaneFree's answer over the same views; obstacles drift or respawn; the frame invariant `Valid` is kept |
| Simulation.World.RefreshAndFollow | script.js:600-621 | the lights are the old ones past the cutoff of the old camera, in order, then the placed new ones, fresh and green at the start of their cycle, at least 12, no repeats, all past the cutoff; then the camera moves to the player and the middle lane |
| Simulation.World.Tick | script.js:590-621 | `Valid` is kept: the player in bounds, no light or obstacle listed twice, every light consistent; every old light's phase is `Tick` of its old one; the player's sensors hold the fan over view `k` of old light `k` after its tick and of obstacle `k` before it moves, the detections are its hits, and its state is `PlayerTick` of its old state, the scan and isLaneFree's answer over those views; obstacles as above; the lights are the old ones past the cutoff, in order, followed by the placed new ones, fresh and green at the start of their cycle, at least 12, all past the cutoff; the camera follows the player |

## Left out

- Drawing: every `draw` method, `drawRoads`, `drawEntities`, the canvas context and the camera-to-screen transforms. They only render.
- `animate` and `requestAnimationFrame`: the frame loop is the caller's, and `deltaTime` is a parameter of `World.Tick`.
- The canvas size comes from the page. `CANVAS_WIDTH` and `CANVAS_HEIGHT` are fixed at 800 and 600, and no property depends on the values chosen.
- `Math.random`: every draw is a parameter in [0, 1). `getRandomColor` and the colour fields are left out because no decision reads them.
- `Math.sin`, `Math.cos` and `Math.sqrt` are caller-supplied functions. `Math.hypot` is replaced by the squared distance, so comparisons of distances become comparisons of their squares (`Driving.SquaredCompare`).
- IEEE-754 rounding, overflow and NaN are not modelled. The one NaN the code can meet, `0/0` for a ray of length zero in the circle test, fails every comparison, so it is modelled as no hit.
- `Infinity`, the starting `minDist` of castRay, is modelled as "no candidate yet".
- `Car.resetPosition` is never called: only obstacle cars are respawned, by `ObstacleCar.resetPosition`.
- `friction`, `LANE_PADDING` and the `world` object are never read. `closestObstacleDistance` in `decideMovement` is computed but never read. The `currentLane`, `targetLane` and `state` fields that `ObstacleCar.resetPosition` sets are never read either.
- The `car` back-reference of `Sensors` is replaced by the car's position and heading, passed in by `Car.Update`. The copy of `rayLength` set on `Sensors.prototype` holds the same value, 500.
- Simulation.World.Tick: the second obstacle pass is run right after the first, before the light filter and refill, not after them. The two touch disjoint objects, so the end state is the same.
- Driving.Car.MoveTowardsPlayer: `moveTowardsPlayer` (script.js:220-223) is only ever called for cars that are not the player, which play no part in the simulated world; it is modelled for completeness, because `Driving.Car.Update` calls it on such cars.

## Behaviour followed as the code has it

- `isLaneFree(targetLane, …)` never reads `targetLane`. It tests the car's own lane, so it answers the same for both neighbours. It also says no whenever the obstacle the car is about to pass is within 150 (`Driving.NearObstacleBlocksLaneChange`).
- The remembered red light is the last one in `detected` order, not the nearest (`Driving.LastRedNotNearest`).
- The rectangle test reports the first side in the order top, right, bottom, left, not the nearest (`Obstacles.FirstHitNotNearest`).
- A stopped car slows down in `move` even when `decideMovement` did not brake, because `move` takes an acceleration step off any car in the `stopped` state.
- A cruising car accelerates twice per tick, once in `decideMovement` and once in `move` (`Driving.CruiseAcceleratesTwice`).
- A car that has an obstacle ahead and cannot change lane does not slow down over a tick. `decideMovement` takes an acceleration step off, and `move`, with the car still `driving`, adds it back (`Driving.BlockedTickKeepsSpeed`).
- `getLaneIndex` does not clamp: a `y` off the road gives a lane number outside 0..3.
- A traffic light changes colour only when the timer is strictly over the duration, so the timer may sit exactly at the duration. One update moves at most one colour on, and the excess time is dropped.
