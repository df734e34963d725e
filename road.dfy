/**
 * Road layout: lanes stacked vertically between two grass strips
 * (script.js, the lane constants, getLaneCenter and Car.getLaneIndex).
 */
module Road {
  // The canvas size comes from the page; any positive size will do, and no
  // property below depends on the values chosen here.
  const CANVAS_WIDTH: real := 800.0
  const CANVAS_HEIGHT: real := 600.0

  const ROAD_HEIGHT: real := 400.0
  const LANE_COUNT: int := 4
  const LANE_HEIGHT: real := ROAD_HEIGHT / LANE_COUNT as real
  const GRASS_HEIGHT: real := (CANVAS_HEIGHT - ROAD_HEIGHT) / 2.0

  /**
   * getLaneIndex: the lane whose horizontal band holds `y`, by rounding
   * down. There is no clamping: a `y` above or below the road gives an index
   * outside 0 .. LANE_COUNT - 1.
   */
  function LaneIndex(y: real): (lane: int)
    ensures GRASS_HEIGHT + lane as real * LANE_HEIGHT <= y < GRASS_HEIGHT + (lane + 1) as real * LANE_HEIGHT
  {
    ((y - GRASS_HEIGHT) / LANE_HEIGHT).Floor
  }

  /** getLaneCenter: the y in the middle of the lane's band. */
  function LaneCenter(lane: int): (y: real) {
    GRASS_HEIGHT + LANE_HEIGHT / 2.0 + lane as real * LANE_HEIGHT
  }

  /**
   * getLaneIndex undoes getLaneCenter, and the centre of a lane of the road
   * lies on the road.
   */
  lemma LaneIndexOfCenter(lane: int)
    ensures LaneIndex(LaneCenter(lane)) == lane
    ensures IsLane(lane) ==> GRASS_HEIGHT < LaneCenter(lane) < GRASS_HEIGHT + ROAD_HEIGHT
  {
  }

  /** A lane number the road has. */
  predicate IsLane(lane: int) {
    0 <= lane < LANE_COUNT
  }

  /** Lane centres are ordered like their lanes. */
  lemma LaneCenterMonotone(i: int, j: int)
    requires i <= j
    ensures LaneCenter(i) <= LaneCenter(j)
  {
  }

  /** Between the outermost lane centres, the lane index is a lane of the road. */
  lemma LaneIndexOnRoad(y: real)
    requires LaneCenter(0) <= y <= LaneCenter(LANE_COUNT - 1)
    ensures IsLane(LaneIndex(y))
  {
  }
}
