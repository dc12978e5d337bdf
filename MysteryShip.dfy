/**
 * The bonus saucer (src/games/galactic-assault/MysteryShip.ts): after a random wait of 18 to 30
 * seconds it crosses the screen from a random side at a random speed, worth 200, 300 or 500
 * points. Each `Math.random()` draw is an argument; `y`, `width` and `height` are never
 * reassigned and are constants here.
 */
module Mystery {
  import opened Types
  import opened Maths

  const MYSTERY_SHIP_Y: real := 32.0
  const MYSTERY_SHIP_WIDTH: real := 40.0
  const MYSTERY_SHIP_HEIGHT: real := 18.0
  const SPAWN_MIN: real := 18.0
  const SPAWN_MAX: real := 30.0
  const SPEED_MIN: real := 120.0
  const SPEED_MAX: real := 180.0
  const MYSTERY_POINTS: seq<int> := [200, 300, 500]

  /** The wait before the next pass: 18 up to (not including) 30 seconds. */
  function SpawnDelay(r: real): (t: real)
    requires 0.0 <= r < 1.0
    ensures SPAWN_MIN <= t < SPAWN_MAX
  {
    RandomRange(SPAWN_MIN, SPAWN_MAX, r)
  }

  /** Left-to-right (1) for draws below one half, right-to-left (-1) otherwise. */
  function DirectionFor(r: real): (d: int)
    ensures d == 1 <==> r < 0.5
    ensures d == 1 || d == -1
  {
    if r < 0.5 then 1 else -1
  }

  /** The score of a pass, each of the three values taking a third of the draws. */
  function PointsFor(r: real): (p: int)
    requires 0.0 <= r < 1.0
    ensures p in MYSTERY_POINTS
    ensures r < 1.0 / 3.0 ==> p == 200
    ensures 1.0 / 3.0 <= r < 2.0 / 3.0 ==> p == 300
    ensures 2.0 / 3.0 <= r ==> p == 500
  {
    var i := PickIndex(r, |MYSTERY_POINTS|);
    assert i == (r * 3.0).Floor;
    MYSTERY_POINTS[i]
  }

  /** Where a pass starts: one ship width beyond the edge it enters from. */
  function EntryX(direction: int, width: real): (x: real)
    ensures width > 0.0 && direction == 1 ==> x + width / 2.0 < 0.0
    ensures width > 0.0 && direction != 1 ==> x - width / 2.0 > CANVAS_W
  {
    if direction == 1 then -width else CANVAS_W + width
  }

  /** Whether a ship at `x` heading in `direction` has left the screen for good. */
  predicate PassOver(direction: int, x: real, width: real) {
    (direction == 1 && x > CANVAS_W + width) || (direction == -1 && x < -width)
  }

  class MysteryShip {
    var x: real
    const y: real
    const width: real
    const height: real
    var active: bool
    var direction: int
    var speed: real
    var points: int
    var spawnTimer: real
    var animPhase: real

    /** A direction is always one of the two, an idle ship is waiting a positive time, and a ship
        in flight has a speed and a score from the drawn ranges. */
    predicate Valid()
      reads this
    {
      && Shaped()
      && (!active ==> spawnTimer > 0.0)
      && (active ==> points in MYSTERY_POINTS && SPEED_MIN <= speed < SPEED_MAX)
    }

    /** The fixed dimensions and a direction that is one of the two. */
    predicate Shaped()
      reads this
    {
      && y == MYSTERY_SHIP_Y && width == MYSTERY_SHIP_WIDTH && height == MYSTERY_SHIP_HEIGHT
      && (direction == 1 || direction == -1)
    }

    constructor (rTimer: real)
      requires 0.0 <= rTimer < 1.0
      ensures Valid()
      ensures x == 0.0 && !active && direction == 1 && speed == 0.0 && points == 0 && animPhase == 0.0
      ensures spawnTimer == SpawnDelay(rTimer)
    {
      x, y, width, height := 0.0, MYSTERY_SHIP_Y, MYSTERY_SHIP_WIDTH, MYSTERY_SHIP_HEIGHT;
      active, direction, speed, points, animPhase := false, 1, 0.0, 0, 0.0;
      spawnTimer := RandomRange(SPAWN_MIN, SPAWN_MAX, rTimer);
    }

    /** Grounds the ship and starts a new wait. */
    method Reset(rTimer: real)
      requires Valid() && 0.0 <= rTimer < 1.0
      modifies this
      ensures Valid()
      ensures !active && spawnTimer == SpawnDelay(rTimer)
      ensures x == old(x) && direction == old(direction) && speed == old(speed)
      ensures points == old(points) && animPhase == old(animPhase)
    {
      active := false;
      ResetTimer(rTimer);
    }

    method ResetTimer(rTimer: real)
      requires 0.0 <= rTimer < 1.0
      modifies this
      ensures spawnTimer == SpawnDelay(rTimer)
      ensures x == old(x) && active == old(active) && direction == old(direction)
      ensures speed == old(speed) && points == old(points) && animPhase == old(animPhase)
    {
      spawnTimer := RandomRange(SPAWN_MIN, SPAWN_MAX, rTimer);
    }

    /** Launches a pass from the side chosen by `rDir`, with a speed and a score drawn next. */
    method Spawn(rDir: real, rSpeed: real, rPoints: real)
      requires Shaped()
      requires 0.0 <= rDir < 1.0 && 0.0 <= rSpeed < 1.0 && 0.0 <= rPoints < 1.0
      modifies this
      ensures Valid()
      ensures active && direction == DirectionFor(rDir) && x == EntryX(direction, width)
      ensures speed == RandomRange(SPEED_MIN, SPEED_MAX, rSpeed) && points == PointsFor(rPoints)
      ensures animPhase == 0.0 && spawnTimer == old(spawnTimer)
    {
      active := true;
      direction := if rDir < 0.5 then 1 else -1;
      x := if direction == 1 then -width else CANVAS_W + width;
      speed := RandomRange(SPEED_MIN, SPEED_MAX, rSpeed);
      points := MYSTERY_POINTS[PickIndex(rPoints, |MYSTERY_POINTS|)];
      animPhase := 0.0;
    }

    /**
     * One frame. Idle: the wait runs down and the ship launches once it is over, taking the
     * draws `r0`, `r1`, `r2` for side, speed and score. In flight: the ship moves and, once past
     * the far edge by its width, lands and starts a new wait drawn from `r0`.
     */
    method Update(dt: real, r0: real, r1: real, r2: real)
      requires Valid()
      requires 0.0 <= r0 < 1.0 && 0.0 <= r1 < 1.0 && 0.0 <= r2 < 1.0
      modifies this
      ensures Valid()
      ensures !old(active) && old(spawnTimer) - dt > 0.0 ==>
        && !active && spawnTimer == old(spawnTimer) - dt
        && x == old(x) && direction == old(direction) && speed == old(speed)
        && points == old(points) && animPhase == old(animPhase)
      ensures !old(active) && old(spawnTimer) - dt <= 0.0 ==>
        && active && spawnTimer == old(spawnTimer) - dt
        && direction == DirectionFor(r0) && x == EntryX(direction, width)
        && speed == RandomRange(SPEED_MIN, SPEED_MAX, r1) && points == PointsFor(r2) && animPhase == 0.0
      ensures old(active) ==>
        && x == old(x) + old(speed) * old(direction) as real * dt
        && animPhase == old(animPhase) + dt
        && direction == old(direction) && speed == old(speed) && points == old(points)
        && (active <==> !PassOver(direction, x, width))
        && (active ==> spawnTimer == old(spawnTimer))
        && (!active ==> spawnTimer == SpawnDelay(r0))
    {
      if !active {
        spawnTimer := spawnTimer - dt;
        if spawnTimer <= 0.0 {
          Spawn(r0, r1, r2);
        }
        return;
      }
      x := x + speed * direction as real * dt;
      animPhase := animPhase + dt;
      if direction == 1 && x > CANVAS_W + width {
        active := false;
        ResetTimer(r0);
      } else if direction == -1 && x < -width {
        active := false;
        ResetTimer(r0);
      }
    }

    /** Shooting the ship grounds it, starts a new wait and scores its points; a ship in flight
        is worth 200, 300 or 500. */
    method Hit(rTimer: real) returns (scored: int)
      requires Valid() && 0.0 <= rTimer < 1.0
      modifies this
      ensures Valid()
      ensures scored == old(points) && !active && spawnTimer == SpawnDelay(rTimer)
      ensures old(active) ==> scored in MYSTERY_POINTS
      ensures x == old(x) && direction == old(direction) && speed == old(speed)
      ensures points == old(points) && animPhase == old(animPhase)
    {
      active := false;
      ResetTimer(rTimer);
      return points;
    }
  }

  /** A fresh ship stays idle for at least 18 seconds of frames, so one frame never launches it. */
  method IdleAtStart(rTimer: real, dt: real) returns (launched: bool)
    requires 0.0 <= rTimer < 1.0 && dt < SPAWN_MIN
    ensures !launched
  {
    var ship := new MysteryShip(rTimer);
    ship.Update(dt, 0.0, 0.0, 0.0);
    launched := ship.active;
  }
}
