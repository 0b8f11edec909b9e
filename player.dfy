/** The player's ship (spaceio/classes/Player.ts). */
module Players {
  import opened Numerics
  import opened Types
  import opened Constants
  import opened Physics
  import opened SpaceObjects

  /** Within this distance of the mouse the ship is not accelerated. */
  const DEAD_ZONE: real := 5.0
  /** The fraction of the speed added per tick towards the mouse. */
  const ACCELERATION: real := 0.15
  /** The factor a wall bounce keeps of the velocity. */
  const BOUNCE_REDUCTION: real := 0.4

  /**
   * What updatePlayer's steering and friction do to the velocity (vx, vy)
   * for a mouse at offset (dx, dy): inside the dead zone the velocity is only
   * multiplied by FRICTION; outside it, before friction, an acceleration of
   * length speed * ACCELERATION pointing at the mouse is added.
   */
  ghost predicate Steered(vx: real, vy: real, dx: real, dy: real, speed: real, rx: real, ry: real)
  {
    if dx * dx + dy * dy <= DEAD_ZONE * DEAD_ZONE then
      rx == vx * FRICTION && ry == vy * FRICTION
    else
      var ax, ay := rx / FRICTION - vx, ry / FRICTION - vy;
      && ax * ax + ay * ay == (speed * ACCELERATION) * (speed * ACCELERATION)
      && ax * dy == ay * dx && 0.0 <= ax * dx && 0.0 <= ay * dy
  }

  /** The velocity after steering towards (dx, dy) and applying friction. */
  function SteerComponent(v: real, d: real, distance: real, speed: real): real
    requires 0.0 < distance
  {
    (v + d / distance * speed * ACCELERATION) * FRICTION
  }

  /**
   * The steering arithmetic of updatePlayer: accelerating by speed *
   * ACCELERATION along the unit vector (dx, dy) / distance outside the dead
   * zone, then applying friction, meets Steered.
   */
  lemma {:induction false} SteerMeetsSteered(vx: real, vy: real, dx: real, dy: real, distance: real, speed: real)
    requires 0.0 <= distance && distance * distance == dx * dx + dy * dy && 0.0 <= speed
    ensures distance > DEAD_ZONE ==>
      Steered(vx, vy, dx, dy, speed, SteerComponent(vx, dx, distance, speed), SteerComponent(vy, dy, distance, speed))
    ensures distance <= DEAD_ZONE ==> Steered(vx, vy, dx, dy, speed, vx * FRICTION, vy * FRICTION)
  {
    SquareLessIff(DEAD_ZONE, distance);
    if distance > DEAD_ZONE {
      var len := speed * ACCELERATION;
      ScaleToLength(dx, dy, distance, len);
      AccelerationStep(vx, dx, distance, speed);
      AccelerationStep(vy, dy, distance, speed);
    }
  }

  /** Undoing the friction of SteerComponent leaves the acceleration dx * (speed * ACCELERATION / distance). */
  lemma AccelerationStep(v: real, d: real, distance: real, speed: real)
    requires 0.0 < distance
    ensures SteerComponent(v, d, distance, speed) / FRICTION - v == d * (speed * ACCELERATION / distance)
  {
    var t := d / distance * speed * ACCELERATION;
    assert t == d * (speed * ACCELERATION / distance);
    assert (v + t) * FRICTION / FRICTION == v + t;
  }

  /**
   * One axis of updatePlayer's boundary handling: the low-edge test and then
   * the high-edge test, each clamping the coordinate and pointing the
   * velocity back into the world at BOUNCE_REDUCTION of its magnitude.
   */
  function BounceWall(p: real, v: real, size: real): (r: (real, real))
    ensures size <= p <= WORLD_SIZE - size ==> r == (p, v)
    ensures 2.0 * size <= WORLD_SIZE ==> size <= r.0 <= WORLD_SIZE - size
    ensures p < size && 2.0 * size <= WORLD_SIZE ==> r == (size, Abs(v) * BOUNCE_REDUCTION) && 0.0 <= r.1
    ensures p > WORLD_SIZE - size ==> r.0 == WORLD_SIZE - size && r.1 <= 0.0
    ensures Abs(r.1) <= Abs(v)
  {
    var low := if p < size then (size, Abs(v) * BOUNCE_REDUCTION) else (p, v);
    if low.0 > WORLD_SIZE - size then (WORLD_SIZE - size, -Abs(low.1) * BOUNCE_REDUCTION) else low
  }

  /** A bounce on each axis never takes a velocity over a cap it was under. */
  lemma BounceKeepsSpeedCap(x: real, y: real, vx: real, vy: real, size: real, cap: real, wx: real, wy: real)
    requires vx * vx + vy * vy <= cap * cap
    requires wx == BounceWall(x, vx, size).1 && wy == BounceWall(y, vy, size).1
    ensures wx * wx + wy * wy <= cap * cap
  {
    SquareMono(wx, vx);
    SquareMono(wy, vy);
  }

  /** The speed cap survives the bounce that follows it. */
  lemma LimitThenBounceWithinCap(sx: real, sy: real, cap: real, cx: real, cy: real, px: real, py: real, size: real, wx: real, wy: real)
    requires SpeedLimited(sx, sy, cap, cx, cy)
    requires wx == BounceWall(px, cx, size).1 && wy == BounceWall(py, cy, size).1
    ensures wx * wx + wy * wy <= cap * cap
  {
    SpeedLimitedWithinCap(sx, sy, cap, cx, cy);
    BounceKeepsSpeedCap(px, py, cx, cy, size, cap, wx, wy);
  }

  /** min(25, max(10, floor(size / 2))): how many trail points are kept. */
  function TrailCap(size: real): (n: nat)
    ensures 10 <= n <= 25
    ensures 10 <= Floor(size / 2.0) <= 25 ==> n == Floor(size / 2.0)
  {
    var half := Floor(size / 2.0);
    if half > 25 then 25 else if half < 10 then 10 else half
  }

  /**
   * updatePlayer's trail step: the new position is put in front, and the
   * oldest point is dropped once the trail is longer than TrailCap(size).
   */
  function PushTrail(trail: seq<Point>, p: Point, size: real): (t: seq<Point>)
    ensures |trail| <= |t| <= |trail| + 1
    ensures 0 < |t| && t[0] == p
    ensures t[1..] == trail[..|t| - 1]
    ensures |trail| <= TrailCap(size) ==> |t| <= TrailCap(size)
    ensures |trail| < TrailCap(size) ==> t == [p] + trail
  {
    var pushed := [p] + trail;
    if |pushed| > TrailCap(size) then pushed[..|pushed| - 1] else pushed
  }

  /** updatePlayer's glow: 0.6 + 0.2 sin(t) + 0.1 sin(1.7 t), t = now * 0.008. */
  function Glow(m: Math, now: int): (g: real)
    requires Lawful(m)
    ensures 0.3 <= g <= 0.9
  {
    var time := now as real * 0.008;
    assert TrigBounded(m, time) && TrigBounded(m, time * 1.7);
    0.6 + m.sin(time) * 0.2 + m.sin(time * 1.7) * 0.1
  }

  /** sqrt(mass / PI) * 2: the diameter of a disc whose area is the mass. */
  function BaseSize(m: Math, mass: real): (size: real)
    requires Lawful(m)
    ensures 0.0 <= mass ==> 0.0 <= size && MassOfSize(size / 2.0) == mass
  {
    assert 0.0 <= mass ==> RootAt(m, mass / PI);
    m.sqrt(mass / PI) * 2.0
  }

  /** Growing never shrinks the ship. */
  lemma {:induction false} BaseSizeMonotone(m: Math, mass1: real, mass2: real)
    requires Lawful(m) && 0.0 <= mass1 <= mass2
    ensures BaseSize(m, mass1) <= BaseSize(m, mass2)
  {
    var r1, r2 := m.sqrt(mass1 / PI), m.sqrt(mass2 / PI);
    assert RootAt(m, mass1 / PI) && RootAt(m, mass2 / PI);
    SquareLessIff(r2, r1);
  }

  class Player {
    var x: real
    var y: real
    var size: real
    var mass: real
    var vx: real
    var vy: real
    var trail: seq<Point>
    var glowIntensity: real
    var powerUps: Timers

    /** Both coordinates are within [size, WORLD_SIZE - size]. */
    ghost predicate InWorld()
      reads this
    {
      size <= x <= WORLD_SIZE - size && size <= y <= WORLD_SIZE - size
    }

    /** The speed updatePlayer accelerates with and caps at, from the mass and the speed-boost timer. */
    function MaxSpeed(m: Math): (r: real)
      reads this`mass, this`powerUps
      ensures 0.0 < r <= MAX_SPEED
    {
      CalculateSpeed(m, mass, powerUps.speedBoost > 0)
    }

    /** The player createPlayer returns: at the centre of the world, size 25, mass 100, at rest, no trail, glow or power-ups. */
    ghost predicate Created()
      reads this
    {
      && x == WORLD_SIZE / 2.0 && y == WORLD_SIZE / 2.0
      && size == PLAYER_START_SIZE && mass == 100.0
      && vx == 0.0 && vy == 0.0 && trail == [] && glowIntensity == 0.0
      && powerUps == Timers(0, 0, 0, 0)
    }

    /** createPlayer, which starts inside the world. */
    constructor ()
      ensures Created() && InWorld()
    {
      x := WORLD_SIZE / 2.0;
      y := WORLD_SIZE / 2.0;
      size := PLAYER_START_SIZE;
      mass := 100.0;
      vx := 0.0;
      vy := 0.0;
      trail := [];
      glowIntensity := 0.0;
      powerUps := Timers(0, 0, 0, 0);
    }

    /** The steering and friction steps of updatePlayer. */
    method SteerTowards(m: Math, speed: real, mouseX: real, mouseY: real)
      requires Lawful(m) && 0.0 < speed
      modifies this`vx, this`vy
      ensures Steered(old(vx), old(vy), mouseX - x, mouseY - y, speed, vx, vy)
    {
      var dx, dy := mouseX - x, mouseY - y;
      var distance := m.sqrt(dx * dx + dy * dy);
      VectorLength(m, dx, dy);
      ghost var vx0, vy0 := vx, vy;
      if distance > DEAD_ZONE {
        var directionX, directionY := dx / distance, dy / distance;
        vx := vx + directionX * speed * ACCELERATION;
        vy := vy + directionY * speed * ACCELERATION;
      }
      vx := vx * FRICTION;
      vy := vy * FRICTION;
      SteerMeetsSteered(vx0, vy0, dx, dy, distance, speed);
    }

    /**
     * The speed cap of updatePlayer: faster than MaxSpeed, the velocity is
     * scaled by MaxSpeed / current speed; this is the rule of limitVelocity.
     */
    method ClampSpeed(m: Math, maxSpeed: real)
      requires Lawful(m) && 0.0 < maxSpeed
      modifies this`vx, this`vy
      ensures SpeedLimited(old(vx), old(vy), maxSpeed, vx, vy) == true
    {
      var currentSpeed := m.sqrt(vx * vx + vy * vy);
      VectorLength(m, vx, vy);
      ghost var vx0, vy0 := vx, vy;
      if currentSpeed > maxSpeed {
        var scale := maxSpeed / currentSpeed;
        vx := vx * scale;
        vy := vy * scale;
      }
      ScaleIsLimit(vx0, vy0, currentSpeed, maxSpeed);
    }

    /** The move and boundary steps of updatePlayer: each axis moves by its velocity, then bounces per BounceWall. */
    method MoveAndBounce()
      modifies this`x, this`y, this`vx, this`vy
      ensures (x, vx) == BounceWall(old(x) + old(vx), old(vx), size)
      ensures (y, vy) == BounceWall(old(y) + old(vy), old(vy), size)
    {
      x := x + vx;
      y := y + vy;
      if x < size {
        x := size;
        vx := Abs(vx) * BOUNCE_REDUCTION;
      }
      if x > WORLD_SIZE - size {
        x := WORLD_SIZE - size;
        vx := -Abs(vx) * BOUNCE_REDUCTION;
      }
      if y < size {
        y := size;
        vy := Abs(vy) * BOUNCE_REDUCTION;
      }
      if y > WORLD_SIZE - size {
        y := WORLD_SIZE - size;
        vy := -Abs(vy) * BOUNCE_REDUCTION;
      }
    }

    /**
     * updatePlayer: steer towards the mouse, apply friction, cap the speed,
     * move, bounce off the walls, extend the trail and refresh the glow. The
     * ghost results are the velocity after friction and after the cap.
     */
    method Update(m: Math, mouseX: real, mouseY: real, now: int) returns (ghost steered: (real, real), ghost capped: (real, real))
      requires Lawful(m)
      modifies this
      ensures size == old(size) && mass == old(mass) && powerUps == old(powerUps)
      ensures Steered(old(vx), old(vy), mouseX - old(x), mouseY - old(y), MaxSpeed(m), steered.0, steered.1)
      ensures SpeedLimited(steered.0, steered.1, MaxSpeed(m), capped.0, capped.1)
      ensures (x, vx) == BounceWall(old(x) + capped.0, capped.0, size)
      ensures (y, vy) == BounceWall(old(y) + capped.1, capped.1, size)
      ensures 2.0 * size <= WORLD_SIZE ==> InWorld()
      ensures trail == PushTrail(old(trail), Point(x, y), size)
      ensures glowIntensity == Glow(m, now)
    {
      var speed := MaxSpeed(m);
      SteerTowards(m, speed, mouseX, mouseY);
      steered := (vx, vy);
      ClampSpeed(m, speed);
      capped := (vx, vy);
      MoveAndBounce();
      trail := PushTrail(trail, Point(x, y), size);
      glowIntensity := Glow(m, now);
      assert speed == MaxSpeed(m);
    }

    /**
     * initGame's `playerRef.current = createPlayer()`, done in place: every
     * field takes createPlayer's value.
     */
    method Reset()
      modifies this
      ensures Created() && InWorld()
    {
      x := WORLD_SIZE / 2.0;
      y := WORLD_SIZE / 2.0;
      size := PLAYER_START_SIZE;
      mass := 100.0;
      vx := 0.0;
      vy := 0.0;
      trail := [];
      glowIntensity := 0.0;
      powerUps := Timers(0, 0, 0, 0);
    }

    /** growPlayer: add the mass, then recompute the size, enlarged by 1.3 while the size power-up runs. */
    method Grow(m: Math, amount: real)
      requires Lawful(m)
      modifies this`mass, this`size
      ensures mass == old(mass) + amount
      ensures powerUps.sizeMultiplier > 0 ==> size == BaseSize(m, mass) * 1.3
      ensures powerUps.sizeMultiplier <= 0 ==> size == BaseSize(m, mass)
    {
      mass := mass + amount;
      size := BaseSize(m, mass);
      if powerUps.sizeMultiplier > 0 {
        size := size * 1.3;
      }
    }
  }
}
