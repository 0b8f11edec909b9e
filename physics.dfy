/** Speed, gravity, velocity cap, collision and zoom rules (spaceio/utils/physics.ts). */
module Physics {
  import opened Numerics
  import opened Constants
  import opened SpaceObjects

  /** max(4, 28 - log(mass/100 + 1) * 6) * BASE_SPEED_MULTIPLIER: the unboosted, uncapped speed. */
  function BaseSpeed(m: Math, mass: real): (r: real)
    ensures 4.0 * BASE_SPEED_MULTIPLIER <= r
  {
    Max(4.0, 28.0 - m.log(mass / 100.0 + 1.0) * 6.0) * BASE_SPEED_MULTIPLIER
  }

  /** calculateSpeed: the base speed, times 2.2 under a speed boost, capped at MAX_SPEED. */
  function CalculateSpeed(m: Math, mass: real, hasSpeedBoost: bool): (r: real)
    ensures 4.0 * BASE_SPEED_MULTIPLIER <= r <= MAX_SPEED
  {
    Min(MAX_SPEED, BaseSpeed(m, mass) * (if hasSpeedBoost then 2.2 else 1.0))
  }

  /** For the same mass, a boost never makes the player slower. */
  lemma SpeedBoostNeverSlower(m: Math, mass: real)
    ensures CalculateSpeed(m, mass, false) <= CalculateSpeed(m, mass, true)
  {
  }

  /** With a monotone log, speed is non-increasing in mass. */
  lemma {:induction false} SpeedNonIncreasingInMass(m: Math, mass1: real, mass2: real, hasSpeedBoost: bool)
    requires Lawful(m) && 0.0 <= mass1 <= mass2
    ensures CalculateSpeed(m, mass2, hasSpeedBoost) <= CalculateSpeed(m, mass1, hasSpeedBoost)
  {
    var a, b := mass1 / 100.0 + 1.0, mass2 / 100.0 + 1.0;
    assert 0.0 < a <= b;
    assert LogOrdered(m, a, b);
  }

  /** The gravity guard: 0 < sqrt(d2) < 200 exactly when 0 < d2 < 200^2. */
  lemma InGravityRange(m: Math, d2: real)
    requires Lawful(m) && 0.0 <= d2
    ensures (0.0 < m.sqrt(d2) < 200.0) <==> (0.0 < d2 < 40000.0)
  {
    SqrtLess(m, d2, 200.0);
    SqrtUnique(m, 0.0, 0.0);
    assert RootAt(m, d2);
  }

  /** The offsets applyGravity acts across: a squared distance strictly between 0 and 200^2. */
  predicate WithinGravity(dx: real, dy: real)
  {
    0.0 < dx * dx + dy * dy < 40000.0
  }

  /**
   * The velocity change applyGravity gives obj1 when obj2 lies at offset
   * (dx, dy) and has mass mass2: zero unless 0 < distance < 200, otherwise a
   * pull of GRAVITY_STRENGTH * mass2 / (distance^2 + 100) along the offset,
   * divided by max(mass1, 100).
   */
  function GravityPull(m: Math, dx: real, dy: real, mass1: real, mass2: real): (f: (real, real))
    requires Lawful(m)
    ensures !WithinGravity(dx, dy) ==> f == (0.0, 0.0)
    ensures f.0 * dy == f.1 * dx
    ensures 0.0 <= mass2 ==> 0.0 <= f.0 * dx && 0.0 <= f.1 * dy
    ensures 0.0 <= mass2 ==> Abs(f.0) <= GRAVITY_STRENGTH * mass2 / 10000.0 && Abs(f.1) <= GRAVITY_STRENGTH * mass2 / 10000.0
  {
    var d2 := dx * dx + dy * dy;
    var distance := m.sqrt(d2);
    VectorLength(m, dx, dy);
    InGravityRange(m, d2);
    if distance > 0.0 && distance < 200.0 then
      Pull(dx, dy, distance, mass1, mass2)
    else
      (0.0, 0.0)
  }

  /**
   * The pull inside the range, for the offset (dx, dy) of length distance:
   * the force GRAVITY_STRENGTH * mass2 / (distance^2 + 100) along the unit
   * offset, divided by max(mass1, 100).
   */
  function Pull(dx: real, dy: real, distance: real, mass1: real, mass2: real): (f: (real, real))
    requires 0.0 < distance && distance * distance == dx * dx + dy * dy
    ensures f.0 * dy == f.1 * dx
    ensures 0.0 <= mass2 ==> 0.0 <= f.0 * dx && 0.0 <= f.1 * dy
    ensures 0.0 <= mass2 ==> Abs(f.0) <= GRAVITY_STRENGTH * mass2 / 10000.0 && Abs(f.1) <= GRAVITY_STRENGTH * mass2 / 10000.0
  {
    SquareZeroIff(distance);
    var force := GRAVITY_STRENGTH * mass2 / (distance * distance + 100.0);
    var fx := dx / distance * force;
    var fy := dy / distance * force;
    var den := Max(mass1, 100.0);
    PullCollinear(dx, dy, distance, force, den);
    if 0.0 <= mass2 then
      PullComponent(dx, dy, distance, force, den, mass2);
      PullComponent(dy, dx, distance, force, den, mass2);
      (fx / den, fy / den)
    else
      (fx / den, fy / den)
  }

  /** The pull (dx, dy) / d * force / den points along (dx, dy). */
  lemma PullCollinear(dx: real, dy: real, d: real, force: real, den: real)
    requires 0.0 < d && 100.0 <= den
    ensures (dx / d * force / den) * dy == (dy / d * force / den) * dx
  {
    var k := force / d / den;
    Regroup(dx, d, force, den);
    Regroup(dy, d, force, den);
    assert dx * k * dy == dy * k * dx;
  }

  /** For a non-negative mass2, each component of the pull is towards (dx, dy) and at most GRAVITY_STRENGTH * mass2 / 100^2. */
  lemma PullComponent(a: real, b: real, d: real, force: real, den: real, mass2: real)
    requires 0.0 < d && d * d == a * a + b * b && 100.0 <= den && 0.0 <= mass2
    requires force == GRAVITY_STRENGTH * mass2 / (d * d + 100.0)
    ensures 0.0 <= (a / d * force / den) * a
    ensures Abs(a / d * force / den) <= GRAVITY_STRENGTH * mass2 / 10000.0
  {
    var k := force / d / den;
    Regroup(a, d, force, den);
    PullBound(d, force, den, mass2);
    ComponentBound(a, b, d, k, GRAVITY_STRENGTH * mass2 / 10000.0);
  }

  lemma Regroup(a: real, d: real, force: real, den: real)
    requires 0.0 < d && 0.0 < den
    ensures a / d * force / den == a * (force / d / den)
  {
  }

  /** The pull along the full distance, d * k, is at most GRAVITY_STRENGTH * mass2 / 100^2. */
  lemma PullBound(d: real, force: real, den: real, mass2: real)
    requires 0.0 < d && 100.0 <= den && 0.0 <= mass2
    requires force == GRAVITY_STRENGTH * mass2 / (d * d + 100.0)
    ensures 0.0 <= force / d / den
    ensures d * (force / d / den) <= GRAVITY_STRENGTH * mass2 / 10000.0
  {
    SquareZeroIff(d);
    assert 0.0 <= force <= GRAVITY_STRENGTH * mass2 / 100.0;
    assert d * (force / d / den) == force / den;
    assert force / den <= force / 100.0;
  }

  /** One component of the pull: a * k, with |a| at most the distance d. */
  lemma ComponentBound(a: real, b: real, d: real, k: real, bound: real)
    requires 0.0 < d && d * d == a * a + b * b && 0.0 <= k && d * k <= bound
    ensures 0.0 <= a * k * a
    ensures Abs(a * k) <= bound
  {
    SquareZeroIff(a);
    SquareZeroIff(b);
    assert a * k * a == (a * a) * k;
    SquareLessIff(d, Abs(a));
    assert Abs(a) * Abs(a) == a * a;
    assert Abs(a * k) == Abs(a) * k;
    assert Abs(a) * k <= d * k;
  }

  /** applyGravity: only obj1's velocity changes, by GravityPull. */
  method ApplyGravity(m: Math, obj1: SpaceObject, x2: real, y2: real, mass2: real)
    requires Lawful(m)
    modifies obj1`vx, obj1`vy
    ensures var f := GravityPull(m, x2 - obj1.x, y2 - obj1.y, obj1.mass, mass2);
      obj1.vx == old(obj1.vx) + f.0 && obj1.vy == old(obj1.vy) + f.1
  {
    var f := GravityPull(m, x2 - obj1.x, y2 - obj1.y, obj1.mass, mass2);
    obj1.vx := obj1.vx + f.0;
    obj1.vy := obj1.vy + f.1;
  }

  /**
   * What limitVelocity promises of (rx, ry) for the velocity (vx, vy): a
   * velocity no faster than maxSpeed is kept; a faster one becomes a vector
   * of length maxSpeed in the same direction.
   */
  ghost predicate SpeedLimited(vx: real, vy: real, maxSpeed: real, rx: real, ry: real)
  {
    if vx * vx + vy * vy <= maxSpeed * maxSpeed then
      rx == vx && ry == vy
    else
      && rx * rx + ry * ry == maxSpeed * maxSpeed
      && rx * vy == ry * vx && 0.0 <= rx * vx && 0.0 <= ry * vy
  }

  /** A velocity that satisfies SpeedLimited is within the cap. */
  lemma SpeedLimitedWithinCap(vx: real, vy: real, maxSpeed: real, rx: real, ry: real)
    requires SpeedLimited(vx, vy, maxSpeed, rx, ry)
    ensures rx * rx + ry * ry <= maxSpeed * maxSpeed
  {
  }

  /** Scaling by maxSpeed / speed exactly when the speed is over maxSpeed is what SpeedLimited asks for. */
  lemma {:induction false} ScaleIsLimit(vx: real, vy: real, speed: real, maxSpeed: real)
    requires 0.0 <= speed && speed * speed == vx * vx + vy * vy && 0.0 <= maxSpeed
    ensures speed > maxSpeed ==> SpeedLimited(vx, vy, maxSpeed, vx * (maxSpeed / speed), vy * (maxSpeed / speed))
    ensures speed <= maxSpeed ==> SpeedLimited(vx, vy, maxSpeed, vx, vy)
  {
    SquareLessIff(maxSpeed, speed);
    if speed > maxSpeed {
      ScaleToLength(vx, vy, speed, maxSpeed);
    }
  }

  /** limitVelocity: the velocity, scaled down to length maxSpeed when it is faster. */
  function LimitVelocity(m: Math, vx: real, vy: real, maxSpeed: real): (r: (real, real))
    requires Lawful(m) && 0.0 <= maxSpeed
    ensures SpeedLimited(vx, vy, maxSpeed, r.0, r.1)
    ensures r.0 * r.0 + r.1 * r.1 <= maxSpeed * maxSpeed
  {
    var speed := m.sqrt(vx * vx + vy * vy);
    VectorLength(m, vx, vy);
    ScaleIsLimit(vx, vy, speed, maxSpeed);
    if speed > maxSpeed then
      DivThenScale(vx, speed, maxSpeed);
      DivThenScale(vy, speed, maxSpeed);
      (vx / speed * maxSpeed, vy / speed * maxSpeed)
    else
      (vx, vy)
  }

  /**
   * SpeedLimited leaves no freedom: for a non-negative cap it holds of exactly
   * one vector, so it specifies limitVelocity completely.
   */
  lemma {:induction false} SpeedLimitedUnique(vx: real, vy: real, maxSpeed: real, r1: (real, real), r2: (real, real))
    requires 0.0 <= maxSpeed
    requires SpeedLimited(vx, vy, maxSpeed, r1.0, r1.1) && SpeedLimited(vx, vy, maxSpeed, r2.0, r2.1)
    ensures r1 == r2
  {
    if maxSpeed * maxSpeed < vx * vx + vy * vy {
      if vx != 0.0 {
        SameRayAndLength(vx, vy, maxSpeed, r1.0, r1.1, r2.0, r2.1);
      } else {
        assert vy != 0.0;
        SameRayAndLength(vy, vx, maxSpeed, r1.1, r1.0, r2.1, r2.0);
      }
    }
  }

  /**
   * Two vectors on the ray of (a, b), a != 0, with the same length are equal:
   * each one's first component is fixed by its sign and its square.
   */
  lemma {:induction false} SameRayAndLength(a: real, b: real, len: real, p: real, q: real, p2: real, q2: real)
    requires a != 0.0
    requires p * p + q * q == len * len && p * b == q * a && 0.0 <= p * a
    requires p2 * p2 + q2 * q2 == len * len && p2 * b == q2 * a && 0.0 <= p2 * a
    ensures p == p2 && q == q2
  {
    var k := a * a + b * b;
    SquareZeroIff(a);
    SquareZeroIff(b);
    FirstComponent(a, b, len, p, q);
    FirstComponent(a, b, len, p2, q2);
    CancelPositive(p * p, p2 * p2, k);
    SameSignSameSquare(p, p2, a);
    CancelNonZero(q, q2, a);
  }

  /** On the ray of (a, b), the first component p of a vector of length len has p^2 (a^2 + b^2) = len^2 a^2. */
  lemma FirstComponent(a: real, b: real, len: real, p: real, q: real)
    requires p * p + q * q == len * len && p * b == q * a
    ensures (p * p) * (a * a + b * b) == (len * len) * (a * a)
  {
    assert (q * a) * (q * a) == (p * b) * (p * b);
    calc {
      (p * p) * (a * a + b * b);
      (p * a) * (p * a) + (p * b) * (p * b);
      (p * a) * (p * a) + (q * a) * (q * a);
      (p * p + q * q) * (a * a);
    }
  }

  lemma CancelPositive(x: real, y: real, k: real)
    requires 0.0 < k && x * k == y * k
    ensures x == y
  {
    assert (x - y) * k == 0.0;
  }

  lemma CancelNonZero(x: real, y: real, k: real)
    requires k != 0.0 && x * k == y * k
    ensures x == y
  {
    assert (x - y) * k == 0.0;
  }

  /** p and p2 with equal squares and p a, p2 a both non-negative (a != 0) are equal. */
  lemma SameSignSameSquare(p: real, p2: real, a: real)
    requires a != 0.0 && p * p == p2 * p2 && 0.0 <= p * a && 0.0 <= p2 * a
    ensures p == p2
  {
    assert (p * a) * (p * a) == (p2 * a) * (p2 * a) by {
      assert (p * a) * (p * a) == (p * p) * (a * a);
      assert (p2 * a) * (p2 * a) == (p2 * p2) * (a * a);
    }
    SquareLessIff(p * a, p2 * a);
    SquareLessIff(p2 * a, p * a);
    CancelNonZero(p, p2, a);
  }

  /** checkCollision: the distance between the centres is under 0.8 times the sum of the radii. */
  function CheckCollision(m: Math, x1: real, y1: real, size1: real, x2: real, y2: real, size2: real): bool
    requires Lawful(m)
  {
    m.sqrt(Dist2(x1, y1, x2, y2)) < (size1 + size2) * 0.8
  }

  /**
   * The collision test without the square root: the squared distance is
   * under the squared bound, which must be positive; bodies with the same
   * centre and a positive total size always collide.
   */
  lemma CollisionIff(m: Math, x1: real, y1: real, size1: real, x2: real, y2: real, size2: real)
    requires Lawful(m)
    ensures CheckCollision(m, x1, y1, size1, x2, y2, size2) <==>
      0.0 < size1 + size2 && Dist2(x1, y1, x2, y2) < ((size1 + size2) * 0.8) * ((size1 + size2) * 0.8)
    ensures x1 == x2 && y1 == y2 && 0.0 < size1 + size2 ==> CheckCollision(m, x1, y1, size1, x2, y2, size2)
  {
    SqrtLess(m, Dist2(x1, y1, x2, y2), (size1 + size2) * 0.8);
    SquareZeroIff((size1 + size2) * 0.8);
  }

  /** Collision is symmetric in its two bodies. */
  lemma CollisionSymmetric(m: Math, x1: real, y1: real, size1: real, x2: real, y2: real, size2: real)
    requires Lawful(m)
    ensures CheckCollision(m, x1, y1, size1, x2, y2, size2) == CheckCollision(m, x2, y2, size2, x1, y1, size1)
  {
    assert Dist2(x1, y1, x2, y2) == Dist2(x2, y2, x1, y1);
  }

  /** calculateCameraZoom: 1 at size 10, falling by 1/200 per unit of size, never below 0.5. */
  function CalculateCameraZoom(playerSize: real): (r: real)
    ensures 0.5 <= r
    ensures 10.0 <= playerSize ==> r <= 1.0
    ensures 10.0 <= playerSize <= 110.0 ==> r == 1.0 - (playerSize - 10.0) / 200.0
  {
    Max(0.5, 1.0 - (playerSize - 10.0) / 200.0)
  }

  /** A bigger player is never zoomed in further. */
  lemma ZoomNonIncreasing(s1: real, s2: real)
    requires s1 <= s2
    ensures CalculateCameraZoom(s2) <= CalculateCameraZoom(s1)
  {
  }
}
