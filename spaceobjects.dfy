/** Asteroids, small asteroids and enemies (spaceio/classes/SpaceObject.ts). */
module SpaceObjects {
  import opened Numerics
  import opened Types
  import opened Constants

  /** The colour createSpaceObject gives an object; it identifies the kind, and an asteroid's size band. */
  function ObjectColor(kind: ObjectKind, size: real): (c: string)
    ensures (c == "#ff4444") == (kind == Enemy)
    ensures (c == "#66bbff") == (kind == SmallAsteroid)
    ensures kind == Asteroid ==> (c == "#44aaff" <==> size < 15.0) && (c == "#aa44ff" <==> 40.0 <= size)
    ensures kind == Asteroid ==> c in {"#44aaff", "#ffaa44", "#aa44ff"}
  {
    if kind == Enemy then "#ff4444"
    else if kind == SmallAsteroid then "#66bbff"
    else if size < 15.0 then "#44aaff"
    else if size < 40.0 then "#ffaa44"
    else "#aa44ff"
  }

  /** The mass of an object of the given radius: the area of its disc. */
  function MassOfSize(size: real): (mass: real)
    ensures 0.0 <= mass
    ensures mass == 0.0 <==> size == 0.0
  {
    SquareZeroIff(size);
    size * size * PI
  }

  /** (Math.random() - 0.5) * 1.5: an initial velocity component. */
  function InitialVelocity(r: real): (v: real)
    requires 0.0 <= r < 1.0
    ensures -0.75 <= v < 0.75
  {
    (r - 0.5) * 1.5
  }

  /** (Math.random() - 0.5) * 0.05: the spin given to a new object. */
  function InitialSpin(r: real): (v: real)
    requires 0.0 <= r < 1.0
    ensures -0.025 <= v < 0.025
  {
    (r - 0.5) * 0.05
  }

  /** Math.random() * Math.PI * 2: a random angle. */
  function RandomAngle(r: real): (a: real)
    requires 0.0 <= r < 1.0
    ensures 0.0 <= a < 2.0 * PI
  {
    r * PI * 2.0
  }

  /**
   * One axis of updateSpaceObject's boundary handling: an object whose
   * coordinate has left [size, WORLD_SIZE - size] is clamped back and its
   * velocity on that axis is reversed and scaled by 0.6.
   */
  function BounceAxis(p: real, v: real, size: real): (r: (real, real))
    ensures size <= p <= WORLD_SIZE - size ==> r == (p, v)
    ensures (p < size || p > WORLD_SIZE - size) ==> r.1 == -0.6 * v
    ensures (p < size || p > WORLD_SIZE - size) && 2.0 * size <= WORLD_SIZE ==> r.0 == (if p < size then size else WORLD_SIZE - size)
    ensures 2.0 * size <= WORLD_SIZE ==> size <= r.0 <= WORLD_SIZE - size
    ensures Abs(r.1) <= Abs(v)
  {
    if p < size || p > WORLD_SIZE - size then
      (Max(size, Min(WORLD_SIZE - size, p)), v * -0.6)
    else
      (p, v)
  }

  class SpaceObject {
    /** The Math.random() draw the object's id string is formatted from. */
    const id: real
    var x: real
    var y: real
    const size: real
    const mass: real
    const kind: ObjectKind
    var vx: real
    var vy: real
    var rotation: real
    const rotationSpeed: real
    var pulsePhase: real
    const color: string

    /** createSpaceObject, given the six Math.random() draws it makes, in order. */
    constructor (x: real, y: real, size: real, kind: ObjectKind,
                 rId: real, rVx: real, rVy: real, rRotation: real, rSpin: real, rPulse: real)
      requires 0.0 <= rVx < 1.0 && 0.0 <= rVy < 1.0 && 0.0 <= rRotation < 1.0
      requires 0.0 <= rSpin < 1.0 && 0.0 <= rPulse < 1.0
      ensures this.x == x && this.y == y && this.size == size && this.kind == kind && id == rId
      ensures mass == MassOfSize(size) && color == ObjectColor(kind, size)
      ensures vx == InitialVelocity(rVx) && vy == InitialVelocity(rVy)
      ensures rotation == RandomAngle(rRotation) && rotationSpeed == InitialSpin(rSpin)
      ensures pulsePhase == RandomAngle(rPulse)
    {
      this.id := rId;
      this.x := x;
      this.y := y;
      this.size := size;
      this.mass := MassOfSize(size);
      this.kind := kind;
      this.vx := InitialVelocity(rVx);
      this.vy := InitialVelocity(rVy);
      this.rotation := RandomAngle(rRotation);
      this.rotationSpeed := InitialSpin(rSpin);
      this.pulsePhase := RandomAngle(rPulse);
      this.color := ObjectColor(kind, size);
    }

    /** updateSpaceObject: integrate one tick, then bounce off the world's edges. */
    method Update()
      modifies this
      ensures (x, vx) == BounceAxis(old(x) + old(vx), old(vx), size)
      ensures (y, vy) == BounceAxis(old(y) + old(vy), old(vy), size)
      ensures rotation == old(rotation) + rotationSpeed && pulsePhase == old(pulsePhase) + 0.03
    {
      x := x + vx;
      y := y + vy;
      rotation := rotation + rotationSpeed;
      pulsePhase := pulsePhase + 0.03;
      if x < size || x > WORLD_SIZE - size {
        vx := vx * -0.6;
        x := Max(size, Min(WORLD_SIZE - size, x));
      }
      if y < size || y > WORLD_SIZE - size {
        vy := vy * -0.6;
        y := Max(size, Min(WORLD_SIZE - size, y));
      }
    }
  }
}
