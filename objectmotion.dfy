/**
 * The gravity half of one round of the object loop of gameLoop
 * (spaceio/hooks/useGameLoop.ts): after the object has integrated one tick
 * (SpaceObject.Update), it feels the gravity of the nearby objects the grid
 * returns and, when close enough, of the player.
 */
module ObjectMotion {
  import opened Numerics
  import opened Constants
  import opened Physics
  import opened SpaceObjects
  import opened Players
  import opened SpatialGrids

  /** What the gravity loop reads of a nearby object: its id, centre, size and mass. */
  datatype Body = Body(id: real, x: real, y: real, size: real, mass: real)

  function BodyOf(o: SpaceObject): (b: Body)
    reads o
    ensures b.id == o.id && b.x == o.x && b.y == o.y && b.size == o.size && b.mass == o.mass
  {
    Body(o.id, o.x, o.y, o.size, o.mass)
  }

  /** The bodies of a list of objects, in order. */
  function Bodies(os: seq<SpaceObject>): (bs: seq<Body>)
    reads os
    ensures |bs| == |os| && forall k :: 0 <= k < |os| ==> bs[k] == BodyOf(os[k])
  {
    seq(|os|, k requires 0 <= k < |os| reads os => BodyOf(os[k]))
  }

  /** The bodies of objects that have not moved are as they were. */
  twostate lemma BodiesKept(os: seq<SpaceObject>)
    requires forall k :: 0 <= k < |os| ==> old(os[k].x) == os[k].x && old(os[k].y) == os[k].y
    ensures Bodies(os) == old(Bodies(os))
  {
    assert forall k :: 0 <= k < |os| ==> Bodies(os)[k] == old(Bodies(os))[k];
  }

  /** The test of the gravity loop: another object (by id) more than half the size of the one moving. */
  predicate Pulls(b: Body, id: real, size: real)
  {
    b.id != id && b.size > size * 0.5
  }

  /**
   * The velocity v of an object with the given id, centre, size and mass
   * after applyGravity from each body of bs that Pulls, in order.
   */
  function NearbyPull(m: Math, id: real, x: real, y: real, size: real, mass: real, v: (real, real), bs: seq<Body>): (real, real)
    requires Lawful(m)
  {
    if bs == [] then v
    else
      var w := NearbyPull(m, id, x, y, size, mass, v, bs[..|bs| - 1]);
      var b := bs[|bs| - 1];
      if Pulls(b, id, size) then
        var f := GravityPull(m, b.x - x, b.y - y, mass, b.mass);
        (w.0 + f.0, w.1 + f.1)
      else w
  }

  /** Whether a body can change the velocity of the object: it Pulls and lies within gravity range of (x, y). */
  predicate Felt(b: Body, id: real, x: real, y: real, size: real)
  {
    Pulls(b, id, size) && WithinGravity(b.x - x, b.y - y)
  }

  /** A body that is not Felt leaves the velocity alone. */
  lemma UnfeltInert(m: Math, b: Body, id: real, x: real, y: real, size: real, mass: real)
    requires Lawful(m) && !Felt(b, id, x, y, size)
    ensures Pulls(b, id, size) ==> GravityPull(m, b.x - x, b.y - y, mass, b.mass) == (0.0, 0.0)
  {
  }

  /** Bodies that are the object itself, half its size or less, on top of it or 200 or more away leave its velocity alone. */
  lemma {:induction false} NearbyPullUnfelt(m: Math, id: real, x: real, y: real, size: real, mass: real, v: (real, real), bs: seq<Body>)
    requires Lawful(m)
    requires forall k :: 0 <= k < |bs| ==> !Felt(bs[k], id, x, y, size)
    ensures NearbyPull(m, id, x, y, size, mass, v, bs) == v
    decreases |bs|
  {
    if bs != [] {
      NearbyPullUnfelt(m, id, x, y, size, mass, v, bs[..|bs| - 1]);
      UnfeltInert(m, bs[|bs| - 1], id, x, y, size, mass);
    }
  }

  /**
   * The player's pull on an object at (x, y): applied when both offsets are
   * under 200 and the player is more than half the object's size.
   */
  function PlayerPull(m: Math, x: real, y: real, size: real, mass: real, v: (real, real),
                      px: real, py: real, psize: real, pmass: real): (w: (real, real))
    requires Lawful(m)
    ensures !(Abs(x - px) < 200.0 && Abs(y - py) < 200.0 && psize > size * 0.5) ==> w == v
    ensures 0.0 <= pmass ==> Abs(w.0 - v.0) <= GRAVITY_STRENGTH * pmass / 10000.0 && Abs(w.1 - v.1) <= GRAVITY_STRENGTH * pmass / 10000.0
  {
    if Abs(x - px) < 200.0 && Abs(y - py) < 200.0 && psize > size * 0.5 then
      var f := GravityPull(m, px - x, py - y, mass, pmass);
      (v.0 + f.0, v.1 + f.1)
    else v
  }

  /** The forEach over the nearby objects: applyGravity from each one that Pulls. */
  method PullFromNearby(m: Math, obj: SpaceObject, bs: seq<Body>)
    requires Lawful(m)
    modifies obj`vx, obj`vy
    ensures (obj.vx, obj.vy) == NearbyPull(m, obj.id, obj.x, obj.y, obj.size, obj.mass, (old(obj.vx), old(obj.vy)), bs)
  {
    for j := 0 to |bs|
      invariant (obj.vx, obj.vy) == NearbyPull(m, obj.id, obj.x, obj.y, obj.size, obj.mass, (old(obj.vx), old(obj.vy)), bs[..j])
    {
      var b := bs[j];
      assert bs[..j + 1][..j] == bs[..j];
      if b.id != obj.id && b.size > obj.size * 0.5 {
        ApplyGravity(m, obj, b.x, b.y, b.mass);
      }
    }
    assert bs[..|bs|] == bs;
  }

  /**
   * The gravity half of a round of the object loop, after updateSpaceObject:
   * the objects getNearby(obj.x, obj.y, 200) returns pull in order, then the
   * player. nearby is what the grid returned; only the velocity changes.
   */
  method Attract(m: Math, grid: SpatialGrid, player: Player, obj: SpaceObject) returns (nearby: seq<SpaceObject>)
    requires Lawful(m) && grid.Valid()
    modifies obj`vx, obj`vy
    ensures nearby == Nearby(grid.grid, Floor(obj.x / grid.cellSize), Floor(obj.y / grid.cellSize), Ceil(200.0 / grid.cellSize))
    ensures (obj.vx, obj.vy) == PlayerPull(m, obj.x, obj.y, obj.size, obj.mass,
      NearbyPull(m, obj.id, obj.x, obj.y, obj.size, obj.mass, (old(obj.vx), old(obj.vy)), Bodies(nearby)),
      player.x, player.y, player.size, player.mass)
  {
    nearby := grid.GetNearby(obj.x, obj.y, 200.0);
    var bs := Bodies(nearby);
    PullFromNearby(m, obj, bs);
    PullFromPlayer(m, obj, player);
    assert Bodies(nearby) == bs by {
      forall k | 0 <= k < |nearby| ensures BodyOf(nearby[k]) == bs[k] { }
    }
  }

  /** The player's part of a round: applyGravity(obj, player) when the player is close and large enough. */
  method PullFromPlayer(m: Math, obj: SpaceObject, player: Player)
    requires Lawful(m)
    modifies obj`vx, obj`vy
    ensures (obj.vx, obj.vy) == PlayerPull(m, obj.x, obj.y, obj.size, obj.mass, (old(obj.vx), old(obj.vy)), player.x, player.y, player.size, player.mass)
  {
    if Abs(obj.x - player.x) < 200.0 && Abs(obj.y - player.y) < 200.0 {
      if player.size > obj.size * 0.5 {
        ApplyGravity(m, obj, player.x, player.y, player.mass);
      }
    }
  }
}
