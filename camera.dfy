/**
 * The camera rules of the game loop (spaceio/hooks/useGameLoop.ts): the zoom
 * from the player's size, the 8% ease towards the player and the decaying
 * shake.
 */
module Cameras {
  import opened Numerics
  import opened Types
  import opened Physics

  /**
   * The zoom after calculateCameraZoom and its guard, which falls back to 1
   * on a zoom that is not positive. Over the reals the guard never fires.
   */
  function GuardedZoom(playerSize: real): (z: real)
    ensures 0.0 < z
    ensures z == CalculateCameraZoom(playerSize)
  {
    var z := CalculateCameraZoom(playerSize);
    if 0.0 < z then z else 1.0
  }

  /** The camera the loop builds when none is stored yet: the player at the canvas centre, unzoomed, still. */
  function DefaultCamera(playerX: real, playerY: real, canvasWidth: real, canvasHeight: real): (c: Camera)
    ensures c.shake == 0.0 && c.zoom == 1.0
    ensures c.x + canvasWidth / 2.0 == playerX && c.y + canvasHeight / 2.0 == playerY
  {
    Camera(playerX - canvasWidth / 2.0, playerY - canvasHeight / 2.0, 0.0, 1.0)
  }

  /** Where the camera heads: the player at the centre of the zoomed canvas. */
  function Target(playerX: real, playerY: real, canvasWidth: real, canvasHeight: real, zoom: real): (t: (real, real))
    requires zoom != 0.0
  {
    (playerX - canvasWidth / 2.0 / zoom, playerY - canvasHeight / 2.0 / zoom)
  }

  /** camera.x += (targetX - camera.x) * 0.08, and likewise for y. */
  function Eased(c: Camera, targetX: real, targetY: real): Camera
  {
    c.(x := c.x + (targetX - c.x) * 0.08, y := c.y + (targetY - c.y) * 0.08)
  }

  /**
   * One ease closes 8% of the gap on each axis and never overshoots: the
   * camera ends between where it was and the target, and nothing else moves.
   */
  lemma EasedCloses(c: Camera, targetX: real, targetY: real)
    ensures var r := Eased(c, targetX, targetY);
      && targetX - r.x == 0.92 * (targetX - c.x)
      && targetY - r.y == 0.92 * (targetY - c.y)
      && Min(c.x, targetX) <= r.x <= Max(c.x, targetX)
      && Min(c.y, targetY) <= r.y <= Max(c.y, targetY)
      && r.shake == c.shake && r.zoom == c.zoom
  {
  }

  /** The camera after k eases towards a target that stays put. */
  function EasedTimes(c: Camera, targetX: real, targetY: real, k: nat): Camera
  {
    if k == 0 then c else Eased(EasedTimes(c, targetX, targetY, k - 1), targetX, targetY)
  }

  /** 0.92 to the k-th power. */
  function Retained(k: nat): (p: real)
    ensures 0.0 < p <= 1.0
  {
    if k == 0 then 1.0 else 0.92 * Retained(k - 1)
  }

  /** With the player still, the gap to the target shrinks geometrically: after k ticks 0.92^k of it remains. */
  lemma {:induction false} EasedTimesGap(c: Camera, targetX: real, targetY: real, k: nat)
    ensures var r := EasedTimes(c, targetX, targetY, k);
      targetX - r.x == Retained(k) * (targetX - c.x) && targetY - r.y == Retained(k) * (targetY - c.y)
  {
    if k > 0 {
      EasedTimesGap(c, targetX, targetY, k - 1);
      EasedCloses(EasedTimes(c, targetX, targetY, k - 1), targetX, targetY);
    }
  }

  /**
   * The shake step: with a positive shake the camera is jolted by
   * (r - 0.5) * shake / zoom on each axis, r being a Math.random() draw, and
   * the shake decays by a factor 0.9; otherwise the camera is unchanged.
   */
  function Shaken(c: Camera, r1: real, r2: real): Camera
    requires c.zoom != 0.0
  {
    if c.shake > 0.0 then
      c.(x := c.x + Jolt(r1, c.shake, c.zoom), y := c.y + Jolt(r2, c.shake, c.zoom), shake := c.shake * 0.9)
    else c
  }

  /** The jolt of one axis: (r - 0.5) * shake / zoom. */
  function Jolt(r: real, shake: real, zoom: real): real
    requires zoom != 0.0
  {
    (r - 0.5) * shake / zoom
  }

  /**
   * Shake never turns negative and never grows: a positive shake shrinks to
   * 0.9 of itself, and the jolt on each axis is at most half the shake over
   * the zoom. Zoom is untouched.
   */
  lemma ShakeDecays(c: Camera, r1: real, r2: real)
    requires 0.0 < c.zoom && 0.0 <= c.shake
    requires 0.0 <= r1 < 1.0 && 0.0 <= r2 < 1.0
    ensures var r := Shaken(c, r1, r2);
      && 0.0 <= r.shake <= c.shake
      && (0.0 < c.shake ==> r.shake == 0.9 * c.shake)
      && Abs(r.x - c.x) <= c.shake / (2.0 * c.zoom)
      && Abs(r.y - c.y) <= c.shake / (2.0 * c.zoom)
      && r.zoom == c.zoom
  {
    if 0.0 < c.shake {
      JoltBound(r1, c.shake, c.zoom);
      JoltBound(r2, c.shake, c.zoom);
    } else {
      assert c.shake / (2.0 * c.zoom) == 0.0;
    }
  }

  /** A jolt is at most half the shake over the zoom, either way. */
  lemma JoltBound(r: real, s: real, z: real)
    requires 0.0 <= r < 1.0 && 0.0 < s && 0.0 < z
    ensures Abs(Jolt(r, s, z)) <= s / (2.0 * z)
  {
    var t := s / z;
    assert 0.0 < t;
    assert (r - 0.5) * s / z == (r - 0.5) * t;
    assert s / (2.0 * z) == 0.5 * t;
    NonNegativeProduct(r, t);
    NonNegativeProduct(1.0 - r, t);
    assert (r - 0.5) * t == r * t - 0.5 * t;
    assert (1.0 - r) * t == t - r * t;
  }

  lemma NonNegativeProduct(a: real, b: real)
    requires 0.0 <= a && 0.0 <= b
    ensures 0.0 <= a * b
  {
  }
}
