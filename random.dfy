/**
 * JavaScript's Math.random(), injected: the game reads successive draws from
 * a stream fixed in advance, which makes every tick a function of its inputs.
 */
module RandomSource {
  import opened Numerics
  import opened Constants

  /**
   * Whether (x, y) is a point the game's spawn loops accept around (cx, cy):
   * both coordinates are Math.random() * WORLD_SIZE, so in [0, WORLD_SIZE),
   * and the loop only stops once the distance is no longer below d.
   */
  ghost predicate FarFrom(p: (real, real), cx: real, cy: real, d: real)
  {
    && 0.0 <= p.0 < WORLD_SIZE
    && 0.0 <= p.1 < WORLD_SIZE
    && Dist2(p.0, p.1, cx, cy) >= d * d
  }

  class Random {
    /** The k-th value Math.random() returns. */
    const draw: nat -> real
    /**
     * The point the k-th rejection-sampling loop (`do { x, y = random * WORLD_SIZE }
     * while (distance < d)`) accepts around a centre; the loops themselves are
     * not modelled because nothing bounds their number of rounds.
     */
    const spot: (nat, real, real, real) -> (real, real)
    var drawn: nat
    var spotted: nat

    ghost predicate Valid()
    {
      && (forall k :: 0.0 <= draw(k) < 1.0)
      && (forall k, cx, cy, d :: 0.0 <= d <= 300.0 ==> FarFrom(spot(k, cx, cy, d), cx, cy, d))
    }

    constructor (draw: nat -> real, spot: (nat, real, real, real) -> (real, real))
      requires forall k :: 0.0 <= draw(k) < 1.0
      requires forall k, cx, cy, d :: 0.0 <= d <= 300.0 ==> FarFrom(spot(k, cx, cy, d), cx, cy, d)
      ensures Valid() && this.draw == draw && this.spot == spot
      ensures drawn == 0 && spotted == 0
    {
      this.draw := draw;
      this.spot := spot;
      drawn := 0;
      spotted := 0;
    }

    /** Math.random() */
    method Next() returns (r: real)
      requires Valid()
      modifies this`drawn
      ensures r == draw(old(drawn)) && drawn == old(drawn) + 1
      ensures 0.0 <= r < 1.0
    {
      r := draw(drawn);
      drawn := drawn + 1;
    }

    /** The n values Math.random() returns from its from-th call on. */
    function Upcoming(from: nat, n: nat): (rs: seq<real>)
      requires Valid()
      ensures |rs| == n && forall k :: 0 <= k < n ==> rs[k] == draw(from + k) && 0.0 <= rs[k] < 1.0
    {
      seq(n, k requires 0 <= k => draw(from + k))
    }

    /** n successive calls of Math.random(). */
    method Take(n: nat) returns (rs: seq<real>)
      requires Valid()
      modifies this`drawn
      ensures rs == Upcoming(old(drawn), n) && drawn == old(drawn) + n
    {
      rs := [];
      for i := 0 to n
        invariant rs == Upcoming(old(drawn), i) && drawn == old(drawn) + i
      {
        var r := Next();
        rs := rs + [r];
      }
    }

    /** The point a spawn loop accepts: inside the world and at least d from (cx, cy). */
    method PointAway(cx: real, cy: real, d: real) returns (x: real, y: real)
      requires Valid() && 0.0 <= d <= 300.0
      modifies this`spotted
      ensures FarFrom((x, y), cx, cy, d) && spotted == old(spotted) + 1
    {
      var p := spot(spotted, cx, cy, d);
      x, y := p.0, p.1;
      spotted := spotted + 1;
    }
  }
}
