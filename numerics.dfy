/** Numeric helpers shared by the model, and the host functions the game calls but the model does not compute. */
module Numerics {

  datatype Option<T> = None | Some(value: T)

  function Min(a: real, b: real): (r: real)
    ensures r <= a && r <= b && (r == a || r == b)
  {
    if a <= b then a else b
  }

  function Max(a: real, b: real): (r: real)
    ensures a <= r && b <= r && (r == a || r == b)
  {
    if a >= b then a else b
  }

  function Abs(a: real): (r: real)
    ensures 0.0 <= r && (r == a || r == -a)
  {
    if a < 0.0 then -a else a
  }

  /** Math.floor */
  function Floor(x: real): (r: int)
    ensures r as real <= x < r as real + 1.0
  {
    x.Floor
  }

  /** Math.ceil */
  function Ceil(x: real): (r: int)
    ensures r as real - 1.0 < x <= r as real
  {
    -((-x).Floor)
  }

  /** JavaScript's Math.PI, written as the decimal the engine prints for it. */
  const PI: real := 3.141592653589793

  /**
   * The transcendental functions of JavaScript's Math object. The model never
   * computes them; every operation that needs one receives them as a parameter.
   */
  datatype Math = Math(sqrt: real -> real, log: real -> real, sin: real -> real, cos: real -> real)

  /** sqrt is exact at x: the non-negative root. */
  ghost predicate RootAt(m: Math, x: real)
  {
    0.0 <= m.sqrt(x) && m.sqrt(x) * m.sqrt(x) == x
  }

  /** log does not decrease from x to y. */
  ghost predicate LogOrdered(m: Math, x: real, y: real)
  {
    m.log(x) <= m.log(y)
  }

  /** sin and cos stay within [-1, 1] at x. */
  ghost predicate TrigBounded(m: Math, x: real)
  {
    -1.0 <= m.sin(x) <= 1.0 && -1.0 <= m.cos(x) <= 1.0
  }

  /**
   * The only facts the model relies on: sqrt is the exact non-negative root,
   * log is monotone, and sin and cos stay within [-1, 1]. Each fact is
   * behind a predicate of its own, so a proof brings it in only where it
   * names it.
   */
  ghost predicate Lawful(m: Math)
  {
    && (forall x :: 0.0 <= x ==> RootAt(m, x))
    && (forall x, y :: 0.0 < x <= y ==> LogOrdered(m, x, y))
    && (forall x :: TrigBounded(m, x))
  }

  /** Squared length of the vector (dx, dy). */
  function Norm2(dx: real, dy: real): (r: real)
    ensures 0.0 <= r
  {
    SquareZeroIff(dx);
    SquareZeroIff(dy);
    dx * dx + dy * dy
  }

  /** Squared Euclidean distance between two points. */
  function Dist2(x1: real, y1: real, x2: real, y2: real): (r: real)
    ensures 0.0 <= r
  {
    (x1 - x2) * (x1 - x2) + (y1 - y2) * (y1 - y2)
  }

  /** Squaring is strictly monotone on the non-negative reals. */
  lemma SquareLessIff(a: real, b: real)
    requires 0.0 <= a && 0.0 <= b
    ensures a < b <==> a * a < b * b
  {
    if a < b {
      var d := b - a;
      assert b * b == a * a + 2.0 * a * d + d * d;
    } else {
      var d := a - b;
      assert a * a == b * b + 2.0 * b * d + d * d;
    }
  }

  /** A square is zero exactly at zero. */
  lemma SquareZeroIff(a: real)
    ensures 0.0 <= a * a
    ensures a * a == 0.0 <==> a == 0.0
  {
    SquareLessIff(0.0, Abs(a));
    assert Abs(a) * Abs(a) == a * a;
  }

  /** A lawful sqrt is the unique non-negative root, so it is determined by its square. */
  lemma SqrtUnique(m: Math, x: real, s: real)
    requires Lawful(m) && 0.0 <= x && 0.0 <= s && s * s == x
    ensures m.sqrt(x) == s
  {
    var t := m.sqrt(x);
    assert RootAt(m, x);
    SquareLessIff(t, s);
    SquareLessIff(s, t);
  }

  /** A lawful sqrt compares like its argument: sqrt(x) < k iff k is positive and x < k*k. */
  lemma SqrtLess(m: Math, x: real, k: real)
    requires Lawful(m) && 0.0 <= x
    ensures m.sqrt(x) < k <==> 0.0 < k && x < k * k
  {
    var t := m.sqrt(x);
    assert RootAt(m, x);
    if 0.0 < k {
      SquareLessIff(t, k);
    }
  }

  /** A lawful sqrt of a^2 + b^2 is the length of the vector (a, b). */
  lemma VectorLength(m: Math, a: real, b: real)
    requires Lawful(m)
    ensures 0.0 <= a * a + b * b
    ensures 0.0 <= m.sqrt(a * a + b * b)
    ensures m.sqrt(a * a + b * b) * m.sqrt(a * a + b * b) == a * a + b * b
  {
    SquareZeroIff(a);
    SquareZeroIff(b);
    assert RootAt(m, a * a + b * b);
  }

  /** Dividing by s and then scaling by c is scaling by c / s. */
  lemma DivThenScale(a: real, s: real, c: real)
    requires s != 0.0
    ensures a / s * c == a * (c / s)
  {
  }

  /** |a| <= |b| gives a^2 <= b^2. */
  lemma SquareMono(a: real, b: real)
    requires Abs(a) <= Abs(b)
    ensures a * a <= b * b
  {
    SquareLessIff(Abs(a), Abs(b));
    assert Abs(a) * Abs(a) == a * a;
    assert Abs(b) * Abs(b) == b * b;
  }

  /**
   * Scaling a vector (vx, vy) of length s by len / s gives a vector of length
   * len in the same direction.
   */
  lemma {:induction false} ScaleToLength(vx: real, vy: real, s: real, len: real)
    requires 0.0 < s && 0.0 <= len && s * s == vx * vx + vy * vy
    ensures var c := len / s;
      && (vx * c) * (vx * c) + (vy * c) * (vy * c) == len * len
      && (vx * c) * vy == (vy * c) * vx && 0.0 <= (vx * c) * vx && 0.0 <= (vy * c) * vy
  {
    var c := len / s;
    assert 0.0 <= c;
    assert c * s == len;
    calc {
      (vx * c) * (vx * c) + (vy * c) * (vy * c);
      (c * c) * (vx * vx + vy * vy);
      (c * c) * (s * s);
      (c * s) * (c * s);
    }
    SquareZeroIff(vx);
    SquareZeroIff(vy);
    assert vx * c * vx == (vx * vx) * c;
    assert vy * c * vy == (vy * vy) * c;
  }
}
