/**
 * Scalar and vector helpers (src/engine/math.ts). `Math.random()` is an explicit draw `r` in
 * [0, 1), and `Math.sqrt` is a function value that callers supply, constrained only by the
 * defining property of the real square root.
 */
module Maths {
  import opened Types

  /** A function value behaves like the real square root on non-negative arguments: its result
      is a non-negative root, and a positive one for a positive argument. */
  ghost predicate IsSqrt(sqrt: real -> real) {
    forall v: real :: v >= 0.0 ==> sqrt(v) >= 0.0 && sqrt(v) * sqrt(v) == v && (v > 0.0 ==> sqrt(v) > 0.0)
  }

  /** The root of one non-negative value. */
  lemma SqrtOf(sqrt: real -> real, v: real)
    requires IsSqrt(sqrt) && v >= 0.0
    ensures sqrt(v) >= 0.0 && sqrt(v) * sqrt(v) == v
  {
  }

  /** The transcendental functions the simulation calls, supplied from outside. */
  datatype Transcendentals = Transcendentals(sqrt: real -> real, sin: real -> real)

  ghost predicate Wellformed(tx: Transcendentals) {
    IsSqrt(tx.sqrt)
  }

  function Lerp(a: real, b: real, t: real): (r: real)
    ensures t == 0.0 ==> r == a
    ensures t == 1.0 ==> r == b
    ensures 0.0 <= t <= 1.0 && a <= b ==> a <= r <= b
  {
    var d := b - a;
    if 0.0 <= t <= 1.0 && d >= 0.0 then
      FractionWithin(d, t);
      a + d * t
    else a + d * t
  }

  /** A fraction in [0, 1] of a non-negative length lies within [0, length]. */
  lemma FractionWithin(d: real, t: real)
    requires d >= 0.0 && 0.0 <= t <= 1.0
    ensures 0.0 <= d * t <= d
  {
    assert d * (1.0 - t) >= 0.0;
  }

  /** The part `t` of a length `d`. Stating a bound on it through a function lets the bound
      carry over, by congruence, to any expression equal to `d`. */
  function Portion(t: real, d: real): real {
    t * d
  }

  /** A fraction in [0, 1) of a positive length lies within [0, length). */
  lemma FractionBelow(d: real, t: real)
    requires d > 0.0 && 0.0 <= t < 1.0
    ensures 0.0 <= Portion(t, d) < d
  {
    assert d * (1.0 - t) > 0.0;
  }

  function Clamp(v: real, min: real, max: real): (r: real)
    ensures min <= max ==> min <= r <= max
    ensures min <= v <= max ==> r == v
    ensures v < min ==> r == min
    ensures min <= max < v ==> r == max
  {
    if v < min then min else if v > max then max else v
  }

  lemma ClampIdempotent(v: real, lo: real, hi: real)
    requires lo <= hi
    ensures Clamp(Clamp(v, lo, hi), lo, hi) == Clamp(v, lo, hi)
  {
  }

  /** `min + Math.random() * (max - min)` with the draw passed in. */
  function RandomRange(min: real, max: real, r: real): (x: real)
    requires 0.0 <= r < 1.0
    ensures min < max ==> min <= x < max
    ensures r == 0.0 ==> x == min
  {
    DrawnOffset(min, max, r);
    min + r * (max - min)
  }

  /** The point a draw in [0, 1) picks between two bounds: at or after the lower one and before
      the upper one when they are in order, and the lower one for a zero draw. */
  lemma DrawnOffset(min: real, max: real, r: real)
    requires 0.0 <= r < 1.0
    ensures min < max ==> min <= min + r * (max - min) < max
    ensures r == 0.0 ==> min + r * (max - min) == min
  {
    if min < max {
      FractionBelow(max - min, r);
      assert Portion(r, max - min) == r * (max - min);
    }
  }

  /** `Math.floor(randomRange(min, max + 1))` with the draw passed in. */
  function RandomInt(min: int, max: int, r: real): (n: int)
    requires 0.0 <= r < 1.0
    ensures min <= max ==> min <= n <= max
    ensures r == 0.0 ==> n == min
  {
    RandomRange(min as real, max as real + 1.0, r).Floor
  }

  /** `Math.floor(r * n)`: the index an evenly spread draw picks among `n` entries. */
  function PickIndex(r: real, n: nat): (k: nat)
    requires 0.0 <= r < 1.0 && n > 0
    ensures k < n
  {
    var d := n as real;
    FractionBelow(d, r);
    (r * d).Floor
  }

  function Vec2Of(x: real, y: real): (v: Vec2)
    ensures v.x == x && v.y == y
  {
    Vec2(x, y)
  }

  function Vec2Add(a: Vec2, b: Vec2): (v: Vec2)
    ensures v.x == a.x + b.x && v.y == a.y + b.y
  {
    Vec2(a.x + b.x, a.y + b.y)
  }

  function Vec2Scale(v: Vec2, s: real): (w: Vec2)
    ensures w.x == v.x * s && w.y == v.y * s
    ensures s == 0.0 ==> w == Vec2(0.0, 0.0)
    ensures s == 1.0 ==> w == v
  {
    Vec2(v.x * s, v.y * s)
  }

  function Distance(a: Vec2, b: Vec2, sqrt: real -> real): (d: real)
    requires IsSqrt(sqrt)
    ensures d >= 0.0
    ensures d * d == (a.x - b.x) * (a.x - b.x) + (a.y - b.y) * (a.y - b.y)
  {
    var dx := a.x - b.x;
    var dy := a.y - b.y;
    SquaresNonNegative(dx, dy);
    sqrt(dx * dx + dy * dy)
  }

  /** Unit vector in the direction of `v`, or the zero vector when `v` has length zero. */
  function Normalize(v: Vec2, sqrt: real -> real): (u: Vec2)
    requires IsSqrt(sqrt)
    ensures v == Vec2(0.0, 0.0) ==> u == Vec2(0.0, 0.0)
  {
    var x, y := v.x, v.y;
    var sq := x * x + y * y;
    SquaresNonNegative(x, y);
    var len := sqrt(sq);
    if len == 0.0 then Vec2(0.0, 0.0) else Vec2(x / len, y / len)
  }

  /** Adding vectors is commutative, and scaling distributes over it. */
  lemma Vec2Algebra(a: Vec2, b: Vec2, s: real)
    ensures Vec2Add(a, b) == Vec2Add(b, a)
    ensures Vec2Scale(Vec2Add(a, b), s) == Vec2Add(Vec2Scale(a, s), Vec2Scale(b, s))
  {
  }

  /** The distance is symmetric. */
  lemma DistanceSymmetric(a: Vec2, b: Vec2, sqrt: real -> real)
    requires IsSqrt(sqrt)
    ensures Distance(a, b, sqrt) == Distance(b, a, sqrt)
  {
    var d, e := Distance(a, b, sqrt), Distance(b, a, sqrt);
    var dx, dy := a.x - b.x, a.y - b.y;
    assert (b.x - a.x) * (b.x - a.x) == dx * dx && (b.y - a.y) * (b.y - a.y) == dy * dy;
    RootUnique(d, e);
  }

  /** Two non-negative numbers with the same square are equal. */
  lemma RootUnique(p: real, q: real)
    requires p >= 0.0 && q >= 0.0 && p * p == q * q
    ensures p == q
  {
    assert (p - q) * (p + q) == p * p - q * q;
    if p + q != 0.0 {
      assert p - q == 0.0;
    }
  }

  /** The product of two numbers of the same strict sign is positive. */
  lemma SameSignProduct(p: real, q: real)
    requires (p > 0.0 && q > 0.0) || (p < 0.0 && q < 0.0)
    ensures Portion(p, q) > 0.0
  {
  }

  /** The square of a non-zero number is positive, stated through `Portion` like `FractionBelow`. */
  lemma SquarePositive(v: real)
    requires v != 0.0
    ensures Portion(v, v) > 0.0
  {
    SameSignProduct(v, v);
  }

  /** The sum of two squares is positive when one of them is. */
  lemma SumSquaresPositive(x: real, y: real)
    requires y != 0.0
    ensures x * x + y * y > 0.0
  {
  }

  lemma SquaresNonNegative(x: real, y: real)
    ensures x * x + y * y >= 0.0
  {
    assert x * x >= 0.0 && y * y >= 0.0;
  }
}
