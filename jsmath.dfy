/** The numeric primitives the animation code takes from JavaScript's `Math`
    and from three.js's `MathUtils`, over unbounded reals. */
module JsMath {

  /** `Math.PI`, the double closest to pi, written out. */
  const PI: real := 3.141592653589793

  /** The transcendental functions the code calls. They are left uninterpreted:
      a caller supplies them, and `Valid` is all the model knows of them. */
  datatype MathFns = MathFns(cos: real -> real, sin: real -> real, sqrt: real -> real)

  /** What the model assumes of `Math.cos`, `Math.sin` and `Math.sqrt`. */
  ghost predicate Valid(m: MathFns) {
    && (forall a :: -1.0 <= m.cos(a) <= 1.0)
    && (forall a :: -1.0 <= m.sin(a) <= 1.0)
    && (forall a :: m.cos(a) * m.cos(a) + m.sin(a) * m.sin(a) == 1.0)
    && (forall x :: 0.0 <= x ==> 0.0 <= m.sqrt(x) && m.sqrt(x) * m.sqrt(x) == x)
  }

  /** A value `Math.random()` can return. */
  type Draw = u: real | 0.0 <= u < 1.0 witness 0.0

  /** `THREE.MathUtils.lerp(x, y, t)`, which three.js computes as `(1 - t) * x + t * y`. */
  function Lerp(x: real, y: real, t: real): (r: real)
    ensures t == 0.0 ==> r == x
    ensures t == 1.0 ==> r == y
    ensures r - x == t * (y - x)
  {
    (1.0 - t) * x + t * y
  }

  /** For a factor in [0, 1] the interpolated value lies between the two ends. */
  lemma LerpBetween(x: real, y: real, t: real)
    requires 0.0 <= t <= 1.0
    ensures x <= y ==> x <= Lerp(x, y, t) <= y
    ensures y <= x ==> y <= Lerp(x, y, t) <= x
  {
    if x <= y {
      LerpUpward(x, y, t);
    } else {
      LerpReversed(x, y, t);
      LerpUpward(y, x, 1.0 - t);
    }
  }

  lemma LerpUpward(x: real, y: real, t: real)
    requires 0.0 <= t <= 1.0 && x <= y
    ensures x <= Lerp(x, y, t) <= y
  {
    ProductBounds(t, y - x);
    assert Lerp(x, y, t) - x == t * (y - x);
  }

  /** Interpolating from the other end with the complementary factor. */
  lemma LerpReversed(x: real, y: real, t: real)
    ensures Lerp(x, y, t) == Lerp(y, x, 1.0 - t)
  {
  }

  /** A factor in [0, 1] scales a non-negative value down. */
  lemma ProductBounds(t: real, d: real)
    requires 0.0 <= t <= 1.0 && 0.0 <= d
    ensures 0.0 <= t * d <= d
  {
    assert d - t * d == (1.0 - t) * d;
  }

  /** JavaScript's `Math.trunc`: rounds toward zero. */
  function Trunc(x: real): (n: int)
    ensures 0.0 <= x ==> n as real <= x < n as real + 1.0
    ensures x < 0.0 ==> n as real - 1.0 < x <= n as real
  {
    if 0.0 <= x then x.Floor else -((-x).Floor)
  }

  /** JavaScript's `x % 1` on numbers: the remainder keeps the sign of `x`. */
  function RemOne(x: real): (r: real)
    ensures 0.0 <= x ==> 0.0 <= r < 1.0
    ensures x < 0.0 ==> -1.0 < r <= 0.0
    ensures x - r == Trunc(x) as real
  {
    x - Trunc(x) as real
  }

  /** `x * x`, kept as a function so that a square of a product stays one term. */
  function Sq(x: real): real {
    x * x
  }

  /** Squaring is monotone on the non-negative reals, in both directions. */
  lemma SquareMonotone(a: real, b: real)
    requires 0.0 <= a && 0.0 <= b
    ensures a < b <==> Sq(a) < Sq(b)
  {
    if a < b {
      SquareLe(a, b);
    } else {
      SquareLe(b, a);
    }
  }

  lemma SquareLe(a: real, b: real)
    requires 0.0 <= a <= b
    ensures Sq(a) <= Sq(b)
    ensures a < b ==> Sq(a) < Sq(b)
  {
    ProductNonNegative(a, b - a);
    assert a * b - a * a == a * (b - a);
    if a < b {
      ProductPositive(b, b - a);
      assert b * b - a * b == b * (b - a);
    }
  }

  lemma SquareNonNegative(a: real)
    ensures 0.0 <= Sq(a)
  {
    if a < 0.0 {
      ProductNonNegative(-a, -a);
    } else {
      ProductNonNegative(a, a);
    }
  }

  /** The square of a product is the product of the squares. */
  lemma SquareOfProduct(a: real, b: real)
    ensures Sq(a * b) == Sq(a) * Sq(b)
  {
  }

  lemma ProductNonNegative(a: real, b: real)
    requires 0.0 <= a && 0.0 <= b
    ensures 0.0 <= a * b
  {
  }

  lemma ProductPositive(a: real, b: real)
    requires 0.0 < a && 0.0 < b
    ensures 0.0 < a * b
  {
  }
}
