/**
 The floating-point library calls of the camera controller, over `real`:
 `sin`, `cos` and the vector length are left uninterpreted (fields of a
 `Trig` value handed in by the caller), `FRAC_PI_2` is the constant `f32`
 value, and `clamp` is `f32::clamp`.
 */
module Numerics {
  import opened Vectors

  /** A vector length: any function that is positive on non-zero vectors.
      Only its positivity is needed to normalise; `NormAt` adds the
      defining law `|v|² = v · v` where a lemma needs it. */
  type NormFn = f: Vec3 -> real | forall v :: v != Zero3 ==> 0.0 < f(v)
    witness (v: Vec3) => 1.0

  /** The trigonometric and length functions the controller calls. */
  datatype Trig = Trig(sin: real -> real, cos: real -> real, norm: NormFn)

  /** `sin² + cos² = 1` at one angle. */
  predicate PythagoreanAt(t: Trig, a: real) {
    t.sin(a) * t.sin(a) + t.cos(a) * t.cos(a) == 1.0
  }

  /** The length of one vector squares to its squared length. */
  predicate NormAt(t: Trig, v: Vec3) {
    t.norm(v) * t.norm(v) == LengthSquared(v)
  }

  /** `std::f32::consts::FRAC_PI_2`, the `f32` nearest to π/2, exactly. */
  const FracPi2: real := 1.57079637050628662109375

  function Dist(a: real, b: real): real {
    if a < b then b - a else a - b
  }

  /** `f32::clamp(x, lo, hi)`, which panics unless `lo <= hi`. The result is
      the point of `[lo, hi]` nearest to `x`; inside the range it is `x`. */
  function Clamp(x: real, lo: real, hi: real): (r: real)
    requires lo <= hi
    ensures lo <= r <= hi
    ensures lo <= x <= hi ==> r == x
    ensures forall y :: lo <= y <= hi ==> Dist(r, x) <= Dist(y, x)
  {
    if x < lo then lo else if x > hi then hi else x
  }

  /** Clamping twice is clamping once. */
  lemma ClampIdempotent(x: real, lo: real, hi: real)
    requires lo <= hi
    ensures Clamp(Clamp(x, lo, hi), lo, hi) == Clamp(x, lo, hi)
  {
  }

  /** Clamping preserves order, so a larger request never looks lower. */
  lemma ClampMonotone(x: real, y: real, lo: real, hi: real)
    requires lo <= hi
    requires x <= y
    ensures Clamp(x, lo, hi) <= Clamp(y, lo, hi)
  {
  }

  // Facts of real algebra, stated over plain variables so that the solver
  // proves each one in isolation; the vector lemmas apply them.

  /** The axis coefficients of `a * (-s, -c) + b * (c, -s)` can be read back
      when `(s, c)` is a unit vector. */
  lemma RecoverCoefficients(a: real, b: real, s: real, c: real)
    requires s * s + c * c == 1.0
    ensures a == -s * (-s * a + c * b) - c * (-c * a - s * b)
    ensures b == c * (-s * a + c * b) - s * (-c * a - s * b)
  {
  }

  /** The square of a reciprocal root cancels the square. */
  lemma ReciprocalSquare(n: real, l: real)
    requires 0.0 < n && n * n == l
    ensures (1.0 / n) * (1.0 / n) * l == 1.0
  {
    var r := 1.0 / n;
    assert r * n == 1.0;
    calc {
      r * r * l;
    ==
      r * r * (n * n);
    ==
      (r * n) * (r * n);
    ==
      1.0;
    }
  }

  /** The only positive square root of one is one. */
  lemma PositiveUnitRoot(n: real)
    requires 0.0 < n && n * n == 1.0
    ensures n == 1.0
  {
    assert (n - 1.0) * (n + 1.0) == n * n - 1.0 == 0.0;
  }

  lemma PositiveQuotient(a: real, b: real, n: real)
    requires 0.0 < a && 0.0 < b && 0.0 < n
    ensures 0.0 < a * b / n
  {
  }

  /** The squared lengths and the cross product of `(-s, 0, -c)` and
      `(c, 0, -s)` when `(s, c)` is a unit vector. */
  lemma UnitBasis(s: real, c: real)
    requires s * s + c * c == 1.0
    ensures (-s) * (-s) + 0.0 * 0.0 + (-c) * (-c) == 1.0
    ensures c * c + 0.0 * 0.0 + (-s) * (-s) == 1.0
    ensures 0.0 * (-c) - (-s) * 0.0 == 0.0
    ensures (-s) * (-s) - c * (-c) == 1.0
    ensures c * 0.0 - 0.0 * (-s) == 0.0
  {
  }

  /** `a * (-s, 0, -c) + b * (c, 0, -s) + v * (0, 1, 0)` vanishes exactly
      when all three weights do, provided `(s, c)` is a unit vector. */
  lemma WeightsZeroIff(s: real, c: real, a: real, b: real, v: real)
    requires s * s + c * c == 1.0
    ensures Vec3((-s) * a + c * b + 0.0 * v, 0.0 * a + 0.0 * b + 1.0 * v, (-c) * a + (-s) * b + 0.0 * v) == Zero3
            <==> (a == 0.0 && b == 0.0 && v == 0.0)
  {
    RecoverCoefficients(a, b, s, c);
  }

  /** Multiplying by a reciprocal is dividing. */
  lemma ReciprocalFactor(n: real, x: real)
    requires n != 0.0
    ensures (1.0 / n) * x == x / n
  {
  }

  lemma ChainSquares(a: real, b: real, l1: real, l2: real, l3: real)
    requires l1 == 1.0 && l2 == a * a * l1 && l3 == b * b * l2
    ensures l3 == (a * b) * (a * b)
  {
  }
}
