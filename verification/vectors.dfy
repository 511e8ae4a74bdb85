/**
 Plain 2- and 3-component vectors over `real`, standing for the engine's
 `Vec2` and `Vec3` (whose components are `f32`; rounding is not modelled).
 */
module Vectors {

  datatype Vec2 = Vec2(x: real, y: real)

  datatype Vec3 = Vec3(x: real, y: real, z: real)

  const Zero2: Vec2 := Vec2(0.0, 0.0)

  const Zero3: Vec3 := Vec3(0.0, 0.0, 0.0)

  /** The world up axis (`Vec3::Y`). */
  const Up: Vec3 := Vec3(0.0, 1.0, 0.0)

  function Add2(a: Vec2, b: Vec2): Vec2 {
    Vec2(a.x + b.x, a.y + b.y)
  }

  function LengthSquared2(v: Vec2): real {
    v.x * v.x + v.y * v.y
  }

  function Add(a: Vec3, b: Vec3): Vec3 {
    Vec3(a.x + b.x, a.y + b.y, a.z + b.z)
  }

  function Sub(a: Vec3, b: Vec3): Vec3 {
    Vec3(a.x - b.x, a.y - b.y, a.z - b.z)
  }

  function Scale(v: Vec3, k: real): Vec3 {
    Vec3(v.x * k, v.y * k, v.z * k)
  }

  function Dot(a: Vec3, b: Vec3): real {
    a.x * b.x + a.y * b.y + a.z * b.z
  }

  function Cross(a: Vec3, b: Vec3): Vec3 {
    Vec3(a.y * b.z - a.z * b.y, a.z * b.x - a.x * b.z, a.x * b.y - a.y * b.x)
  }

  function LengthSquared(v: Vec3): real {
    Dot(v, v)
  }

  lemma SumOfSquaresPositive(a: real, b: real, c: real)
    requires a != 0.0 || b != 0.0 || c != 0.0
    ensures a * a + b * b + c * c > 0.0
  {
  }

  /** A squared length is positive exactly when some component is non-zero:
      the guard `length_squared() > 0.0` is the test "the vector is not zero". */
  lemma LengthSquaredPositive2(v: Vec2)
    ensures LengthSquared2(v) > 0.0 <==> v != Zero2
  {
    if v == Zero2 {
      assert LengthSquared2(v) == 0.0;
    } else {
      calc {
        LengthSquared2(v);
      ==
        v.x * v.x + v.y * v.y + 0.0 * 0.0;
      >  { SumOfSquaresPositive(v.x, v.y, 0.0); }
        0.0;
      }
    }
  }

  lemma LengthSquaredPositive(v: Vec3)
    ensures LengthSquared(v) > 0.0 <==> v != Zero3
  {
    if v == Zero3 {
      assert LengthSquared(v) == 0.0;
    } else {
      calc {
        LengthSquared(v);
      ==
        v.x * v.x + v.y * v.y + v.z * v.z;
      >  { SumOfSquaresPositive(v.x, v.y, v.z); }
        0.0;
      }
    }
  }

  /** Scaling multiplies the squared length by the square of the factor. */
  lemma LengthSquaredScale(v: Vec3, k: real)
    ensures LengthSquared(Scale(v, k)) == k * k * LengthSquared(v)
  {
    calc {
      LengthSquared(Scale(v, k));
      (v.x * k) * (v.x * k) + (v.y * k) * (v.y * k) + (v.z * k) * (v.z * k);
      k * k * (v.x * v.x + v.y * v.y + v.z * v.z);
    }
  }

  /** Scaling twice is scaling once by the product. */
  lemma ScaleTwice(v: Vec3, a: real, b: real)
    ensures Scale(Scale(v, a), b) == Scale(v, a * b)
  {
    assert v.x * a * b == v.x * (a * b);
    assert v.y * a * b == v.y * (a * b);
    assert v.z * a * b == v.z * (a * b);
  }
}
