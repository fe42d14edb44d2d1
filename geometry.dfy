/** Vector arithmetic of the scene, as three.js's Vector3 does it, over the reals. */
module Geometry {

  datatype Vec3 = Vec3(x: real, y: real, z: real)

  const Origin: Vec3 := Vec3(0.0, 0.0, 0.0)
  const UnitX: Vec3 := Vec3(1.0, 0.0, 0.0)
  const UnitY: Vec3 := Vec3(0.0, 1.0, 0.0)

  function Add(a: Vec3, b: Vec3): Vec3 {
    Vec3(a.x + b.x, a.y + b.y, a.z + b.z)
  }

  function Sub(a: Vec3, b: Vec3): Vec3 {
    Vec3(a.x - b.x, a.y - b.y, a.z - b.z)
  }

  function Scale(v: Vec3, k: real): Vec3 {
    Vec3(v.x * k, v.y * k, v.z * k)
  }

  function Dot(a: Vec3, b: Vec3): real {
    a.x * b.x + a.y * b.y + a.z * b.z
  }

  /** Vector3.crossVectors(a, b). */
  function Cross(a: Vec3, b: Vec3): Vec3 {
    Vec3(a.y * b.z - a.z * b.y, a.z * b.x - a.x * b.z, a.x * b.y - a.y * b.x)
  }

  function Abs(r: real): real {
    if r < 0.0 then -r else r
  }

  /** Vector3.lerpVectors(a, b, alpha): the point a fraction alpha of the way from a to b. */
  function Lerp(a: Vec3, b: Vec3, alpha: real): Vec3 {
    Vec3(a.x + (b.x - a.x) * alpha, a.y + (b.y - a.y) * alpha, a.z + (b.z - a.z) * alpha)
  }

  /** Interpolation starts at `a`, ends at `b`, and moves from `a` along the line through `b` in proportion to alpha. */
  lemma LerpEnds(a: Vec3, b: Vec3, alpha: real)
    ensures Lerp(a, b, 0.0) == a
    ensures Lerp(a, b, 1.0) == b
    ensures Sub(Lerp(a, b, alpha), a) == Scale(Sub(b, a), alpha)
  {
  }

  /**
   * The JavaScript Math functions the model needs, passed in as values: the model
   * assumes nothing of them beyond the laws stated by SqrtLaw and TrigLaws.
   */
  datatype Math = Math(sqrt: real -> real, cos: real -> real, sin: real -> real)

  ghost predicate SqrtLaw(m: Math) {
    forall x: real :: 0.0 <= x ==> 0.0 <= m.sqrt(x) && m.sqrt(x) * m.sqrt(x) == x
  }

  ghost predicate TrigLaws(m: Math) {
    && m.cos(0.0) == 1.0
    && m.sin(0.0) == 0.0
    && forall a: real :: m.sin(a) * m.sin(a) + m.cos(a) * m.cos(a) == 1.0
  }

  /** Vector3.length(). */
  function Length(v: Vec3, m: Math): real {
    m.sqrt(Dot(v, v))
  }

  /** Vector3.normalize(): divides by the length, or by 1 when the length is 0. */
  function Normalize(v: Vec3, m: Math): Vec3 {
    var len := Length(v, m);
    Scale(v, 1.0 / (if len == 0.0 then 1.0 else len))
  }

  lemma Square(a: real)
    ensures a * a >= 0.0
    ensures a != 0.0 ==> a * a > 0.0
  {
  }

  /** The dot product of a vector with itself is positive unless the vector is zero. */
  lemma SquaresPositive(v: Vec3)
    ensures Dot(v, v) >= 0.0
    ensures v != Origin ==> Dot(v, v) > 0.0
  {
    calc {
      Dot(v, v);
    ==
      v.x * v.x + v.y * v.y + v.z * v.z;
    >= { Square(v.x); Square(v.y); Square(v.z); }
      0.0;
    }
    if v.x != 0.0 {
      calc {
        Dot(v, v);
      ==
        v.x * v.x + v.y * v.y + v.z * v.z;
      >= { Square(v.y); Square(v.z); }
        v.x * v.x;
      > { Square(v.x); }
        0.0;
      }
    } else if v.y != 0.0 {
      calc {
        Dot(v, v);
      ==
        v.y * v.y + v.x * v.x + v.z * v.z;
      >= { Square(v.x); Square(v.z); }
        v.y * v.y;
      > { Square(v.y); }
        0.0;
      }
    } else if v.z != 0.0 {
      calc {
        Dot(v, v);
      ==
        v.z * v.z + v.x * v.x + v.y * v.y;
      >= { Square(v.x); Square(v.y); }
        v.z * v.z;
      > { Square(v.z); }
        0.0;
      }
    }
  }

  /** A non-zero vector normalizes to a unit vector pointing the same way. */
  lemma NormalizeUnit(v: Vec3, m: Math)
    requires SqrtLaw(m)
    requires v != Origin
    ensures Length(v, m) > 0.0
    ensures Normalize(v, m) == Scale(v, 1.0 / Length(v, m))
    ensures Dot(Normalize(v, m), Normalize(v, m)) == 1.0
  {
    SquaresPositive(v);
    var d := Dot(v, v);
    var len := m.sqrt(d);
    assert 0.0 <= len && len * len == d;
    assert len > 0.0;
    var k := 1.0 / len;
    var n := Scale(v, k);
    assert Dot(n, n) == d * (k * k) by {
      assert Dot(n, n) == (v.x * v.x + v.y * v.y + v.z * v.z) * (k * k);
    }
    assert k * k * (len * len) == 1.0 by {
      assert k * len == 1.0;
    }
  }

  /** Normalize leaves the zero vector at the origin, whatever the square root of 0 is. */
  lemma NormalizeOrigin(m: Math)
    ensures Normalize(Origin, m) == Origin
  {
  }
}
