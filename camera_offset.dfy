/**
 * Where the camera goes to look at a selected body. The perpendicular variant puts it one unit
 * away from the body, at right angles to the sun-body line, then shifts it 0.5 up and 0.5 along x;
 * the fixed variant adds the constant offset (0, 0.5, 1.5) to the body's position.
 */
module CameraOffset {
  import opened Geometry

  /** The sun sits at the origin of the camera's computations. */
  const SunPosition: Vec3 := Origin
  const OffsetDistance: real := 1.0
  const FixedOffset: Vec3 := Vec3(0.0, 0.5, 1.5)

  /** The direction from the sun to the body, normalized. */
  function Radial(p: Vec3, m: Math): Vec3 {
    Normalize(Sub(p, SunPosition), m)
  }

  /** (0, 1, 0), or (1, 0, 0) when the radial direction is parallel to it. */
  function UpVector(radial: Vec3): (up: Vec3)
    ensures up == UnitX <==> Abs(radial.y) == 1.0
    ensures Abs(radial.y) != 1.0 ==> up == UnitY
  {
    if Abs(Dot(radial, UnitY)) == 1.0 then UnitX else UnitY
  }

  /** The normalized cross product of the radial direction and the up vector. */
  function OffsetDirection(p: Vec3, m: Math): Vec3 {
    var radial := Radial(p, m);
    Normalize(Cross(radial, UpVector(radial)), m)
  }

  /** The camera position of the perpendicular variant for a body at `p`. */
  function PerpendicularDesired(p: Vec3, m: Math): Vec3 {
    var desired := Add(p, Scale(OffsetDirection(p, m), OffsetDistance));
    var raised := desired.(y := desired.y + 0.5);
    raised.(x := raised.x + 0.5)
  }

  /** The camera position of the fixed-offset variant for a body at `p`. */
  function FixedDesired(p: Vec3): Vec3 {
    Add(p, FixedOffset)
  }

  /** The cross product of a scaled `a` with `b` is perpendicular to `a`. */
  lemma CrossScaledPerpendicular(a: Vec3, k: real, b: Vec3)
    ensures Dot(Cross(Scale(a, k), b), a) == 0.0
  {
    var s := Scale(a, k);
    calc {
      Dot(Cross(s, b), a);
    ==
      (s.y * b.z - s.z * b.y) * a.x + (s.z * b.x - s.x * b.z) * a.y + (s.x * b.y - s.y * b.x) * a.z;
    ==
      k * ((a.y * b.z - a.z * b.y) * a.x + (a.z * b.x - a.x * b.z) * a.y + (a.x * b.y - a.y * b.x) * a.z);
    ==
      k * 0.0;
    }
  }

  /** Scaling a vector scales its dot product with any other. */
  lemma DotScale(a: Vec3, k: real, b: Vec3)
    ensures Dot(Scale(a, k), b) == k * Dot(a, b)
  {
  }

  /** y * y == 1 only for y = 1 or y = -1. */
  lemma UnitSquare(y: real)
    requires y * y == 1.0
    ensures Abs(y) == 1.0
  {
    var t := Abs(y);
    assert t * t == 1.0 by {
      assert t * t == y * y;
    }
    calc {
      t - 1.0;
    == { assert t + 1.0 > 0.0; }
      ((t - 1.0) * (t + 1.0)) / (t + 1.0);
    ==
      (t * t - 1.0) / (t + 1.0);
    ==
      0.0 / (t + 1.0);
    ==
      0.0;
    }
  }

  /**
   * For a unit radial direction the chosen up vector is never parallel to it: their cross
   * product is a non-zero vector at right angles to the radial direction.
   */
  lemma {:induction false} FallbackAvoidsParallel(radial: Vec3)
    requires Dot(radial, radial) == 1.0
    ensures Cross(radial, UpVector(radial)) != Origin
    ensures Dot(Cross(radial, UpVector(radial)), radial) == 0.0
  {
    CrossScaledPerpendicular(radial, 1.0, UpVector(radial));
    assert Scale(radial, 1.0) == radial;
    if Abs(radial.y) == 1.0 {
      assert Cross(radial, UnitX).z == -radial.y;
    } else {
      var c := Cross(radial, UnitY);
      assert c == Vec3(-radial.z, 0.0, radial.x);
      if radial.x == 0.0 && radial.z == 0.0 {
        calc {
          radial.y * radial.y;
        ==
          Dot(radial, radial);
        ==
          1.0;
        }
        UnitSquare(radial.y);
        assert false;
      }
    }
  }

  /**
   * For a body away from the sun the offset direction is a unit vector at right angles to
   * the sun-body line, so the camera sits exactly `OffsetDistance` from the body before the shifts.
   */
  lemma {:induction false} OffsetDirectionUnitPerpendicular(p: Vec3, m: Math)
    requires SqrtLaw(m)
    requires p != SunPosition
    ensures Dot(OffsetDirection(p, m), OffsetDirection(p, m)) == 1.0
    ensures Dot(OffsetDirection(p, m), p) == 0.0
  {
    assert Sub(p, SunPosition) == p;
    NormalizeUnit(p, m);
    var radial := Radial(p, m);
    var k := 1.0 / Length(p, m);
    assert radial == Scale(p, k);
    var up := UpVector(radial);
    FallbackAvoidsParallel(radial);
    var c := Cross(radial, up);
    NormalizeUnit(c, m);
    var kc := 1.0 / Length(c, m);
    assert OffsetDirection(p, m) == Scale(c, kc);
    CrossScaledPerpendicular(p, k, up);
    DotScale(c, kc, p);
  }

  /** For a body off the vertical axis the offset direction is horizontal, so the camera sits 0.5 above the body. */
  lemma CameraHalfAbove(p: Vec3, m: Math)
    requires Abs(Radial(p, m).y) != 1.0
    ensures PerpendicularDesired(p, m).y == p.y + 0.5
  {
    var radial := Radial(p, m);
    assert Cross(radial, UnitY).y == 0.0;
  }

  /** With no body to start from, the offset direction collapses and the camera starts at (0.5, 0.5, 0). */
  lemma OriginDesired(m: Math)
    ensures OffsetDirection(Origin, m) == Origin
    ensures PerpendicularDesired(Origin, m) == Vec3(0.5, 0.5, 0.0)
  {
    NormalizeOrigin(m);
    assert Sub(Origin, SunPosition) == Origin;
    assert Cross(Origin, UnitY) == Origin;
  }
}
