/**
 * The closed-form orbit every body of the scene follows: a point that turns about a centre
 * in the horizontal plane, `centre + (cos(angle) * rx, 0, sin(angle) * rz)`.
 */
module Orbit {
  import opened Geometry

  /** The position written for a body at `angle` about `center`, with radii `rx` along x and `rz` along z. */
  function OrbitPoint(center: Vec3, angle: real, rx: real, rz: real, m: Math): Vec3 {
    Vec3(center.x + m.cos(angle) * rx, center.y, center.z + m.sin(angle) * rz)
  }

  /** The squared horizontal distance between two points (y ignored). */
  function PlanarDistanceSquared(a: Vec3, b: Vec3): real {
    (a.x - b.x) * (a.x - b.x) + (a.z - b.z) * (a.z - b.z)
  }

  /** With equal radii the body stays on the circle of radius `d` about the centre. */
  lemma {:induction false} OnCircle(center: Vec3, angle: real, d: real, m: Math)
    requires TrigLaws(m)
    ensures PlanarDistanceSquared(OrbitPoint(center, angle, d, d, m), center) == d * d
  {
    var p := OrbitPoint(center, angle, d, d, m);
    var c, s := m.cos(angle), m.sin(angle);
    calc {
      PlanarDistanceSquared(p, center);
    ==
      (c * d) * (c * d) + (s * d) * (s * d);
    ==
      (s * s + c * c) * (d * d);
    == { assert s * s + c * c == 1.0; }
      d * d;
    }
  }

  /** With radii `rx` and `rz` the body stays on the ellipse ((x - cx) / rx)^2 + ((z - cz) / rz)^2 = 1. */
  lemma {:induction false} OnEllipse(center: Vec3, angle: real, rx: real, rz: real, m: Math)
    requires TrigLaws(m)
    requires rx != 0.0 && rz != 0.0
    ensures var p := OrbitPoint(center, angle, rx, rz, m);
      ((p.x - center.x) / rx) * ((p.x - center.x) / rx) + ((p.z - center.z) / rz) * ((p.z - center.z) / rz) == 1.0
  {
    var p := OrbitPoint(center, angle, rx, rz, m);
    var c, s := m.cos(angle), m.sin(angle);
    assert (p.x - center.x) / rx == c by {
      assert p.x - center.x == c * rx;
    }
    assert (p.z - center.z) / rz == s by {
      assert p.z - center.z == s * rz;
    }
    assert s * s + c * c == 1.0;
  }

  /** At angle 0 the body sits on the positive x side of the centre, `rx` away. */
  lemma StartsOnXAxis(center: Vec3, rx: real, rz: real, m: Math)
    requires TrigLaws(m)
    ensures OrbitPoint(center, 0.0, rx, rz, m) == Vec3(center.x + rx, center.y, center.z)
  {
  }
}
