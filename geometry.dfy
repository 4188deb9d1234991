/**
 * Vectors and angles as the layers use them.  A `THREE.Vector3` is a value
 * here; `lerp`, `lerpVectors` and `add` are functions on it.  An angle is
 * never evaluated: it is given by its cosine and sine, which the callers
 * supply and which must lie on the unit circle.
 */
module Geometry {
  import opened Numerics

  datatype Vec2 = Vec2(x: real, y: real)

  datatype Vec3 = Vec3(x: real, y: real, z: real)

  /** An angle by its cosine and sine. */
  datatype Angle = Angle(cos: real, sin: real)

  ghost predicate OnUnitCircle(a: Angle)
  {
    a.cos * a.cos + a.sin * a.sin == 1.0
  }

  /**
   * The latitude `phi = acos(2u - 1) - PI/2` of the uniform sphere sampling
   * used by the foliage and ornament layers: for u in [0, 1) its sine is
   * exactly `1 - 2u` and its cosine is not negative.
   */
  ghost predicate IsSphereLatitude(u: real, phi: Angle)
  {
    && 0.0 <= u < 1.0
    && OnUnitCircle(phi)
    && phi.sin == 1.0 - 2.0 * u
    && phi.cos >= 0.0
  }

  function Add(a: Vec3, b: Vec3): Vec3
  {
    Vec3(a.x + b.x, a.y + b.y, a.z + b.z)
  }

  /** `Vector3.lerpVectors(a, b, t)`, component by component. */
  function LerpVec(a: Vec3, b: Vec3, t: real): (r: Vec3)
    ensures t == 0.0 ==> r == a
    ensures t == 1.0 ==> r == b
  {
    Vec3(Lerp(a.x, b.x, t), Lerp(a.y, b.y, t), Lerp(a.z, b.z, t))
  }

  function NormSq(v: Vec3): real
  {
    v.x * v.x + v.y * v.y + v.z * v.z
  }

  /** Squared distance from the vertical axis. */
  function HorizontalNormSq(v: Vec3): real
  {
    v.x * v.x + v.z * v.z
  }

  /** A point at radius r and height h around the vertical axis: `(r cos a, h, r sin a)`. */
  function Cylindrical(r: real, h: real, a: Angle): Vec3
  {
    Vec3(r * a.cos, h, r * a.sin)
  }

  /**
   * The spherical-shell point of the scatter layouts:
   * `sr * (cos phi cos lam, cos phi sin lam, sin phi)`.
   */
  function SpherePoint(sr: real, phi: Angle, lam: Angle): Vec3
  {
    Vec3(sr * phi.cos * lam.cos, sr * phi.cos * lam.sin, sr * phi.sin)
  }

  /** A cylindrical point lies at exactly its radius from the axis. */
  lemma CylindricalRadius(r: real, h: real, a: Angle)
    requires OnUnitCircle(a)
    ensures HorizontalNormSq(Cylindrical(r, h, a)) == r * r
    ensures Cylindrical(r, h, a).y == h
  {
    calc {
      HorizontalNormSq(Cylindrical(r, h, a));
      (r * a.cos) * (r * a.cos) + (r * a.sin) * (r * a.sin);
      (r * r) * (a.cos * a.cos + a.sin * a.sin);
    }
  }

  /** A sphere point lies at exactly its radius from the origin. */
  lemma SpherePointRadius(sr: real, phi: Angle, lam: Angle)
    requires OnUnitCircle(phi) && OnUnitCircle(lam)
    ensures NormSq(SpherePoint(sr, phi, lam)) == sr * sr
  {
    var p := SpherePoint(sr, phi, lam);
    var c2 := phi.cos * phi.cos;
    calc {
      NormSq(p);
      (sr * phi.cos * lam.cos) * (sr * phi.cos * lam.cos)
        + (sr * phi.cos * lam.sin) * (sr * phi.cos * lam.sin)
        + (sr * phi.sin) * (sr * phi.sin);
      (sr * sr) * (c2 * (lam.cos * lam.cos + lam.sin * lam.sin) + phi.sin * phi.sin);
      (sr * sr) * (c2 + phi.sin * phi.sin);
      sr * sr;
    }
  }
}
