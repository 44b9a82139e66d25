/**
 * The small part of the vector, quaternion, plane and frame library that the
 * reflection objects use. That library (Math/, Glx/Frame.h) is not part of this
 * model: its operations are given here by their usual exact definitions over
 * reals, with no floating-point rounding.
 */
module Geometry {

  datatype Vector3 = Vector3(x: real, y: real, z: real)

  const ZAxis := Vector3(0.0, 0.0, 1.0)

  function Add(a: Vector3, b: Vector3): Vector3 { Vector3(a.x + b.x, a.y + b.y, a.z + b.z) }

  function Sub(a: Vector3, b: Vector3): Vector3 { Vector3(a.x - b.x, a.y - b.y, a.z - b.z) }

  function Neg(a: Vector3): Vector3 { Vector3(-a.x, -a.y, -a.z) }

  function Scale(k: real, a: Vector3): Vector3 { Vector3(k * a.x, k * a.y, k * a.z) }

  function Dot(a: Vector3, b: Vector3): real { a.x * b.x + a.y * b.y + a.z * b.z }

  function Cross(a: Vector3, b: Vector3): Vector3
  {
    Vector3(a.y * b.z - a.z * b.y, a.z * b.x - a.x * b.z, a.x * b.y - a.y * b.x)
  }

  /** Vector3::IsNormalized, taken exactly (no tolerance). */
  predicate IsUnit(v: Vector3) { Dot(v, v) == 1.0 }

  /** A rotation, as a unit quaternion w + xi + yj + zk. */
  datatype Quaternion = Quaternion(w: real, x: real, y: real, z: real)

  const IdentityRotation := Quaternion(1.0, 0.0, 0.0, 0.0)

  /** The inverse rotation (the conjugate); the library's unary minus on a rotation. */
  function Inverse(q: Quaternion): Quaternion { Quaternion(q.w, -q.x, -q.y, -q.z) }

  /** v rotated by q: v + w t + u x t where u is the vector part of q and t = 2 u x v. */
  function Rotate(v: Vector3, q: Quaternion): Vector3
  {
    var u := Vector3(q.x, q.y, q.z);
    var t := Scale(2.0, Cross(u, v));
    Add(Add(v, Scale(q.w, t)), Cross(u, t))
  }

  /** The points p with Dot(n, p) == d; n is meant to be a unit vector. */
  datatype Plane = Plane(n: Vector3, d: real)

  /** The plane through `position` with normal `normal`, as both objects build it. */
  function PlaneThrough(normal: Vector3, position: Vector3): Plane
  {
    Plane(normal, Dot(normal, position))
  }

  /** Signed distance of p from the plane; positive on the side the normal points to. */
  function Distance(plane: Plane, p: Vector3): real { Dot(plane.n, p) - plane.d }

  /** Orthogonal projection of p onto the plane. */
  function Project(plane: Plane, p: Vector3): Vector3
  {
    Sub(p, Scale(Distance(plane, p), plane.n))
  }

  /** Glx::Frame: a position, an orientation and a scale. */
  datatype Frame = Frame(translation: Vector3, rotation: Quaternion, scale: Vector3)

  /** Frame::GetZAxis: the frame's local Z axis in world coordinates. */
  function FrameZAxis(f: Frame): Vector3
  {
    var q := f.rotation;
    Vector3(2.0 * (q.x * q.z + q.w * q.y), 2.0 * (q.y * q.z - q.w * q.x), 1.0 - 2.0 * (q.x * q.x + q.y * q.y))
  }

  lemma PlaneThroughContainsPosition(normal: Vector3, position: Vector3)
    ensures Distance(PlaneThrough(normal, position), position) == 0.0
  {
  }

  lemma {:induction false} ProjectLiesOnPlane(plane: Plane, p: Vector3)
    requires IsUnit(plane.n)
    ensures Distance(plane, Project(plane, p)) == 0.0
  {
    var k := Distance(plane, p);
    var n := plane.n;
    calc {
      Dot(n, Project(plane, p));
      n.x * (p.x - k * n.x) + n.y * (p.y - k * n.y) + n.z * (p.z - k * n.z);
      Dot(n, p) - k * (n.x * n.x + n.y * n.y + n.z * n.z);
      Dot(n, p) - k;
      plane.d;
    }
  }

  /** The closed form of FrameZAxis is the Z axis rotated by the frame's orientation. */
  lemma {:induction false} FrameZAxisIsRotatedZAxis(f: Frame)
    ensures FrameZAxis(f) == Rotate(ZAxis, f.rotation)
  {
    var q := f.rotation;
    var u := Vector3(q.x, q.y, q.z);
    assert Cross(u, ZAxis) == Vector3(q.y, -q.x, 0.0);
    var t := Vector3(2.0 * q.y, -2.0 * q.x, 0.0);
    assert Cross(u, t) == Vector3(2.0 * q.x * q.z, 2.0 * q.y * q.z, -2.0 * q.x * q.x - 2.0 * q.y * q.y);
  }

  /** Any vector crossed with the zero vector, and the zero vector scaled by any factor, give the zero vector. */
  lemma ZeroAbsorbs(a: Vector3, k: real)
    ensures Cross(a, Vector3(0.0, 0.0, 0.0)) == Vector3(0.0, 0.0, 0.0)
    ensures Scale(k, Vector3(0.0, 0.0, 0.0)) == Vector3(0.0, 0.0, 0.0)
  {
  }

  /** Rotating the zero vector gives the zero vector. */
  lemma RotateZero(q: Quaternion)
    ensures Rotate(Vector3(0.0, 0.0, 0.0), q) == Vector3(0.0, 0.0, 0.0)
  {
    var zero := Vector3(0.0, 0.0, 0.0);
    var u := Vector3(q.x, q.y, q.z);
    var t := Scale(2.0, Cross(u, zero));
    calc {
      Rotate(zero, q);
      Add(Add(zero, Scale(q.w, t)), Cross(u, t));
      { ZeroAbsorbs(u, 2.0); assert t == zero; }
      Add(Add(zero, Scale(q.w, zero)), Cross(u, zero));
      { ZeroAbsorbs(u, q.w); }
      Add(Add(zero, zero), zero);
    }
  }

  /** Moving k along the unit normal from a point on the plane reaches distance k, and projects back to the point. */
  lemma {:induction false} DistanceAlongNormal(plane: Plane, t: Vector3, k: real)
    requires IsUnit(plane.n) && Distance(plane, t) == 0.0
    ensures Distance(plane, Add(t, Scale(k, plane.n))) == k
    ensures Project(plane, Add(t, Scale(k, plane.n))) == t
  {
    var n := plane.n;
    var p := Add(t, Scale(k, n));
    calc {
      Distance(plane, p);
      Dot(n, t) + k * (n.x * n.x + n.y * n.y + n.z * n.z) - plane.d;
      { assert Dot(n, t) - plane.d == 0.0; }
      k * Dot(n, n);
      k;
    }
  }

}
