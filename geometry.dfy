/**
 * Points and vectors of three-dimensional space over exact reals, with the
 * few operations the section algorithm and the mesh builder use
 * (BABYLON.Vector3's add, subtract, scale, Dot and Lerp).
 */
module Geometry {

  datatype Vec3 = Vec3(x: real, y: real, z: real)

  function Add(u: Vec3, v: Vec3): Vec3 { Vec3(u.x + v.x, u.y + v.y, u.z + v.z) }

  function Sub(u: Vec3, v: Vec3): Vec3 { Vec3(u.x - v.x, u.y - v.y, u.z - v.z) }

  function Scale(v: Vec3, s: real): Vec3 { Vec3(v.x * s, v.y * s, v.z * s) }

  function Dot(u: Vec3, v: Vec3): real { u.x * v.x + u.y * v.y + u.z * v.z }

  /** Vector3.Lerp(start, end, amount) = start + (end - start) * amount. */
  function Lerp(start: Vec3, end: Vec3, amount: real): Vec3
  {
    Add(start, Scale(Sub(end, start), amount))
  }

  /** An affine function of the point (n . p + d) commutes with Lerp. */
  lemma LerpAffine(n: Vec3, d: real, start: Vec3, end: Vec3, t: real)
    ensures Dot(n, Lerp(start, end, t)) + d
         == (1.0 - t) * (Dot(n, start) + d) + t * (Dot(n, end) + d)
  {
    var s, e := start, end;
    calc {
      Dot(n, Lerp(s, e, t)) + d;
      n.x * (s.x + (e.x - s.x) * t) + n.y * (s.y + (e.y - s.y) * t) + n.z * (s.z + (e.z - s.z) * t) + d;
      (1.0 - t) * (n.x * s.x + n.y * s.y + n.z * s.z + d) + t * (n.x * e.x + n.y * e.y + n.z * e.z + d);
    }
  }
}
