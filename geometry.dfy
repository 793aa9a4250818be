/// Integer 3-vectors standing in for glm::vec3, and the six signed unit axis
/// directions. Positions, offsets and colours are held in thousandths of a
/// unit so that every step the program takes is exact.
module Geometry {

  datatype Vec3 = Vec3(x: int, y: int, z: int)

  /** The same value in all three components: glm's vec3(v). */
  function Fill(v: int): Vec3 {
    Vec3(v, v, v)
  }

  function Add(a: Vec3, b: Vec3): Vec3 {
    Vec3(a.x + b.x, a.y + b.y, a.z + b.z)
  }

  function Times(k: int, v: Vec3): Vec3 {
    Vec3(k * v.x, k * v.y, k * v.z)
  }

  datatype Axis = XAxis | YAxis | ZAxis

  /** A signed unit axis: +X, -X, +Y, -Y, +Z or -Z. */
  datatype Dir = Dir(axis: Axis, positive: bool)

  /** The direction as a vector with one component 1 or -1. */
  function Unit(d: Dir): Vec3 {
    var s := if d.positive then 1 else -1;
    match d.axis
    case XAxis => Vec3(s, 0, 0)
    case YAxis => Vec3(0, s, 0)
    case ZAxis => Vec3(0, 0, s)
  }

  function Negate(d: Dir): Dir {
    d.(positive := !d.positive)
  }

  /** The cyclic successor: X, Y, Z, X. */
  function Next(a: Axis): Axis {
    match a
    case XAxis => YAxis
    case YAxis => ZAxis
    case ZAxis => XAxis
  }

  /** The cross product of two perpendicular signed axes, by the right-hand
      rule: e_a x e_Next(a) = e_Next(Next(a)), the reversed pair gives the
      negated axis, and each sign flip of a factor flips the result. */
  function CrossDir(a: Dir, b: Dir): Dir
    requires a.axis != b.axis
  {
    var cyclic := Next(a.axis) == b.axis;
    var third := if cyclic then Next(b.axis) else Next(a.axis);
    Dir(third, (a.positive == b.positive) == cyclic)
  }

  /** The cross product is perpendicular to both factors, X x Y = Z, Y x Z =
      X, Z x X = Y, it anticommutes and it is linear in the sign of each
      factor. */
  lemma CrossDirIsRightHanded(a: Dir, b: Dir)
    requires a.axis != b.axis
    ensures CrossDir(a, b).axis != a.axis && CrossDir(a, b).axis != b.axis
    ensures CrossDir(Dir(XAxis, true), Dir(YAxis, true)) == Dir(ZAxis, true)
    ensures CrossDir(Dir(YAxis, true), Dir(ZAxis, true)) == Dir(XAxis, true)
    ensures CrossDir(Dir(ZAxis, true), Dir(XAxis, true)) == Dir(YAxis, true)
    ensures CrossDir(b, a) == Negate(CrossDir(a, b))
    ensures CrossDir(Negate(a), b) == Negate(CrossDir(a, b)) == CrossDir(a, Negate(b))
  {
  }
}
