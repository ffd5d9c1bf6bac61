/** Exact three-component vectors and the optional-value wrapper shared by the
    other modules. The demo uses glm's single-precision vectors; here every
    component is an unbounded real, so sums and differences are exact. */
module Vectors {

  datatype Option<+T> = None | Some(value: T)

  datatype Vec3 = Vec3(x: real, y: real, z: real)

  const Zero: Vec3 := Vec3(0.0, 0.0, 0.0)

  function Add(a: Vec3, b: Vec3): Vec3 {
    Vec3(a.x + b.x, a.y + b.y, a.z + b.z)
  }

  function Sub(a: Vec3, b: Vec3): Vec3 {
    Vec3(a.x - b.x, a.y - b.y, a.z - b.z)
  }

  function Scale(k: real, a: Vec3): Vec3 {
    Vec3(k * a.x, k * a.y, k * a.z)
  }

  function Dot(a: Vec3, b: Vec3): real {
    a.x * b.x + a.y * b.y + a.z * b.z
  }

  /** Right-handed cross product, as glm::cross computes it. */
  function Cross(a: Vec3, b: Vec3): Vec3 {
    Vec3(a.y * b.z - a.z * b.y, a.z * b.x - a.x * b.z, a.x * b.y - a.y * b.x)
  }

  /** One of the six signed unit vectors along a coordinate axis. */
  predicate IsUnitAxis(a: Vec3) {
    a in {Vec3(1.0, 0.0, 0.0), Vec3(-1.0, 0.0, 0.0),
          Vec3(0.0, 1.0, 0.0), Vec3(0.0, -1.0, 0.0),
          Vec3(0.0, 0.0, 1.0), Vec3(0.0, 0.0, -1.0)}
  }

  /** Sum of a sequence of vectors, folded from the left. */
  function Sum(vs: seq<Vec3>): Vec3 {
    if |vs| == 0 then Zero else Add(Sum(vs[..|vs| - 1]), vs[|vs| - 1])
  }

  lemma UnitAxisHasUnitLength(a: Vec3)
    requires IsUnitAxis(a)
    ensures Dot(a, a) == 1.0
  {
  }

  lemma CrossIsOrthogonal(a: Vec3, b: Vec3)
    ensures Dot(a, Cross(a, b)) == 0.0
  {
  }
}
