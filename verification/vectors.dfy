/**
  Exact three-dimensional vectors over the reals, standing for the `Vector3d`
  type the viewer is built on: `+`, `-`, scaling, `*` (dot product) and `%`
  (cross product). Coordinates are Dafny `real`s, so there is no rounding.
 */
module Vectors {

  datatype Vector3 = Vector3(x: real, y: real, z: real)

  /** The origin, and the value of a default-constructed vector. */
  const Zero := Vector3(0.0, 0.0, 0.0)

  function Add(u: Vector3, v: Vector3): Vector3 {
    Vector3(u.x + v.x, u.y + v.y, u.z + v.z)
  }

  function Sub(u: Vector3, v: Vector3): Vector3 {
    Vector3(u.x - v.x, u.y - v.y, u.z - v.z)
  }

  function Scale(k: real, v: Vector3): Vector3 {
    Vector3(k * v.x, k * v.y, k * v.z)
  }

  /** Componentwise division by a scalar (`v / k`). */
  function Div(v: Vector3, k: real): Vector3
    requires k != 0.0
  {
    Vector3(v.x / k, v.y / k, v.z / k)
  }

  function Dot(u: Vector3, v: Vector3): real {
    u.x * v.x + u.y * v.y + u.z * v.z
  }

  function Cross(u: Vector3, v: Vector3): Vector3 {
    Vector3(u.y * v.z - u.z * v.y, u.z * v.x - u.x * v.z, u.x * v.y - u.y * v.x)
  }

  /** The scalar triple product u . (v x w): six times a signed volume. */
  function Triple(u: Vector3, v: Vector3, w: Vector3): real {
    Dot(u, Cross(v, w))
  }

  /** Squared Euclidean distance. */
  function Dist2(p: Vector3, q: Vector3): real {
    Dot(Sub(p, q), Sub(p, q))
  }

  lemma DotSelfNonNegative(u: Vector3)
    ensures Dot(u, u) >= 0.0
  {
  }

  lemma DotAdd(u: Vector3, v: Vector3, w: Vector3)
    ensures Dot(u, Add(v, w)) == Dot(u, v) + Dot(u, w)
  {
  }

  lemma DotScale(u: Vector3, k: real, v: Vector3)
    ensures Dot(u, Scale(k, v)) == k * Dot(u, v)
  {
  }

  /** The cross product is orthogonal to both factors. */
  lemma CrossOrthogonal(u: Vector3, v: Vector3)
    ensures Dot(Cross(u, v), u) == 0.0 && Dot(Cross(u, v), v) == 0.0
  {
  }

  /** Exchanging two factors of the triple product negates it. */
  lemma TripleSwapFirst(u: Vector3, v: Vector3, w: Vector3)
    ensures Triple(v, u, w) == -Triple(u, v, w)
  {
  }

  /** The triple product is invariant under cyclic rotation of its factors. */
  lemma TripleRotate(u: Vector3, v: Vector3, w: Vector3)
    ensures Triple(u, v, w) == Triple(v, w, u)
  {
  }
}
