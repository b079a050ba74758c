/** The three-component vector and the small vector algebra the curves are built from.
    The source stores doubles; this model uses exact reals. */
module Vectors {

  /** A point or direction in space; the source's mutable record is only ever used as a value. */
  datatype Vector3 = Vector3(x: real, y: real, z: real)

  const Zero: Vector3 := Vector3(0.0, 0.0, 0.0)

  /** Componentwise sum and difference, and the dot product: specification helpers. */
  function Add(u: Vector3, v: Vector3): Vector3 {
    Vector3(u.x + v.x, u.y + v.y, u.z + v.z)
  }

  function Sub(u: Vector3, v: Vector3): Vector3 {
    Vector3(u.x - v.x, u.y - v.y, u.z - v.z)
  }

  function Dot(u: Vector3, v: Vector3): real {
    u.x * v.x + u.y * v.y + u.z * v.z
  }

  /** The square of a scalar is never negative. */
  function Sqr(x: real): (r: real)
    ensures r >= 0.0
  {
    x * x
  }

  /** The squared length of a vector: never negative, and the dot product of the vector
      with itself. */
  function Norm2(v: Vector3): (r: real)
    ensures r >= 0.0
    ensures r == Dot(v, v)
  {
    Sqr(v.x) + Sqr(v.y) + Sqr(v.z)
  }

  /** Uniform scaling: a fresh vector, the input is not changed. */
  function Scale(c: real, v: Vector3): Vector3 {
    Vector3(c * v.x, c * v.y, c * v.z)
  }

  /** Scaling by c scales the squared length by c². */
  lemma ScaleNorm2(c: real, v: Vector3)
    ensures Norm2(Scale(c, v)) == Sqr(c) * Norm2(v)
  {
  }

  /** Scaling is linear in the dot product. */
  lemma ScaleLinear(c: real, u: Vector3, v: Vector3)
    ensures Dot(Scale(c, u), v) == c * Dot(u, v)
  {
  }

  /** The cross product of two vectors. */
  function Cross(u: Vector3, v: Vector3): (w: Vector3)
    ensures Dot(w, u) == 0.0 && Dot(w, v) == 0.0
  {
    Vector3(u.y * v.z - u.z * v.y,
            u.z * v.x - u.x * v.z,
            u.x * v.y - u.y * v.x)
  }

  /** The cross product is anticommutative, and a vector crossed with itself is zero. */
  lemma CrossAnticommutative(u: Vector3, v: Vector3)
    ensures Cross(u, v) == Scale(-1.0, Cross(v, u))
    ensures Cross(u, u) == Zero
  {
  }
}
