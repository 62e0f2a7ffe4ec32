/** Three-dimensional vector algebra over patient space (millimetres), the
    `Vector3D` struct and its operators. Doubles are modelled as exact reals.
    The operations are stated by the lemmas that follow them rather than by
    postconditions of their own, so that a proof only draws on the facts it
    asks for. */
module Vectors {

  /** A point or a direction in patient space. */
  datatype Vector3D = Vector3D(x: real, y: real, z: real)

  /** `a - b`, the vector that leads from `b` to `a`. */
  function Sub(a: Vector3D, b: Vector3D): Vector3D
  {
    Vector3D(a.x - b.x, a.y - b.y, a.z - b.z)
  }

  /** `a + b` */
  function Add(a: Vector3D, b: Vector3D): Vector3D
  {
    Vector3D(a.x + b.x, a.y + b.y, a.z + b.z)
  }

  /** `v * s` */
  function Scale(v: Vector3D, s: real): Vector3D
  {
    Vector3D(v.x * s, v.y * s, v.z * s)
  }

  /** `Vector3D.Dot` */
  function Dot(a: Vector3D, b: Vector3D): real
  {
    a.x * b.x + a.y * b.y + a.z * b.z
  }

  /** `Vector3D.Cross` */
  function Cross(a: Vector3D, b: Vector3D): Vector3D
  {
    Vector3D(
      a.y * b.z - a.z * b.y,
      a.z * b.x - a.x * b.z,
      a.x * b.y - a.y * b.x)
  }

  /** Subtraction undoes addition, and addition undoes subtraction. */
  lemma AddSubInverse(a: Vector3D, b: Vector3D)
    ensures Sub(Add(a, b), b) == a
    ensures Add(Sub(a, b), b) == a
  {
  }

  lemma DotSymmetric(a: Vector3D, b: Vector3D)
    ensures Dot(a, b) == Dot(b, a)
  {
  }

  /** The squared length `Dot(v, v)` is never negative. */
  lemma DotSelfNonNegative(v: Vector3D)
    ensures Dot(v, v) >= 0.0
  {
  }

  /** The dot product is linear in its first argument. */
  lemma DotAdd(a: Vector3D, b: Vector3D, w: Vector3D)
    ensures Dot(Add(a, b), w) == Dot(a, w) + Dot(b, w)
  {
  }

  lemma DotSub(a: Vector3D, b: Vector3D, w: Vector3D)
    ensures Dot(Sub(a, b), w) == Dot(a, w) - Dot(b, w)
  {
  }

  lemma DotScale(v: Vector3D, s: real, w: Vector3D)
    ensures Dot(Scale(v, s), w) == s * Dot(v, w)
  {
  }

  lemma DotScaleTwice(v: Vector3D, s: real, t: real, w: Vector3D)
    ensures Dot(Scale(Scale(v, s), t), w) == t * (s * Dot(v, w))
  {
    DotScale(Scale(v, s), t, w);
    DotScale(v, s, w);
  }

  /** The cross product is perpendicular to both of its arguments. */
  lemma CrossPerpendicular(a: Vector3D, b: Vector3D)
    ensures Dot(Cross(a, b), a) == 0.0 && Dot(Cross(a, b), b) == 0.0
  {
  }

  /** Lagrange's identity: |a x b|^2 == |a|^2 |b|^2 - (a . b)^2. */
  lemma CrossLength(a: Vector3D, b: Vector3D)
    ensures Dot(Cross(a, b), Cross(a, b)) == Dot(a, a) * Dot(b, b) - Dot(a, b) * Dot(a, b)
  {
  }

  /** The cross product of two perpendicular unit vectors is a unit vector. */
  lemma CrossOfOrthonormalIsUnit(a: Vector3D, b: Vector3D)
    requires Dot(a, a) == 1.0 && Dot(b, b) == 1.0 && Dot(a, b) == 0.0
    ensures Dot(Cross(a, b), Cross(a, b)) == 1.0
  {
    CrossLength(a, b);
  }
}
