/** The gate that decides, from the two slice normals, whether a
    cross-reference overlay is drawn (`AreVectorsOrthogonal`,
    `AreVectorsApproximatelyEqual`, and the checks in
    `UpdateCrossReferenceLines`). */
module Relation {
  import opened Vectors

  /** Largest |a . b| still taken as perpendicular. */
  const OrthogonalityTolerance: real := 0.05

  /** Default distance below which two normals are taken as the same. */
  const EqualityTolerance: real := 0.01

  function Abs(r: real): real { if r < 0.0 then -r else r }

  /** `AreVectorsOrthogonal`: the dot product is within the orthogonality
      tolerance of zero. Exactly perpendicular vectors always pass. */
  function AreVectorsOrthogonal(a: Vector3D, b: Vector3D): (r: bool)
    ensures Dot(a, b) == 0.0 ==> r
    ensures r <==> Dot(a, b) * Dot(a, b) < OrthogonalityTolerance * OrthogonalityTolerance
  {
    AbsBelowIffSquareBelow(Dot(a, b), OrthogonalityTolerance);
    Abs(Dot(a, b)) < OrthogonalityTolerance
  }

  /** `AreVectorsApproximatelyEqual`: the squared Euclidean distance of the
      two vectors is below the squared tolerance. */
  function AreVectorsApproximatelyEqual(a: Vector3D, b: Vector3D, tolerance: real := EqualityTolerance): (r: bool)
    ensures r <==> Dot(Sub(a, b), Sub(a, b)) < tolerance * tolerance
  {
    var dx := a.x - b.x;
    var dy := a.y - b.y;
    var dz := a.z - b.z;
    dx * dx + dy * dy + dz * dz < tolerance * tolerance
  }

  lemma AbsBelowIffSquareBelow(d: real, t: real)
    requires t > 0.0
    ensures Abs(d) < t <==> d * d < t * t
  {
    var m := Abs(d);
    assert m >= 0.0;
    assert d * d == m * m;
    if m < t {
      var p := t - m;
      ProductSign(p, t + m);
      assert p * (t + m) > 0.0;
      assert p * (t + m) == t * t - m * m;
    } else {
      ProductSign(m - t, t + m);
      assert (m - t) * (t + m) == m * m - t * t;
      assert d * d >= t * t;
    }
  }

  lemma ProductSign(p: real, q: real)
    requires p >= 0.0 && q > 0.0
    ensures p * q >= 0.0 && (p > 0.0 ==> p * q > 0.0)
  {
  }

  /** Whether `UpdateCrossReferenceLines` goes on to draw: the squared
      distance of the normals is at least 0.01 squared and the absolute value
      of their dot product is below 0.05, so nearly perpendicular normals
      pass too. */
  predicate CrossReferenceApplies(normalLeft: Vector3D, normalRight: Vector3D)
  {
    !AreVectorsApproximatelyEqual(normalLeft, normalRight) && AreVectorsOrthogonal(normalLeft, normalRight)
  }

  lemma OrthogonalSymmetric(a: Vector3D, b: Vector3D)
    ensures AreVectorsOrthogonal(a, b) == AreVectorsOrthogonal(b, a)
  {
    DotSymmetric(a, b);
  }

  lemma ApproximatelyEqualSymmetric(a: Vector3D, b: Vector3D, tolerance: real)
    ensures AreVectorsApproximatelyEqual(a, b, tolerance) == AreVectorsApproximatelyEqual(b, a, tolerance)
  {
  }

  lemma ApproximatelyEqualReflexive(n: Vector3D, tolerance: real)
    requires tolerance > 0.0
    ensures AreVectorsApproximatelyEqual(n, n, tolerance)
  {
  }

  /** Antiparallel normals are not "approximately equal": the distance from
      `n` to `-n` is twice the length of `n`. */
  lemma AntiparallelNotApproximatelyEqual(n: Vector3D, tolerance: real)
    requires 4.0 * Dot(n, n) >= tolerance * tolerance
    ensures !AreVectorsApproximatelyEqual(n, Scale(n, -1.0), tolerance)
  {
    var d := Sub(n, Scale(n, -1.0));
    assert d == Scale(n, 2.0);
    DotScale(n, 2.0, d);
    DotSymmetric(n, d);
    DotScale(n, 2.0, n);
  }

  /** Two series with the same normal get no overlay. */
  lemma ParallelNormalsRejected(n: Vector3D)
    ensures !CrossReferenceApplies(n, n)
  {
  }

  /** Two series with opposite unit normals get no overlay either: they are
      not approximately equal, but they are far from perpendicular. */
  lemma AntiparallelNormalsRejected(n: Vector3D)
    requires Dot(n, n) == 1.0
    ensures !CrossReferenceApplies(n, Scale(n, -1.0))
  {
    DotSymmetric(n, Scale(n, -1.0));
    DotScale(n, -1.0, n);
  }

  /** Two perpendicular unit normals pass the gate. */
  lemma PerpendicularUnitNormalsAccepted(a: Vector3D, b: Vector3D)
    requires Dot(a, a) == 1.0 && Dot(b, b) == 1.0 && Dot(a, b) == 0.0
    ensures CrossReferenceApplies(a, b)
  {
    var d := Sub(a, b);
    DotSub(a, b, d);
    DotSymmetric(a, d);
    DotSymmetric(b, d);
    DotSub(a, b, a);
    DotSub(a, b, b);
    DotSymmetric(a, b);
    assert Dot(d, d) == 2.0;
  }
}
