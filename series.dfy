/** The spatial frame of one image series: the geometric fields of
    `SeriesThumbnailGroup`. */
module Series {
  import opened Vectors

  /** Orientation, per-slice origins, pixel spacing and pixel grid size of a
      series. `imageOrigins[i]` is the patient-space position of the top-left
      pixel of slice `i`; `width` and `height` are the column and row counts. */
  datatype SeriesGeometry = SeriesGeometry(
    rowDirection: Vector3D,
    colDirection: Vector3D,
    imageOrigins: seq<Vector3D>,
    pixelSpacingX: real,
    pixelSpacingY: real,
    width: int,
    height: int)
  {
    /** The normal of the image plane, derived on every access from the two
        axis vectors. */
    function SliceNormal(): Vector3D
    {
      Cross(rowDirection, colDirection)
    }
  }

  /** What every loaded series satisfies before it is used as a projection
      target: the loader creates a series only together with its first
      origin, and pixel spacings are positive physical sizes. */
  predicate ValidGeometry(s: SeriesGeometry)
  {
    |s.imageOrigins| > 0 && s.pixelSpacingX > 0.0 && s.pixelSpacingY > 0.0
  }

  /** Row and column directions are perpendicular unit vectors, as the DICOM
      image orientation attribute prescribes. */
  predicate Orthonormal(s: SeriesGeometry)
  {
    Dot(s.rowDirection, s.rowDirection) == 1.0 &&
    Dot(s.colDirection, s.colDirection) == 1.0 &&
    Dot(s.rowDirection, s.colDirection) == 0.0
  }

  /** The slice normal is perpendicular to the row and column directions. */
  lemma SliceNormalPerpendicular(s: SeriesGeometry)
    ensures Dot(s.SliceNormal(), s.rowDirection) == 0.0 && Dot(s.SliceNormal(), s.colDirection) == 0.0
  {
    CrossPerpendicular(s.rowDirection, s.colDirection);
  }

  /** For an orthonormal series, the slice normal is a unit vector. */
  lemma SliceNormalIsUnit(s: SeriesGeometry)
    requires Orthonormal(s)
    ensures Dot(s.SliceNormal(), s.SliceNormal()) == 1.0
  {
    CrossOfOrthonormalIsUnit(s.rowDirection, s.colDirection);
  }
}
