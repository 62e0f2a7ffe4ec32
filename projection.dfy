/** Mapping patient-space points into the pixel frame of a target series
    (`ProjectToViewer`). */
module Projection {
  import opened Vectors
  import opened Series

  /** A point on an overlay canvas, in pixels. */
  datatype Point = Point(x: real, y: real)

  function Min(a: real, b: real): real { if a <= b then a else b }

  function Max(a: real, b: real): real { if a >= b then a else b }

  /** `Math.Max(0, Math.Min(hi, v))`: keeps a coordinate on a canvas of extent `hi`. */
  function Clamp(v: real, hi: real): (r: real)
    ensures 0.0 <= r
    ensures 0.0 <= hi ==> r <= hi
    ensures 0.0 <= v <= hi ==> r == v
    ensures v < 0.0 ==> r == 0.0
    ensures 0.0 <= hi < v ==> r == hi
  {
    Max(0.0, Min(hi, v))
  }

  /** The patient-space position of the pixel position (`u`, `v`) of slice `k`
      of `s`: `origin + row * spacingX * u + col * spacingY * v`. */
  function SlicePoint(s: SeriesGeometry, k: nat, u: real, v: real): Vector3D
    requires k < |s.imageOrigins|
  {
    Add(Add(s.imageOrigins[k], Scale(Scale(s.rowDirection, s.pixelSpacingX), u)),
        Scale(Scale(s.colDirection, s.pixelSpacingY), v))
  }

  /** The target's pixel coordinates of `point` before clamping: the offset
      from the target's slice-0 origin, measured along its row and column
      directions, in pixels. The offset along the normal is discarded. */
  function PixelCoordinates(target: SeriesGeometry, point: Vector3D): Point
    requires ValidGeometry(target)
  {
    var offset := Sub(point, target.imageOrigins[0]);
    Point(Dot(offset, target.rowDirection) / target.pixelSpacingX,
          Dot(offset, target.colDirection) / target.pixelSpacingY)
  }

  /** The target's own slice-0 origin is pixel (0, 0). */
  lemma OriginIsPixelZero(target: SeriesGeometry)
    requires ValidGeometry(target)
    ensures PixelCoordinates(target, target.imageOrigins[0]) == Point(0.0, 0.0)
  {
  }

  /** `ProjectToViewer`: pixel coordinates clamped to a canvas of the given
      size. A coordinate already on the canvas is passed through unchanged. */
  function ProjectToViewer(target: SeriesGeometry, point: Vector3D, canvasWidth: real, canvasHeight: real): (p: Point)
    requires ValidGeometry(target)
    ensures 0.0 <= p.x && (0.0 <= canvasWidth ==> p.x <= canvasWidth)
    ensures 0.0 <= p.y && (0.0 <= canvasHeight ==> p.y <= canvasHeight)
    ensures var u := PixelCoordinates(target, point);
            (0.0 <= u.x <= canvasWidth ==> p.x == u.x) && (0.0 <= u.y <= canvasHeight ==> p.y == u.y)
    ensures var u := PixelCoordinates(target, point);
            (u.x < 0.0 ==> p.x == 0.0) && (u.y < 0.0 ==> p.y == 0.0)
    ensures var u := PixelCoordinates(target, point);
            (0.0 <= canvasWidth < u.x ==> p.x == canvasWidth) && (0.0 <= canvasHeight < u.y ==> p.y == canvasHeight)
    ensures point == target.imageOrigins[0] && 0.0 <= canvasWidth && 0.0 <= canvasHeight ==> p == Point(0.0, 0.0)
  {
    OriginIsPixelZero(target);
    var u := PixelCoordinates(target, point);
    Point(Clamp(u.x, canvasWidth), Clamp(u.y, canvasHeight))
  }

  /** The offset of `SlicePoint` from its slice origin, measured along any
      direction `w`. */
  lemma SlicePointOffset(s: SeriesGeometry, k: nat, u: real, v: real, w: Vector3D)
    requires k < |s.imageOrigins|
    ensures Dot(Sub(SlicePoint(s, k, u, v), s.imageOrigins[k]), w) ==
            u * (s.pixelSpacingX * Dot(s.rowDirection, w)) + v * (s.pixelSpacingY * Dot(s.colDirection, w))
  {
    var a := Scale(Scale(s.rowDirection, s.pixelSpacingX), u);
    var b := Scale(Scale(s.colDirection, s.pixelSpacingY), v);
    DotScaleTwice(s.rowDirection, s.pixelSpacingX, u, w);
    DotScaleTwice(s.colDirection, s.pixelSpacingY, v, w);
    DotAdd(a, b, w);
    assert Sub(SlicePoint(s, k, u, v), s.imageOrigins[k]) == Add(a, b);
  }

  /** Pixel coordinates invert `SlicePoint` on the target's own slice 0: the
      pixel position (`u`, `v`) taken into patient space and back is (`u`, `v`). */
  lemma PixelRoundTrip(target: SeriesGeometry, u: real, v: real)
    requires ValidGeometry(target) && Orthonormal(target)
    ensures PixelCoordinates(target, SlicePoint(target, 0, u, v)) == Point(u, v)
  {
    var row, col := target.rowDirection, target.colDirection;
    var sx, sy := target.pixelSpacingX, target.pixelSpacingY;
    var offset := Sub(SlicePoint(target, 0, u, v), target.imageOrigins[0]);
    DotSymmetric(row, col);
    var dr, dc := Dot(offset, row), Dot(offset, col);
    SlicePointOffset(target, 0, u, v, row);
    assert dr == u * (sx * 1.0) + v * (sy * 0.0);
    SlicePointOffset(target, 0, u, v, col);
    assert dc == u * (sx * 0.0) + v * (sy * 1.0);
    DivideBack(dr, sx, u);
    DivideBack(dc, sy, v);
  }

  lemma DivideBack(a: real, s: real, u: real)
    requires s != 0.0 && a == u * s
    ensures a / s == u
  {
  }

  /** Every slice of a stack whose origins are displaced only along the
      normal shares the same pixel frame: the pixel position (`u`, `v`) of
      slice `k` also maps to (`u`, `v`). */
  lemma StackedSlicePixelRoundTrip(target: SeriesGeometry, k: nat, u: real, v: real)
    requires ValidGeometry(target) && Orthonormal(target) && k < |target.imageOrigins|
    requires var d := Sub(target.imageOrigins[k], target.imageOrigins[0]);
             Dot(d, target.rowDirection) == 0.0 && Dot(d, target.colDirection) == 0.0
    ensures PixelCoordinates(target, SlicePoint(target, k, u, v)) == Point(u, v)
  {
    var p0 := SlicePoint(target, 0, u, v);
    var pk := SlicePoint(target, k, u, v);
    var d := Sub(target.imageOrigins[k], target.imageOrigins[0]);
    assert Sub(pk, target.imageOrigins[0]) == Add(Sub(p0, target.imageOrigins[0]), d);
    PixelRoundTrip(target, u, v);
  }
}
