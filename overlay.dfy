/** The overlay primitives drawn on a target viewer: one field-of-view quad
    per source slice (`DrawFOVBox`) and the vertical cross-reference line
    (`DrawCrossReferenceLine`), as values in the target's pixel frame. */
module Overlay {
  import opened Wrappers
  import opened Vectors
  import opened Series
  import opened Projection

  /** The four corners of one slice's rectangle in patient space, in the
      order the polygon visits them. */
  datatype Corners = Corners(c1: Vector3D, c2: Vector3D, c3: Vector3D, c4: Vector3D)

  /** One field-of-view polygon; `highlighted` marks the selected slice
      (drawn red instead of green). */
  datatype FovQuad = FovQuad(p1: Point, p2: Point, p3: Point, p4: Point, highlighted: bool)

  /** A line segment on a canvas, in pixels. */
  datatype Line = Line(x1: real, y1: real, x2: real, y2: real)

  /** What an overlay canvas holds. */
  datatype Shape = Polygon(quad: FovQuad) | Segment(line: Line)

  predicate OnCanvas(p: Point, width: real, height: real)
  {
    0.0 <= p.x <= width && 0.0 <= p.y <= height
  }

  /** Corners of slice `i`: its origin, then along the row for `width`
      pixels, then along the column for `height` pixels, then back. */
  function SliceCorners(s: SeriesGeometry, i: nat): Corners
    requires i < |s.imageOrigins|
  {
    var origin := s.imageOrigins[i];
    var c2 := Add(origin, Scale(Scale(s.rowDirection, s.pixelSpacingX), s.width as real));
    var c3 := Add(c2, Scale(Scale(s.colDirection, s.pixelSpacingY), s.height as real));
    var c4 := Add(origin, Scale(Scale(s.colDirection, s.pixelSpacingY), s.height as real));
    Corners(origin, c2, c3, c4)
  }

  /** The corners are the pixel positions (0,0), (width,0), (width,height)
      and (0,height) of the slice, and they form a parallelogram: the third
      corner is the fourth moved by the row edge, and the row edges are
      equal. */
  lemma SliceCornersArePixelRectangle(s: SeriesGeometry, i: nat)
    requires i < |s.imageOrigins|
    ensures SliceCorners(s, i).c1 == s.imageOrigins[i]
    ensures SliceCorners(s, i).c2 == SlicePoint(s, i, s.width as real, 0.0)
    ensures SliceCorners(s, i).c3 == SlicePoint(s, i, s.width as real, s.height as real)
    ensures SliceCorners(s, i).c4 == SlicePoint(s, i, 0.0, s.height as real)
    ensures SliceCorners(s, i).c3 ==
            Add(SliceCorners(s, i).c4, Scale(Scale(s.rowDirection, s.pixelSpacingX), s.width as real))
    ensures Sub(SliceCorners(s, i).c2, SliceCorners(s, i).c1) == Sub(SliceCorners(s, i).c3, SliceCorners(s, i).c4)
  {
  }

  /** A projected point multiplied by the zoom factor; zoom 1 leaves it as it is. */
  function ZoomPoint(p: Point, zoom: real): (r: Point)
    ensures zoom == 1.0 ==> r == p
  {
    Point(p.x * zoom, p.y * zoom)
  }

  /** A point on the canvas lands, zoomed, on the zoomed canvas. */
  lemma ZoomKeepsOnCanvas(p: Point, zoom: real, width: real, height: real)
    requires 0.0 <= zoom && OnCanvas(p, width, height)
    ensures OnCanvas(ZoomPoint(p, zoom), width * zoom, height * zoom)
  {
    ScaleBelow(p.x, width, zoom);
    ScaleBelow(p.y, height, zoom);
  }

  lemma ScaleBelow(v: real, hi: real, zoom: real)
    requires 0.0 <= zoom && 0.0 <= v <= hi
    ensures 0.0 <= v * zoom <= hi * zoom
  {
    assert hi * zoom - v * zoom == (hi - v) * zoom;
  }

  /** The quad of source slice `i`: its corners projected into the target's
      pixel frame (clamped to a canvas of the given size) and zoomed. It is
      highlighted exactly when `i` is the selected slice. */
  function FovQuadAt(source: SeriesGeometry, sliceIndex: int, target: SeriesGeometry, i: nat,
                     zoom: real, canvasWidth: real, canvasHeight: real): (q: FovQuad)
    requires ValidGeometry(target) && i < |source.imageOrigins|
    ensures q.highlighted <==> i == sliceIndex
  {
    var c := SliceCorners(source, i);
    FovQuad(
      ZoomPoint(ProjectToViewer(target, c.c1, canvasWidth, canvasHeight), zoom),
      ZoomPoint(ProjectToViewer(target, c.c2, canvasWidth, canvasHeight), zoom),
      ZoomPoint(ProjectToViewer(target, c.c3, canvasWidth, canvasHeight), zoom),
      ZoomPoint(ProjectToViewer(target, c.c4, canvasWidth, canvasHeight), zoom),
      i == sliceIndex)
  }

  /** Every corner of every quad lies on the zoomed canvas. */
  lemma FovQuadOnCanvas(source: SeriesGeometry, sliceIndex: int, target: SeriesGeometry, i: nat,
                        zoom: real, canvasWidth: real, canvasHeight: real)
    requires ValidGeometry(target) && i < |source.imageOrigins|
    requires 0.0 <= zoom && 0.0 <= canvasWidth && 0.0 <= canvasHeight
    ensures var q := FovQuadAt(source, sliceIndex, target, i, zoom, canvasWidth, canvasHeight);
            var w, h := canvasWidth * zoom, canvasHeight * zoom;
            OnCanvas(q.p1, w, h) && OnCanvas(q.p2, w, h) && OnCanvas(q.p3, w, h) && OnCanvas(q.p4, w, h)
  {
    var c := SliceCorners(source, i);
    ZoomKeepsOnCanvas(ProjectToViewer(target, c.c1, canvasWidth, canvasHeight), zoom, canvasWidth, canvasHeight);
    ZoomKeepsOnCanvas(ProjectToViewer(target, c.c2, canvasWidth, canvasHeight), zoom, canvasWidth, canvasHeight);
    ZoomKeepsOnCanvas(ProjectToViewer(target, c.c3, canvasWidth, canvasHeight), zoom, canvasWidth, canvasHeight);
    ZoomKeepsOnCanvas(ProjectToViewer(target, c.c4, canvasWidth, canvasHeight), zoom, canvasWidth, canvasHeight);
  }

  /** All quads of `DrawFOVBox`, one per source slice, in slice order,
      whatever the target. */
  function FovQuads(source: SeriesGeometry, sliceIndex: int, target: SeriesGeometry,
                    zoom: real, canvasWidth: real, canvasHeight: real): (qs: seq<FovQuad>)
    requires ValidGeometry(target)
    ensures |qs| == |source.imageOrigins|
    ensures forall i :: 0 <= i < |qs| ==> qs[i] == FovQuadAt(source, sliceIndex, target, i, zoom, canvasWidth, canvasHeight)
  {
    seq(|source.imageOrigins|, i requires 0 <= i < |source.imageOrigins| =>
      FovQuadAt(source, sliceIndex, target, i, zoom, canvasWidth, canvasHeight))
  }

  /** Only the selected slice's quad is highlighted, and it is highlighted
      whenever the selected index names a slice. */
  lemma FovHighlightsSelectedSliceOnly(source: SeriesGeometry, sliceIndex: int, target: SeriesGeometry,
                                       zoom: real, canvasWidth: real, canvasHeight: real)
    requires ValidGeometry(target)
    ensures var qs := FovQuads(source, sliceIndex, target, zoom, canvasWidth, canvasHeight);
            (forall i :: 0 <= i < |qs| ==> (qs[i].highlighted <==> i == sliceIndex)) &&
            (0 <= sliceIndex < |qs| ==> qs[sliceIndex].highlighted) &&
            (forall i, j :: 0 <= i < |qs| && 0 <= j < |qs| && qs[i].highlighted && qs[j].highlighted ==> i == j)
  {
  }

  /** The quads drawn onto a series' own viewer for an orthonormal series are
      its pixel rectangle: slice 0 covers (0,0), (width,0), (width,height),
      (0,height) when the canvas is large enough and the zoom is 1. */
  lemma FovOfOwnFirstSlice(s: SeriesGeometry, sliceIndex: int, canvasWidth: real, canvasHeight: real)
    requires ValidGeometry(s) && Orthonormal(s)
    requires 0 <= s.width && s.width as real <= canvasWidth && 0 <= s.height && s.height as real <= canvasHeight
    ensures var q := FovQuadAt(s, sliceIndex, s, 0, 1.0, canvasWidth, canvasHeight);
            var w, h := s.width as real, s.height as real;
            q.p1 == Point(0.0, 0.0) && q.p2 == Point(w, 0.0) && q.p3 == Point(w, h) && q.p4 == Point(0.0, h)
  {
    var w, h := s.width as real, s.height as real;
    SliceCornersArePixelRectangle(s, 0);
    PixelRoundTrip(s, 0.0, 0.0);
    PixelRoundTrip(s, w, 0.0);
    PixelRoundTrip(s, w, h);
    PixelRoundTrip(s, 0.0, h);
  }

  /** The canvas children that a list of quads becomes. */
  function Polygons(qs: seq<FovQuad>): seq<Shape>
  {
    seq(|qs|, k requires 0 <= k < |qs| => Polygon(qs[k]))
  }

  /** The patient-space centre of slice `i`: half the width along the row and
      half the height along the column. */
  function SliceCenter(s: SeriesGeometry, i: nat): Vector3D
    requires i < |s.imageOrigins|
  {
    SlicePoint(s, i, s.width as real / 2.0, s.height as real / 2.0)
  }

  /** The centre is the midpoint of the first and third corners. */
  lemma SliceCenterIsMidpoint(s: SeriesGeometry, i: nat)
    requires i < |s.imageOrigins|
    ensures SliceCenter(s, i) == Scale(Add(SliceCorners(s, i).c1, SliceCorners(s, i).c3), 0.5)
  {
  }

  /** `point` moved along `normal` by its offset from `planeOrigin` measured
      along `normal`. */
  function PlaneProjection(point: Vector3D, planeOrigin: Vector3D, normal: Vector3D): Vector3D
  {
    var d := Dot(Sub(point, planeOrigin), normal);
    Sub(point, Scale(normal, d))
  }

  /** For a unit normal, the projection lies on the plane through
      `planeOrigin` with that normal. */
  lemma PlaneProjectionOnPlane(point: Vector3D, planeOrigin: Vector3D, normal: Vector3D)
    requires Dot(normal, normal) == 1.0
    ensures Dot(Sub(PlaneProjection(point, planeOrigin, normal), planeOrigin), normal) == 0.0
  {
    MoveAlong(point, planeOrigin, normal, Dot(Sub(point, planeOrigin), normal), normal);
  }

  /** Moving `point` by `d` times `normal` changes its offset from
      `planeOrigin`, measured along any direction `w`, by `d` times the
      component of `normal` along `w`; a direction perpendicular to `normal`
      does not see the move at all. */
  lemma MoveAlong(point: Vector3D, planeOrigin: Vector3D, normal: Vector3D, d: real, w: Vector3D)
    ensures Dot(Sub(Sub(point, Scale(normal, d)), planeOrigin), w) ==
            Dot(Sub(point, planeOrigin), w) - d * Dot(normal, w)
  {
    var offset := Sub(point, planeOrigin);
    var n := Scale(normal, d);
    DotScale(normal, d, w);
    DotSub(offset, n, w);
    assert Sub(Sub(point, n), planeOrigin) == Sub(offset, n);
  }

  /** The vertical segment at column `x` from the top of a canvas of height
      `canvasHeight` to its bottom, both zoomed by `zoom`. */
  function VerticalLine(x: real, zoom: real, canvasHeight: real): Line
  {
    Line(x * zoom, 0.0, x * zoom, canvasHeight * zoom)
  }

  /** `DrawCrossReferenceLine` as a value: nothing when the source index is
      past the last slice; otherwise a vertical segment from the top of the
      canvas down to its zoomed height. */
  function CrossReferenceLine(source: SeriesGeometry, sourceIndex: nat, target: SeriesGeometry,
                              zoom: real, canvasHeight: real): (r: Option<Line>)
    requires ValidGeometry(target)
    ensures r.None? <==> sourceIndex >= |source.imageOrigins|
    ensures r.Some? ==> r.value.x1 == r.value.x2 && r.value.y1 == 0.0 && r.value.y2 == canvasHeight * zoom
  {
    if |source.imageOrigins| <= sourceIndex then None
    else
      var x := PixelCoordinates(target, CrossReferencePoint(source, sourceIndex, target)).x;
      Some(VerticalLine(x, zoom, canvasHeight))
  }

  /** The point the line is computed from: the centre of the selected source
      slice, projected along the target normal onto the target's slice-0 plane. */
  function CrossReferencePoint(source: SeriesGeometry, sourceIndex: nat, target: SeriesGeometry): Vector3D
    requires ValidGeometry(target) && sourceIndex < |source.imageOrigins|
  {
    PlaneProjection(SliceCenter(source, sourceIndex), target.imageOrigins[0], target.SliceNormal())
  }

  /** The line sits at the target column of the source slice's centre:
      projecting onto the target plane first does not move that column,
      because the target normal is perpendicular to the target row direction. */
  lemma CrossReferenceColumn(source: SeriesGeometry, sourceIndex: nat, target: SeriesGeometry,
                             zoom: real, canvasHeight: real)
    requires ValidGeometry(target) && sourceIndex < |source.imageOrigins|
    ensures CrossReferenceLine(source, sourceIndex, target, zoom, canvasHeight) ==
            Some(VerticalLine(PixelCoordinates(target, SliceCenter(source, sourceIndex)).x, zoom, canvasHeight))
  {
    ColumnKeptByPlaneProjection(target, SliceCenter(source, sourceIndex));
  }

  /** Projecting any point along the target normal onto the target plane
      keeps its target column. */
  lemma ColumnKeptByPlaneProjection(target: SeriesGeometry, point: Vector3D)
    requires ValidGeometry(target)
    ensures PixelCoordinates(target, PlaneProjection(point, target.imageOrigins[0], target.SliceNormal())).x ==
            PixelCoordinates(target, point).x
  {
    var originB := target.imageOrigins[0];
    var normalB := target.SliceNormal();
    var row := target.rowDirection;
    var d := Dot(Sub(point, originB), normalB);
    MoveAlong(point, originB, normalB, d, row);
    SliceNormalPerpendicular(target);
  }

  /** For an orthonormal target, the point that the cross-reference line is
      computed from lies on the target's image plane. */
  lemma CrossReferencePointOnTargetPlane(source: SeriesGeometry, sourceIndex: nat, target: SeriesGeometry)
    requires ValidGeometry(target) && Orthonormal(target) && sourceIndex < |source.imageOrigins|
    ensures Dot(Sub(CrossReferencePoint(source, sourceIndex, target), target.imageOrigins[0]), target.SliceNormal()) == 0.0
  {
    SliceNormalIsUnit(target);
    PlaneProjectionOnPlane(SliceCenter(source, sourceIndex), target.imageOrigins[0], target.SliceNormal());
  }

  /** The canvas children that an optional line becomes. */
  function Segments(line: Option<Line>): seq<Shape>
  {
    if line.Some? then [Segment(line.value)] else []
  }
}
