/** The overlay drawing of the main window: the two overlay canvases, the
    selection of a series and a slice in each viewer, and the methods that
    clear the canvases and draw FOV boxes and cross-reference lines on them. */
module Window {
  import opened Wrappers
  import opened Vectors
  import opened Series
  import opened Projection
  import opened Relation
  import opened Overlay

  /** The viewer a drawing call is made for. */
  datatype Viewer = Left | Right

  /** An overlay canvas: its child shapes and its laid-out size in pixels. */
  class Canvas {
    var children: seq<Shape>
    const actualWidth: real
    const actualHeight: real

    constructor (width: real, height: real)
      ensures children == [] && actualWidth == width && actualHeight == height
    {
      children := [];
      actualWidth := width;
      actualHeight := height;
    }

    method Clear()
      modifies this`children
      ensures children == []
    {
      children := [];
    }

    method Add(shape: Shape)
      modifies this`children
      ensures children == old(children) + [shape]
    {
      children := children + [shape];
    }
  }

  class MainWindow {
    const overlayCanvasLeft: Canvas
    const overlayCanvasRight: Canvas
    var leftSeries: Option<SeriesGeometry>
    var rightSeries: Option<SeriesGeometry>
    var leftImageIndex: nat
    var rightImageIndex: nat
    var leftZoom: real
    var rightZoom: real

    /** The two canvases are distinct and every selected series can serve
        as a projection target. */
    ghost predicate Valid()
      reads this
    {
      overlayCanvasLeft != overlayCanvasRight &&
      (leftSeries.Some? ==> ValidGeometry(leftSeries.value)) &&
      (rightSeries.Some? ==> ValidGeometry(rightSeries.value))
    }

    /** Nothing selected, both zooms 1. */
    constructor (left: Canvas, right: Canvas)
      requires left != right
      ensures Valid()
      ensures overlayCanvasLeft == left && overlayCanvasRight == right
      ensures leftSeries == None && rightSeries == None
      ensures leftImageIndex == 0 && rightImageIndex == 0
      ensures leftZoom == 1.0 && rightZoom == 1.0
    {
      overlayCanvasLeft := left;
      overlayCanvasRight := right;
      leftSeries := None;
      rightSeries := None;
      leftImageIndex := 0;
      rightImageIndex := 0;
      leftZoom := 1.0;
      rightZoom := 1.0;
    }

    /** The zoom `DrawFOVBox` applies: that of the viewer the canvas belongs to. */
    function CanvasZoom(canvas: Canvas): real
      reads this
    {
      if canvas == overlayCanvasLeft then leftZoom else rightZoom
    }

    /** The zoom `DrawCrossReferenceLine` applies: that of the viewer named by
        the call, which is the viewer of the source series. */
    function ViewerZoom(viewer: Viewer): real
      reads this
    {
      if viewer == Left then leftZoom else rightZoom
    }

    /** `DrawFOVBox`: replaces the canvas children by one polygon per source
        slice, in slice order. Corners are clamped to the size of the right
        overlay canvas, whichever canvas is drawn on. */
    method DrawFovBox(sourceSeries: SeriesGeometry, sourceSliceIndex: nat, targetSeries: SeriesGeometry,
                      targetCanvas: Canvas)
      requires ValidGeometry(targetSeries)
      modifies targetCanvas`children
      ensures targetCanvas.children ==
              Polygons(FovQuads(sourceSeries, sourceSliceIndex, targetSeries, CanvasZoom(targetCanvas),
                                overlayCanvasRight.actualWidth, overlayCanvasRight.actualHeight))
    {
      targetCanvas.Clear();
      var zoom := if targetCanvas == overlayCanvasLeft then leftZoom else rightZoom;
      ghost var quads := FovQuads(sourceSeries, sourceSliceIndex, targetSeries, zoom,
                                  overlayCanvasRight.actualWidth, overlayCanvasRight.actualHeight);
      var i := 0;
      while i < |sourceSeries.imageOrigins|
        invariant 0 <= i <= |sourceSeries.imageOrigins|
        invariant |targetCanvas.children| == i
        invariant forall k :: 0 <= k < i ==> targetCanvas.children[k] == Polygon(quads[k])
      {
        var corners := SliceCorners(sourceSeries, i);
        var canvasWidth, canvasHeight := overlayCanvasRight.actualWidth, overlayCanvasRight.actualHeight;
        var p1 := ZoomPoint(ProjectToViewer(targetSeries, corners.c1, canvasWidth, canvasHeight), zoom);
        var p2 := ZoomPoint(ProjectToViewer(targetSeries, corners.c2, canvasWidth, canvasHeight), zoom);
        var p3 := ZoomPoint(ProjectToViewer(targetSeries, corners.c3, canvasWidth, canvasHeight), zoom);
        var p4 := ZoomPoint(ProjectToViewer(targetSeries, corners.c4, canvasWidth, canvasHeight), zoom);

        var highlighted := i == sourceSliceIndex;
        targetCanvas.Add(Polygon(FovQuad(p1, p2, p3, p4, highlighted)));
        i := i + 1;
      }
    }

    /** `DrawCrossReferenceLine`: appends the cross-reference line, if any,
        to the canvas children. */
    method DrawCrossReferenceLine(viewer: Viewer, sourceSeries: SeriesGeometry, targetSeries: SeriesGeometry,
                                  sourceIndex: nat, targetCanvas: Canvas)
      requires ValidGeometry(targetSeries)
      modifies targetCanvas`children
      ensures targetCanvas.children ==
              old(targetCanvas.children) +
              Segments(CrossReferenceLine(sourceSeries, sourceIndex, targetSeries, ViewerZoom(viewer),
                                          targetCanvas.actualHeight))
    {
      if |sourceSeries.imageOrigins| <= sourceIndex {
        return;
      }

      var pointA := SliceCenter(sourceSeries, sourceIndex);
      var originB := targetSeries.imageOrigins[0];
      var normalB := targetSeries.SliceNormal();
      var projected := PlaneProjection(pointA, originB, normalB);
      var x := PixelCoordinates(targetSeries, projected).x;

      var zoom := if viewer == Left then leftZoom else rightZoom;
      var line := VerticalLine(x, zoom, targetCanvas.actualHeight);
      targetCanvas.Add(Segment(line));
    }

    /** `UpdateCrossReferenceLines`: clears both canvases; then, only when both
        viewers have a series and the two slice normals pass the tolerance
        gate (`CrossReferenceApplies`: squared distance at least 0.01
        squared, absolute dot product below 0.05), draws the left slice's
        line on the right canvas and the right slice's line on the left
        canvas. */
    method UpdateCrossReferenceLines()
      requires Valid()
      modifies overlayCanvasLeft`children, overlayCanvasRight`children
      ensures leftSeries.None? || rightSeries.None? ||
              !CrossReferenceApplies(leftSeries.value.SliceNormal(), rightSeries.value.SliceNormal()) ==>
                overlayCanvasLeft.children == [] && overlayCanvasRight.children == []
      ensures leftSeries.Some? && rightSeries.Some? &&
              CrossReferenceApplies(leftSeries.value.SliceNormal(), rightSeries.value.SliceNormal()) ==>
                overlayCanvasRight.children ==
                  Segments(CrossReferenceLine(leftSeries.value, leftImageIndex, rightSeries.value, leftZoom,
                                              overlayCanvasRight.actualHeight)) &&
                overlayCanvasLeft.children ==
                  Segments(CrossReferenceLine(rightSeries.value, rightImageIndex, leftSeries.value, rightZoom,
                                              overlayCanvasLeft.actualHeight))
    {
      overlayCanvasLeft.Clear();
      overlayCanvasRight.Clear();

      if leftSeries.None? || rightSeries.None? {
        return;
      }

      var normalLeft := leftSeries.value.SliceNormal();
      var normalRight := rightSeries.value.SliceNormal();

      if AreVectorsApproximatelyEqual(normalLeft, normalRight) {
        return;
      }

      if !AreVectorsOrthogonal(normalLeft, normalRight) {
        return;
      }

      DrawCrossReferenceLine(Left, leftSeries.value, rightSeries.value, leftImageIndex, overlayCanvasRight);
      DrawCrossReferenceLine(Right, rightSeries.value, leftSeries.value, rightImageIndex, overlayCanvasLeft);
    }

    /** `UpdateFovOverlay`: clears both canvases and, when both viewers have a
        series, draws the left series' FOV boxes on the right canvas. */
    method UpdateFovOverlay()
      requires Valid()
      modifies overlayCanvasLeft`children, overlayCanvasRight`children
      ensures overlayCanvasLeft.children == []
      ensures overlayCanvasRight.children ==
              if leftSeries.Some? && rightSeries.Some? then
                Polygons(FovQuads(leftSeries.value, leftImageIndex, rightSeries.value, rightZoom,
                                  overlayCanvasRight.actualWidth, overlayCanvasRight.actualHeight))
              else []
    {
      overlayCanvasRight.Clear();
      overlayCanvasLeft.Clear();

      if leftSeries.Some? && rightSeries.Some? {
        DrawFovBox(leftSeries.value, leftImageIndex, rightSeries.value, overlayCanvasRight);
      }
    }
  }
}
