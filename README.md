# Cross-reference and FOV overlays of a two-viewer DICOM viewer

This project models the spatial reasoning of a WPF DICOM viewer that shows two
image series side by side, and it proves properties of that model. The viewer
relates the two series in patient space and draws one of two overlays.

- **Cross-reference line.** The selected slice of each series is drawn as a
  vertical line on the other viewer. This happens only when the two slice
  normals pass a tolerance gate: their squared distance is at least 0.01
  squared, and the absolute value of their dot product is below 0.05. So
  normals that are only nearly perpendicular also pass.
- **Field of view (FOV) boxes.** Every slice of the left series is drawn as a
  quad on the right viewer. The selected slice is highlighted.

Modules:

- `Vectors`: the `Vector3D` struct and its operators, with the algebra the
  proofs need. This includes linearity of the dot product, perpendicularity of
  the cross product and Lagrange's identity.
- `Series`: the geometric fields of a series and the derived `SliceNormal`.
- `Projection`: `ProjectToViewer` and its unclamped part `PixelCoordinates`.
  `SlicePoint` is the inverse map from pixel positions to patient space.
- `Relation`: the two vector tests and the gate in `UpdateCrossReferenceLines`.
- `Overlay`: the FOV quads and the cross-reference line, as values.
- `Window`: the main window as a class. It holds two overlay canvases whose
  child lists its methods clear and append to, as the source does.

`double` is modelled as `real`. A series that serves as a projection target
must have at least one slice origin and positive pixel spacings
(`Series.ValidGeometry`). The loader only creates a series when it adds that
series' first origin. The canvas size that `ProjectToViewer` reads is a
parameter. `DrawFovBox` passes the size of the right overlay canvas, as the
source does, whichever canvas it draws on. `DrawCrossReferenceLine` does not
call `ProjectToViewer`. It takes the line's height from its own target canvas.

The model follows the code as written in these places:

- `DrawCrossReferenceLine` picks its zoom from the viewer name it is given,
  which is the viewer of the source series. So the line drawn on the right
  canvas is scaled by the left zoom, and the reverse (`MainWindow.ViewerZoom`).
  `DrawFOVBox` picks its zoom from the canvas it draws on (`MainWindow.CanvasZoom`).
- `DrawFOVBox` clamps corners to the right canvas's size even when it draws on
  the left canvas.
- `DrawCrossReferenceLine` has no check for non-finite values. On an empty
  target series it does not fail softly: slice 0 of the target must exist.
- The line's `y` pixel coordinate is computed but never used, so it does not
  appear in the model.
- The cross-reference line's `x` is not clamped to the canvas. A source slice
  centre outside the target's pixel frame gives a line off the canvas.

## Model

| member | source | states |
|---|---|---|
| Vectors.Sub | WpfApp1/MainWindow.xaml.cs:514-515 | componentwise difference of two vectors; the algebra is stated by AddSubInverse and DotSub |
| Vectors.Add | WpfApp1/MainWindow.xaml.cs:517-518 | componentwise sum of two vectors; the algebra is stated by AddSubInverse and DotAdd |
| Vectors.Scale | WpfApp1/MainWindow.xaml.cs:520-521 | each component multiplied by the scalar; the algebra is stated by DotScale and DotScaleTwice |
| Vectors.Dot | WpfApp1/MainWindow.xaml.cs:523-524 | the sum of the componentwise products; the algebra is stated by DotSymmetric, DotSelfNonNegative, DotAdd, DotSub and DotScale |
| Vectors.Cross | WpfApp1/MainWindow.xaml.cs:526-531 | the right-handed cross product; the algebra is stated by CrossPerpendicular and CrossLength |
| Vectors.AddSubInverse | WpfApp1/MainWindow.xaml.cs:514-518 | vector subtraction undoes addition and addition undoes subtraction |
| Vectors.DotSymmetric | WpfApp1/MainWindow.xaml.cs:523-524 | the dot product is symmetric |
| Vectors.DotSelfNonNegative | WpfApp1/MainWindow.xaml.cs:523-524 | a vector's squared length is never negative |
| Vectors.DotAdd | WpfApp1/MainWindow.xaml.cs:517-524 | the dot product distributes over vector addition |
| Vectors.DotSub | WpfApp1/MainWindow.xaml.cs:514-524 | the dot product distributes over vector subtraction |
| Vectors.DotScale | WpfApp1/MainWindow.xaml.cs:520-524 | scaling a vector scales its dot product by the same factor |
| Vectors.DotScaleTwice | WpfApp1/MainWindow.xaml.cs:520-524 | scaling twice, as `row * spacing * n` does, scales the dot product by both factors |
| Vectors.CrossPerpendicular | WpfApp1/MainWindow.xaml.cs:526-531 | the cross product is perpendicular to both arguments |
| Vectors.CrossLength | WpfApp1/MainWindow.xaml.cs:523-531 | Lagrange's identity: the squared length of a x b is the product of the squared lengths minus the square of a . b |
| Vectors.CrossOfOrthonormalIsUnit | WpfApp1/MainWindow.xaml.cs:526-531 | the cross product of two perpendicular unit vectors has unit length |
| Series.SeriesGeometry.SliceNormal | WpfApp1/MainWindow.xaml.cs:478 | the cross product of the row and column directions, recomputed on every access; its properties are stated by SliceNormalPerpendicular and SliceNormalIsUnit |
| Series.SliceNormalPerpendicular | WpfApp1/MainWindow.xaml.cs:478 | the slice normal is perpendicular to the row and column directions |
| Series.SliceNormalIsUnit | WpfApp1/MainWindow.xaml.cs:476-478 | for orthonormal row and column directions, the slice normal has unit length |
| Projection.Clamp | WpfApp1/MainWindow.xaml.cs:210-211 | the clamped value is at least 0, is at most the extent when the extent is non-negative, equals the input when the input is in range, is 0 below the range and is the extent above it |
| Projection.PixelCoordinates | WpfApp1/MainWindow.xaml.cs:207-209 | the unclamped target pixel position of a point: its offset from the target's slice-0 origin along the row and column directions, divided by the pixel spacings; OriginIsPixelZero, PixelRoundTrip and StackedSlicePixelRoundTrip state what it does |
| Projection.OriginIsPixelZero | WpfApp1/MainWindow.xaml.cs:207-209 | the target's slice-0 origin has unclamped pixel coordinates (0, 0) |
| Projection.ProjectToViewer | WpfApp1/MainWindow.xaml.cs:205-213 | the result lies within [0, width] x [0, height] of a non-negative canvas; an in-range coordinate passes through unchanged, one below the range becomes 0 and one above it becomes the canvas edge; the target's own slice-0 origin maps to (0, 0) |
| Projection.SlicePoint | WpfApp1/MainWindow.xaml.cs:406-408 | the patient-space position `origin + row*sx*u + col*sy*v` of the pixel position (u, v) of slice k, the expression behind the slice centre and, through SliceCornersArePixelRectangle, the corners at 175-177; PixelRoundTrip and StackedSlicePixelRoundTrip prove that PixelCoordinates inverts it |
| Projection.SlicePointOffset | WpfApp1/MainWindow.xaml.cs:175-177 | the offset of the pixel position (u, v) from its slice origin, measured along any direction, is linear in u and v with the spacings and the directions' components as coefficients |
| Projection.PixelRoundTrip | WpfApp1/MainWindow.xaml.cs:207-209 | on an orthonormal target, the pixel position (u, v) of slice 0, taken to patient space and back, is (u, v) |
| Projection.StackedSlicePixelRoundTrip | WpfApp1/MainWindow.xaml.cs:207-209 | the same round trip holds on any slice whose origin is displaced from slice 0 only along the normal |
| Relation.AreVectorsOrthogonal | WpfApp1/MainWindow.xaml.cs:328-332 | true exactly when the squared dot product is below 0.05 squared; exactly perpendicular vectors always pass |
| Relation.AreVectorsApproximatelyEqual | WpfApp1/MainWindow.xaml.cs:334-340 | true exactly when the squared distance of the two vectors is below the squared tolerance |
| Relation.OrthogonalSymmetric | WpfApp1/MainWindow.xaml.cs:328-332 | the orthogonality test does not depend on argument order |
| Relation.ApproximatelyEqualSymmetric | WpfApp1/MainWindow.xaml.cs:334-340 | the equality test does not depend on argument order |
| Relation.ApproximatelyEqualReflexive | WpfApp1/MainWindow.xaml.cs:334-340 | every vector is approximately equal to itself for any positive tolerance |
| Relation.AntiparallelNotApproximatelyEqual | WpfApp1/MainWindow.xaml.cs:334-340 | n and -n are not approximately equal when 4 times the squared length of n is at least the squared tolerance |
| Relation.ParallelNormalsRejected | WpfApp1/MainWindow.xaml.cs:380-381 | two series with the same normal get no cross-reference lines |
| Relation.AntiparallelNormalsRejected | WpfApp1/MainWindow.xaml.cs:380-384 | two series with opposite unit normals pass the equality test but fail the orthogonality test, so they get no lines |
| Relation.PerpendicularUnitNormalsAccepted | WpfApp1/MainWindow.xaml.cs:380-384 | two perpendicular unit normals pass both tests |
| Relation.CrossReferenceApplies | WpfApp1/MainWindow.xaml.cs:380-384 | the condition under which UpdateCrossReferenceLines goes on to draw: not approximately equal at the default tolerance, and orthogonal within 0.05; the Rejected and Accepted lemmas above state it on parallel, antiparallel and perpendicular normals |
| Overlay.SliceCornersArePixelRectangle | WpfApp1/MainWindow.xaml.cs:174-177 | the four corners are the slice's pixel positions (0,0), (width,0), (width,height), (0,height); c3 is c4 moved by the row edge; the two row edges are equal |
| Overlay.SliceCorners | WpfApp1/MainWindow.xaml.cs:174-177 | the four patient-space corners of slice i, as c1..c4 are built; SliceCornersArePixelRectangle states them |
| Overlay.ZoomPoint | WpfApp1/MainWindow.xaml.cs:186-189 | zoom 1 leaves the point unchanged |
| Overlay.ZoomKeepsOnCanvas | WpfApp1/MainWindow.xaml.cs:186-189 | for non-negative zoom, a point on the canvas lands on the zoomed canvas |
| Overlay.FovQuadAt | WpfApp1/MainWindow.xaml.cs:167-192 | the quad of slice i is highlighted exactly when i is the selected slice index |
| Overlay.FovQuadOnCanvas | WpfApp1/MainWindow.xaml.cs:180-189 | for a non-negative zoom and a canvas of non-negative width and height, every corner of every quad lies on the zoomed canvas |
| Overlay.FovQuads | WpfApp1/MainWindow.xaml.cs:165-202 | one quad per source slice, in slice order |
| Overlay.FovHighlightsSelectedSliceOnly | WpfApp1/MainWindow.xaml.cs:192 | at most one quad is highlighted, namely the selected slice's, and it is highlighted whenever the index names a slice |
| Overlay.FovOfOwnFirstSlice | WpfApp1/MainWindow.xaml.cs:174-189 | for a valid orthonormal series with non-negative width w and height h, drawn onto itself at zoom 1 on a canvas at least w by h, slice 0's quad is the pixel rectangle (0,0), (w,0), (w,h), (0,h) |
| Overlay.SliceCenter | WpfApp1/MainWindow.xaml.cs:403-408 | the patient-space position of slice i's pixel (width/2, height/2); SliceCenterIsMidpoint states it |
| Overlay.PlaneProjection | WpfApp1/MainWindow.xaml.cs:415-417 | a point moved along the normal by its offset from the plane origin measured along that normal; PlaneProjectionOnPlane and MoveAlong state it |
| Overlay.SliceCenterIsMidpoint | WpfApp1/MainWindow.xaml.cs:403-408 | the slice centre is the midpoint of the first and third corners |
| Overlay.PlaneProjectionOnPlane | WpfApp1/MainWindow.xaml.cs:415-417 | for a unit normal, the projected point lies on the plane |
| Overlay.MoveAlong | WpfApp1/MainWindow.xaml.cs:415-419 | moving a point along the normal changes its offset along a direction w by the move times the normal's component along w |
| Overlay.VerticalLine | WpfApp1/MainWindow.xaml.cs:424-432 | the segment from (x*zoom, 0) to (x*zoom, height*zoom); CrossReferenceLine states its shape |
| Overlay.CrossReferenceLine | WpfApp1/MainWindow.xaml.cs:397-432 | no line exactly when the source index is past the last slice; otherwise a vertical line (x1 = x2) from y = 0 to the zoomed canvas height |
| Overlay.CrossReferenceColumn | WpfApp1/MainWindow.xaml.cs:403-426 | the line's column is the target column of the source slice's centre; the plane projection does not move it |
| Overlay.CrossReferencePoint | WpfApp1/MainWindow.xaml.cs:406-417 | the selected source slice's centre projected along the target normal onto the target's slice-0 plane; CrossReferencePointOnTargetPlane states it |
| Overlay.ColumnKeptByPlaneProjection | WpfApp1/MainWindow.xaml.cs:415-419 | projecting any point along the target normal keeps its target column |
| Overlay.CrossReferencePointOnTargetPlane | WpfApp1/MainWindow.xaml.cs:406-417 | for an orthonormal target, the point the line comes from lies on the target's slice-0 plane |
| Window.Canvas.constructor | WpfApp1/MainWindow.xaml.cs:43 | the two overlay canvases are declared in the window's XAML and built by `InitializeComponent`; a new canvas has no children and the given laid-out size |
| Window.Canvas.Clear | WpfApp1/MainWindow.xaml.cs:159 | clearing leaves no children |
| Window.Canvas.Add | WpfApp1/MainWindow.xaml.cs:201 | adding appends exactly the shape |
| Window.MainWindow.constructor | WpfApp1/MainWindow.xaml.cs:25-36 | no series selected, both slice indices 0, both zooms 1 |
| Window.MainWindow.CanvasZoom | WpfApp1/MainWindow.xaml.cs:162 | the zoom of the viewer the target canvas belongs to: leftZoom for the left canvas, rightZoom otherwise; DrawFovBox's contract uses it |
| Window.MainWindow.ViewerZoom | WpfApp1/MainWindow.xaml.cs:422 | the zoom of the viewer named by the call: leftZoom for Left, rightZoom for Right; DrawCrossReferenceLine's contract uses it |
| Window.MainWindow.DrawFovBox | WpfApp1/MainWindow.xaml.cs:156-203 | the canvas ends up holding exactly the FOV quads of all source slices, in order, using the canvas's zoom and the right canvas's size |
| Window.MainWindow.DrawCrossReferenceLine | WpfApp1/MainWindow.xaml.cs:390-436 | the canvas gains exactly the cross-reference line (none for an out-of-range source index), scaled by the named viewer's zoom |
| Window.MainWindow.UpdateCrossReferenceLines | WpfApp1/MainWindow.xaml.cs:370-388 | both canvases end up empty unless both viewers have a series and the gate passes; then the right canvas holds the left slice's line and the left canvas holds the right slice's line |
| Window.MainWindow.UpdateFovOverlay | WpfApp1/MainWindow.xaml.cs:438-448 | the left canvas ends up empty; the right canvas holds the left series' FOV quads when both series are selected and is empty otherwise |

## Left out

- Folder scanning, DICOM file parsing and tag extraction in `LoadDicomSeries`, `GetSliceLocation` and `LoadDicomTags`: file I/O and calls into the DICOM library. Their outcome enters the model as the `SeriesGeometry` values.
- `ConvertDicomToBitmapImage`: image decoding and PNG encoding.
- Event handlers and view state: thumbnail clicks, viewer selection, the cross-reference and FOV toggle buttons, `ClearOverlays`, data-context resets and property-change notification. These are UI glue; the methods they call are modelled.
- `ZoomImage` and its `MatrixTransform`: the draw methods' zoom factors are kept as plain reals. The source never changes `leftZoom` or `rightZoom` after setting them to 1; the model leaves them free.
- `WpfApp1/ViewerSelectionConverter.cs`: a UI brush converter.
- Stroke colours and thicknesses: only the highlighted flag of a quad is kept.
- IEEE-754 behaviour (rounding, NaN, infinity): arithmetic is exact. A pixel spacing of zero, which the loader does not reject, divides by zero in the source; the model requires positive spacings instead.
- Window layout: a canvas's actual size is fixed while a drawing method runs.
