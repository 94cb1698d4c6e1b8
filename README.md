# Crop-window engine of Xamarin.CircleImageCropper, in Dafny

A verified model of the geometry engine behind the Android crop widget
ported to Xamarin (`CircleImageCropper`, after edmodo's `cropper`). The
crop window is four floating-point edge coordinates (left, top, right,
bottom) that every touch event updates in place. The model covers the
following parts:

- **Ratio arithmetic** (`AspectRatioUtil`): computes the fourth side of a
  window from three sides and a target width/height ratio.
- **The four edges** (`Edge`, `EdgeManager`). Each edge supports:
  - the snap-or-clamp move towards a touch point, with the 40 px minimum length;
  - re-deriving its coordinate from the ratio;
  - snapping to the image, with a look-ahead that moves nothing;
  - margin tests;
  - the "would the next step leave the image" check.
- **The handle strategies** (`HandleHelper` and its Corner, Horizontal,
  Vertical and Center variants), the nine `Handle`s bound to them by
  `HandleManager`, and the hit test and touch offset (`HandleUtil`).
- **`CropOverlayView`**: initial window placement, the guideline threshold,
  the validating setters and the pressed-handle down/move/up cycle.
- **Layout arithmetic**: the centre-inside fitting of a bitmap in a view
  (`ImageViewUtil`). From `CropImageView`: measure-spec resolution, the
  mapping of the crop window back onto bitmap pixels, and the rotation
  counter.

Modules follow the source files: `Numerics` (C# rounding and truncation),
`Geometry` (Android `Rect`), `AspectRatioUtil`, `Edges`, `HandleHelpers`,
`CornerHandleHelper`, `HorizontalHandleHelper`, `VerticalHandleHelper`,
`CenterHandleHelper`, `Handles`, `HandleManagers`, `HandleUtil`,
`ImageViewUtil`, `CropOverlay` and `CropImage`.

The code updates objects in place, so the model uses classes:

- `Edges.Edge` is a coordinate cell.
- `Edges.EdgeManager` owns the four cells that the source keeps as static
  singletons.
- `HandleHelpers.HandleHelper` holds the bound edges and its active-edge
  pair. The pair is always the two bound edges, so the model stores only
  which of them leads (`verticalLeads`).
- `CropOverlay.CropOverlayView` and `CropImage.CropImageView` hold the
  widget state.

Each state-changing method is specified against a pure function of the old
state, for example `edges.Snapshot() == CornerUpdate(old(edges.Snapshot()), ...)`.
The lemmas prove what the source promises about those functions: the ratio
is kept, sizes are kept, the result lies inside the image, and the hit test
follows its precedence order.

Coordinates are `real`. Integer pixel sizes are `int`. C#'s `(int)` cast,
`Math.Ceiling`, `Math.Round` (banker's rounding) and the truncating `%`
are written out in `Numerics`. A float division by zero, whose result in
the source is infinite or NaN, is made explicit: `Option` is `None` there,
or the IEEE comparison result is stated as in `RatioExceeds`.

## Model

| member | source | states |
|---|---|---|
| AspectRatioUtil.CalculateAspectRatio | Xamarin.CircleImageCropper/Xamarin.CircleImageCropperSample/Util/AspectRatioUtil.cs:12-19 | the ratio times the height is the width |
| AspectRatioUtil.RatioExceedsPositiveHeight | Xamarin.CircleImageCropper/Xamarin.CircleImageCropperSample/Util/AspectRatioUtil.cs:25-38 | for a positive height, "width/height > ratio" (float division) holds iff width > ratio·height |
| AspectRatioUtil.CalculateLeft | Xamarin.CircleImageCropper/Xamarin.CircleImageCropperSample/Util/AspectRatioUtil.cs:45-54 | the resulting width is CalculateWidth of the height, and the window then has the target ratio |
| AspectRatioUtil.CalculateTop | Xamarin.CircleImageCropper/Xamarin.CircleImageCropperSample/Util/AspectRatioUtil.cs:61-71 | the resulting height is CalculateHeight of the width; for nonzero width the window has the target ratio |
| AspectRatioUtil.CalculateRight | Xamarin.CircleImageCropper/Xamarin.CircleImageCropperSample/Util/AspectRatioUtil.cs:78-87 | right − left equals CalculateWidth; round trip: CalculateAspectRatio of the result is the ratio |
| AspectRatioUtil.CalculateBottom | Xamarin.CircleImageCropper/Xamarin.CircleImageCropperSample/Util/AspectRatioUtil.cs:94-104 | bottom − top equals CalculateHeight; round trip: CalculateAspectRatio of the result is the ratio |
| AspectRatioUtil.CalculateWidth | Xamarin.CircleImageCropper/Xamarin.CircleImageCropperSample/Util/AspectRatioUtil.cs:111-117 | width divided by the height is the ratio |
| AspectRatioUtil.CalculateHeight | Xamarin.CircleImageCropper/Xamarin.CircleImageCropperSample/Util/AspectRatioUtil.cs:124-130 | height times the ratio is the width |
| AspectRatioUtil.HeightRoundTrip | Xamarin.CircleImageCropper/Xamarin.CircleImageCropperSample/Util/AspectRatioUtil.cs:124-130 | for a nonzero width the height is nonzero and width / height gives the ratio back |
| Edges.EdgeKind.Opposite | Xamarin.CircleImageCropper/Xamarin.CircleImageCropperSample/Cropwindow.Pair/EdgeType.cs:1-22 | the opposite edge is a different edge on the same axis |
| Edges.Window.With | Xamarin.CircleImageCropper/Xamarin.CircleImageCropperSample/Cropwindow.Pair/Edge.cs:38-41 | writing one edge sets it and leaves the other three unchanged |
| Edges.AdjustLeft | Xamarin.CircleImageCropper/Xamarin.CircleImageCropperSample/Cropwindow.Pair/Edge.cs:404-429 | within the snap radius of the image's left side the result is that side; otherwise it is x capped so the width stays ≥ 40 and ≥ 40·ratio |
| Edges.AdjustRight | Xamarin.CircleImageCropper/Xamarin.CircleImageCropperSample/Cropwindow.Pair/Edge.cs:440-470 | snap to the image's right side, otherwise x raised so the width stays ≥ 40 and ≥ 40·ratio |
| Edges.AdjustTop | Xamarin.CircleImageCropper/Xamarin.CircleImageCropperSample/Cropwindow.Pair/Edge.cs:481-508 | snap to the image's top, otherwise y capped so the height stays ≥ 40 and ≥ 40/ratio |
| Edges.AdjustBottom | Xamarin.CircleImageCropper/Xamarin.CircleImageCropperSample/Cropwindow.Pair/Edge.cs:519-544 | snap to the image's bottom, otherwise y raised so the height stays ≥ 40 and ≥ 40/ratio |
| Edges.TouchCoordinate | Xamarin.CircleImageCropper/Xamarin.CircleImageCropperSample/Cropwindow.Pair/Edge.cs:53-71 | per edge kind, reads x (left/right) or y (top/bottom): snaps inside the radius, otherwise never moves further out than the touch, and the clamp leaves the minimum length on that axis; a touch that already leaves both minimum lengths is taken unchanged |
| Edges.RatioCoordinate | Xamarin.CircleImageCropper/Xamarin.CircleImageCropperSample/Cropwindow.Pair/Edge.cs:80-102 | the window with this edge re-derived has the target ratio |
| Edges.SnapOffset | Xamarin.CircleImageCropper/Xamarin.CircleImageCropperSample/Cropwindow.Pair/Edge.cs:268-292 | coordinate plus offset is the image side of the same kind |
| Edges.SnapIsIdempotent | Xamarin.CircleImageCropper/Xamarin.CircleImageCropperSample/Cropwindow.Pair/Edge.cs:236-292 | after a snap, a second snap moves the edge by 0 |
| Edges.IsOutsideMargin | Xamarin.CircleImageCropper/Xamarin.CircleImageCropperSample/Cropwindow.Pair/Edge.cs:341-362 | true iff the inward distance from the image side (direction per edge kind) is below the margin |
| Edges.IsOutsideFrame | Xamarin.CircleImageCropper/Xamarin.CircleImageCropperSample/Cropwindow.Pair/Edge.cs:368-390 | equals IsOutsideMargin with margin 0, and holds iff snapping would move the edge inwards |
| Edges.WithinIffNoSideOutsideFrame | Xamarin.CircleImageCropper/Xamarin.CircleImageCropperSample/Cropwindow.Pair/Edge.cs:368-390 | a window lies inside the image iff none of its four edges is outside the frame |
| Edges.IsOutOfBounds | Xamarin.CircleImageCropper/Xamarin.CircleImageCropperSample/Cropwindow.Pair/Edge.cs:224-227 | true iff the given window does not lie inside the image |
| Edges.SymmetricSnap | Xamarin.CircleImageCropper/CircleImageCropper/CropWindow.Handle/HorizontalHandleHelper.cs:51-68 | one side snaps to the image, the opposite side moves by minus that delta, the perpendicular sides are kept |
| Edges.SnapFix | Xamarin.CircleImageCropper/Xamarin.CircleImageCropperSample/Cropwindow.Pair/Edge.cs:115-212 | the simulated next window (side snapped, opposite shifted back, this edge re-derived) has the target ratio |
| Edges.IsNewRectangleOutOfBounds | Xamarin.CircleImageCropper/Xamarin.CircleImageCropperSample/Cropwindow.Pair/Edge.cs:115-212 | true when the other edge is not perpendicular to this one; otherwise true iff the simulated next window leaves the image |
| Edges.FixSide | Xamarin.CircleImageCropper/CircleImageCropper/CropWindow.Handle/HorizontalHandleHelper.cs:51-68 | either nothing changes, or the new window lies inside the image with the target ratio and the side on the image side |
| Edges.FixSideOf | Xamarin.CircleImageCropper/CircleImageCropper/CropWindow.Handle/VerticalHandleHelper.cs:52-69 | the edges after one guarded fix are FixSide of the edges before |
| Edges.Edge.constructor | Xamarin.CircleImageCropper/Xamarin.CircleImageCropperSample/Cropwindow.Pair/Edge.cs:27-30 | stores the kind; the coordinate starts at 0 |
| Edges.Edge.Offset | Xamarin.CircleImageCropper/Xamarin.CircleImageCropperSample/Cropwindow.Pair/Edge.cs:38-41 | adds the distance to this coordinate only |
| Edges.Edge.AdjustCoordinate | Xamarin.CircleImageCropper/Xamarin.CircleImageCropperSample/Cropwindow.Pair/Edge.cs:53-71 | the window afterwards is the old one with this edge set to TouchCoordinate |
| Edges.Edge.AdjustCoordinateToRatio | Xamarin.CircleImageCropper/Xamarin.CircleImageCropperSample/Cropwindow.Pair/Edge.cs:80-102 | only this edge changes, to RatioCoordinate, and the window then has the ratio |
| Edges.Edge.SnapToRect | Xamarin.CircleImageCropper/Xamarin.CircleImageCropperSample/Cropwindow.Pair/Edge.cs:236-259 | the coordinate becomes the image side and the result is new − old |
| Edges.EdgeManager.Get | Xamarin.CircleImageCropper/Xamarin.CircleImageCropperSample/Cropwindow.Pair/EdgeManager.cs:6-14 | the edge returned for a kind has that kind |
| Edges.EdgeManager.constructor | Xamarin.CircleImageCropper/Xamarin.CircleImageCropperSample/Cropwindow.Pair/EdgeManager.cs:8-14 | four fresh edges, all at 0 |
| HandleHelpers.PotentialWindow | Xamarin.CircleImageCropper/CircleImageCropper/CropWindow.Handle/HandleHelper.cs:142-153 | the bound vertical edge takes x and the bound horizontal edge takes y; the other coordinates are kept |
| HandleHelpers.ActiveEdgesFollowWiderSide | Xamarin.CircleImageCropper/CircleImageCropper/CropWindow.Handle/HandleHelper.cs:110-129 | the vertical edge is primary iff the potential window is wider than the ratio, otherwise the horizontal edge is; the pair is always a permutation of the two bound edges |
| HandleHelpers.TouchCoordinateReadsOpposite | Xamarin.CircleImageCropper/Xamarin.CircleImageCropperSample/Cropwindow.Pair/Edge.cs:404-544 | an edge's touch-driven move depends only on the opposite edge |
| HandleHelpers.FreeUpdateIgnoresOrder | Xamarin.CircleImageCropper/CircleImageCropper/CropWindow.Handle/HandleHelper.cs:50-64 | the unconstrained corner update sets each bound edge from the touch (ratio 1), whichever order the active pair has |
| HandleHelpers.FreeUpdateIgnoresPairOrder | Xamarin.CircleImageCropper/CircleImageCropper/CropWindow.Handle/HandleHelper.cs:50-64 | for any helper, the free drag with its bound edges in either order equals the drag with the initial order |
| HandleHelpers.FixedUpdateKeepsRatio | Xamarin.CircleImageCropper/CircleImageCropper/CropWindow.Handle/HandleHelper.cs:79-92 | a ratio-locked corner or side update leaves the window at the target ratio; a centre update keeps width and height |
| HandleHelpers.HandleHelper.constructor | Xamarin.CircleImageCropper/CircleImageCropper/CropWindow.Handle/HandleHelper.cs:30-35 | stores the bound edges; the active pair starts as (horizontal, vertical) |
| HandleHelpers.HandleHelper.GetActiveEdges | Xamarin.CircleImageCropper/CircleImageCropper/CropWindow.Handle/HandleHelper.cs:94-97 | the stored pair is always the two bound edges, in one order or the other (the field `verticalLeads` records which leads) |
| HandleHelpers.HandleHelper.GetActiveEdgesFor | Xamarin.CircleImageCropper/CircleImageCropper/CropWindow.Handle/HandleHelper.cs:110-129 | the shared pair is overwritten with ActiveEdgesFor and returned |
| HandleHelpers.HandleHelper.UpdateCropWindow | Xamarin.CircleImageCropper/CircleImageCropper/CropWindow.Handle/HandleHelper.cs:50-64 | the window becomes FreeUpdate: each non-null edge of the active pair is moved by the touch, the rest unchanged |
| HandleHelpers.HandleHelper.UpdateCropWindowKeepingRatio | Xamarin.CircleImageCropper/CircleImageCropper/CropWindow.Handle/HandleHelper.cs:79-92 | the window becomes FixedUpdate for the helper's kind; a corner helper's pair becomes ActiveEdgesFor the touch, any other helper's pair is unchanged |
| CornerHandleHelper.CornerUpdate | Xamarin.CircleImageCropper/CircleImageCropper/CropWindow.Handle/CornerHandleHelper.cs:15-33 | the window after the corner update has the target ratio, in both branches |
| CornerHandleHelper.CornerUpdateMovesOnlyItsCorner | Xamarin.CircleImageCropper/CircleImageCropper/CropWindow.Handle/CornerHandleHelper.cs:21-32 | the two unbound edges are unchanged; the secondary edge is on the image side or inside the margin; the primary keeps its touch value unless the secondary was snapped |
| CornerHandleHelper.UpdateCropWindow | Xamarin.CircleImageCropper/CircleImageCropper/CropWindow.Handle/CornerHandleHelper.cs:15-33 | the edges after the call are CornerUpdate of the edges before |
| HorizontalHandleHelper.Stretch | Xamarin.CircleImageCropper/CircleImageCropper/CropWindow.Handle/HorizontalHandleHelper.cs:31-48 | left and right move symmetrically: the ratio holds, top and bottom are kept, the horizontal midpoint is kept |
| HorizontalHandleHelper.HorizontalUpdateKeepsRatio | Xamarin.CircleImageCropper/CircleImageCropper/CropWindow.Handle/HorizontalHandleHelper.cs:22-69 | the result has the target ratio, the opposite horizontal edge is never written, and it is either the stretched window or lies inside the image |
| HorizontalHandleHelper.UpdateCropWindow | Xamarin.CircleImageCropper/CircleImageCropper/CropWindow.Handle/HorizontalHandleHelper.cs:22-69 | the edges after the call are HorizontalUpdate of the edges before |
| VerticalHandleHelper.Stretch | Xamarin.CircleImageCropper/CircleImageCropper/CropWindow.Handle/VerticalHandleHelper.cs:32-49 | top and bottom move symmetrically: the ratio holds, left and right are kept, the vertical midpoint is kept |
| VerticalHandleHelper.VerticalUpdateKeepsRatio | Xamarin.CircleImageCropper/CircleImageCropper/CropWindow.Handle/VerticalHandleHelper.cs:23-70 | the result has the target ratio, the opposite vertical edge is never written, and it is either the stretched window or lies inside the image |
| VerticalHandleHelper.UpdateCropWindow | Xamarin.CircleImageCropper/CircleImageCropper/CropWindow.Handle/VerticalHandleHelper.cs:23-70 | the edges after the call are VerticalUpdate of the edges before |
| CenterHandleHelper.Translate | Xamarin.CircleImageCropper/CircleImageCropper/CropWindow.Handle/CenterHandleHelper.cs:21-36 | the window moves so its centre is the touch point, with width and height kept |
| CenterHandleHelper.SlideOnto | Xamarin.CircleImageCropper/CircleImageCropper/CropWindow.Handle/CenterHandleHelper.cs:39-60 | one side moves onto the image side and its opposite by the same delta: size kept, the other axis untouched |
| CenterHandleHelper.CenterUpdate | Xamarin.CircleImageCropper/CircleImageCropper/CropWindow.Handle/CenterHandleHelper.cs:16-61 | width and height are unchanged by the whole update, snap-backs included |
| CenterHandleHelper.CenterUpdateFollowsTouch | Xamarin.CircleImageCropper/CircleImageCropper/CropWindow.Handle/CenterHandleHelper.cs:39-60 | at most one correction per axis, left before right and top before bottom; otherwise the translated window stands |
| CenterHandleHelper.CenterUpdateStaysInside | Xamarin.CircleImageCropper/CircleImageCropper/CropWindow.Handle/CenterHandleHelper.cs:16-61 | a window no larger than the image, dragged with a non-negative snap radius, ends inside the image |
| CenterHandleHelper.UpdateCropWindow | Xamarin.CircleImageCropper/CircleImageCropper/CropWindow.Handle/CenterHandleHelper.cs:16-70 | the edges after either overload are CenterUpdate of the edges before (the ratio is ignored) |
| Handles.Handle.constructor | Xamarin.CircleImageCropper/CircleImageCropper/CropWindow.Handle/Handle.cs:13-17 | stores the helper and the handle type unchanged |
| Handles.Handle.UpdateCropWindow | Xamarin.CircleImageCropper/CircleImageCropper/CropWindow.Handle/Handle.cs:21-27 | exactly the helper's unconstrained update |
| Handles.Handle.UpdateCropWindowKeepingRatio | Xamarin.CircleImageCropper/CircleImageCropper/CropWindow.Handle/Handle.cs:29-36 | exactly the helper's ratio-locked update |
| HandleManagers.Binding | Xamarin.CircleImageCropper/CircleImageCropper/CropWindow.Handle/HandleManager.cs:12-22 | every handle's helper binding is well formed, and only the centre handle gets the centre helper |
| HandleManagers.BindingInjective | Xamarin.CircleImageCropper/CircleImageCropper/CropWindow.Handle/HandleManager.cs:12-22 | two different handles never get the same helper binding |
| HandleManagers.BindingMatchesAnchors | Xamarin.CircleImageCropper/CircleImageCropper/CropWindow.Handle/HandleManager.cs:12-22 | the edges each handle's helper moves are the coordinates its touch offset tracks (corners: both edges, sides: one, centre: the centre) |
| HandleManagers.HandleManager.constructor | Xamarin.CircleImageCropper/CircleImageCropper/CropWindow.Handle/HandleManager.cs:10-23 | nine fresh handles, each with its own tag and a fresh helper built from Binding(k) over the shared edges; no two handles share a helper; each helper's pair starts as its (horizontal, vertical) binding |
| HandleManagers.NewHandle | Xamarin.CircleImageCropper/CircleImageCropper/CropWindow.Handle/HandleManager.cs:12-22 | a fresh handle tagged k whose helper has Binding(k) |
| HandleUtil.IsInCornerTargetZone | Xamarin.CircleImageCropper/CircleImageCropper/Util/HandleUtil.cs:191-202 | true iff the touch lies in the closed square of half-side targetRadius centred on the corner; never for a negative radius |
| HandleUtil.IsInHorizontalTargetZone | Xamarin.CircleImageCropper/CircleImageCropper/Util/HandleUtil.cs:218-230 | true iff the touch lies strictly between the bar's ends and within targetRadius of its line, inclusive |
| HandleUtil.IsInVerticalTargetZone | Xamarin.CircleImageCropper/CircleImageCropper/Util/HandleUtil.cs:246-258 | exactly the horizontal zone with x and y swapped |
| HandleUtil.IsInCenterTargetZone | Xamarin.CircleImageCropper/CircleImageCropper/Util/HandleUtil.cs:274-286 | the open interior of the window: the horizontal zone of the mid-line with half the height as radius, minus the top and bottom lines; empty unless left < right and top < bottom |
| HandleUtil.PointInsideIsPressed | Xamarin.CircleImageCropper/CircleImageCropper/Util/HandleUtil.cs:49-103 | every touch strictly inside the window presses some handle, whatever the focus |
| HandleUtil.AnchorX | Xamarin.CircleImageCropper/CircleImageCropper/Util/HandleUtil.cs:132-169 | the x the offset tracks: none exactly for Top and Bottom, the left or right edge for the other side and corner handles, and the horizontal midpoint for Center |
| HandleUtil.AnchorY | Xamarin.CircleImageCropper/CircleImageCropper/Util/HandleUtil.cs:132-169 | the y the offset tracks: none exactly for Left and Right, the top or bottom edge for the other side and corner handles, and the vertical midpoint for Center |
| HandleUtil.GetPressedHandle | Xamarin.CircleImageCropper/CircleImageCropper/Util/HandleUtil.cs:49-103 | the handle returned is in its zone and every handle earlier in the precedence order is not; null iff no zone contains the point |
| HandleUtil.GetOffset | Xamarin.CircleImageCropper/CircleImageCropper/Util/HandleUtil.cs:113-174 | null iff the handle is null; touch + offset is the tracked corner, edge or centre, and the offset is 0 on an axis the handle does not track |
| ImageViewUtil.ShrinkRatio | Xamarin.CircleImageCropper/Xamarin.CircleImageCropperSample/Util/ImageViewUtil.cs:69-80 | a ratio exists iff the view is smaller than the bitmap on that axis, and then lies in [0, 1) |
| ImageViewUtil.FitOf | Xamarin.CircleImageCropper/Xamarin.CircleImageCropperSample/Util/ImageViewUtil.cs:69-103 | unscaled iff the bitmap fits both ways; otherwise the smaller view/bitmap ratio wins, width on a tie |
| ImageViewUtil.CenterInsideSizeFits | Xamarin.CircleImageCropper/Xamarin.CircleImageCropperSample/Util/ImageViewUtil.cs:73-103 | a fitting bitmap keeps its size; otherwise the size lies within the view, fills it on one axis and keeps the bitmap's ratio |
| ImageViewUtil.ScaledToWidthFits | Xamarin.CircleImageCropper/Xamarin.CircleImageCropperSample/Util/ImageViewUtil.cs:84-89 | width-limited: height = bh·viewWidth/bw keeps the ratio and fits the view's height |
| ImageViewUtil.ScaledToHeightFits | Xamarin.CircleImageCropper/Xamarin.CircleImageCropperSample/Util/ImageViewUtil.cs:90-96 | height-limited: width = bw·viewHeight/bh keeps the ratio and fits the view's width |
| ImageViewUtil.GetBitmapRectCenterInside | Xamarin.CircleImageCropper/Xamarin.CircleImageCropperSample/Util/ImageViewUtil.cs:18-128 | the origin is the banker's-rounded half of the slack on each axis, and the size is the ceiling of the fitted size |
| ImageViewUtil.BitmapRectWithinView | Xamarin.CircleImageCropper/Xamarin.CircleImageCropperSample/Util/ImageViewUtil.cs:59-128 | the centre-inside rectangle of a real bitmap lies inside the view |
| CropOverlay.ShowGuidelines | Xamarin.CircleImageCropper/CircleImageCropper/com.edmodo.cropper.cropwindow/CropOverlayView.cs:498-505 | false iff \|L−R\| < 100 or \|T−B\| < 100 |
| CropOverlay.FocusCenter | Xamarin.CircleImageCropper/CircleImageCropper/Util/HandleUtil.cs:299-302 | the centre has focus iff \|width\| < 100 or \|height\| < 100, the negation of ShowGuidelines |
| CropOverlay.GuidelinesDecideCenterPriority | Xamarin.CircleImageCropper/CircleImageCropper/Util/HandleUtil.cs:49-103 | a touch inside the window, in a side zone and in no corner zone, presses Center iff the guidelines are hidden |
| CropOverlay.InitialWindowAsWritten | Xamarin.CircleImageCropper/CircleImageCropper/com.edmodo.cropper.cropwindow/CropOverlayView.cs:409-488 | the initial window and target ratio as the code computes them; only fixed-ratio mode changes the ratio |
| CropOverlay.InitCropWindowZeroesRatioOnEmptyRect | Xamarin.CircleImageCropper/CircleImageCropper/com.edmodo.cropper.cropwindow/CropOverlayView.cs:446-463 | on the empty rectangle with the default 1:1 fixed ratio, the target ratio becomes 0 |
| CropOverlay.InitCropWindowDividesByZeroHeight | Xamarin.CircleImageCropper/CircleImageCropper/com.edmodo.cropper.cropwindow/CropOverlayView.cs:423-440 | on a 40×0 rectangle the new target ratio is a division by zero |
| CropOverlay.WideWindow | Xamarin.CircleImageCropper/CircleImageCropper/com.edmodo.cropper.cropwindow/CropOverlayView.cs:423-444 | top/bottom are the bitmap's; the width is max(40, ratio·height), centred on Width/2, at the resulting ratio; the user's ratio is kept whenever ratio·height ≥ 40, and changes only when the width clamps to 40 |
| CropOverlay.TallWindow | Xamarin.CircleImageCropper/CircleImageCropper/com.edmodo.cropper.cropwindow/CropOverlayView.cs:446-468 | left/right are the bitmap's; the height is max(40, width/ratio), centred on Height/2, at the resulting ratio; the user's ratio is kept whenever width/ratio ≥ 40, and changes only when the height clamps to 40 |
| CropOverlay.PaddedWindow | Xamarin.CircleImageCropper/CircleImageCropper/com.edmodo.cropper.cropwindow/CropOverlayView.cs:470-482 | the bitmap inset by 10 %: same centre, 80 % of each side, inside the bitmap |
| CropOverlay.InitialWindow | Xamarin.CircleImageCropper/CircleImageCropper/com.edmodo.cropper.cropwindow/CropOverlayView.cs:409-488 | the corrected initial window keeps the target ratio positive, and unchanged in free mode |
| CropOverlay.InitialWindowAgreesOnRealBitmaps | Xamarin.CircleImageCropper/CircleImageCropper/com.edmodo.cropper.cropwindow/CropOverlayView.cs:409-488 | on a bitmap with positive sides the corrected and as-written initial windows coincide |
| CropOverlay.Place | Xamarin.CircleImageCropper/CircleImageCropper/com.edmodo.cropper.cropwindow/CropOverlayView.cs:409-488 | marks the overlay initialised and keeps every other setting; with no bitmap rectangle the window and ratio stay; a free ratio is never replaced |
| CropOverlay.PlacedWindowFitsSettings | Xamarin.CircleImageCropper/CircleImageCropper/com.edmodo.cropper.cropwindow/CropOverlayView.cs:409-488 | on a bitmap with positive sides the placed window has the resulting target ratio in fixed mode, and lies inside the bitmap in free mode |
| CropOverlay.Reset | Xamarin.CircleImageCropper/CircleImageCropper/com.edmodo.cropper.cropwindow/CropOverlayView.cs:206-220 | before the first placement nothing changes; afterwards only the window and the target ratio may change |
| CropOverlay.WithBitmapRect | Xamarin.CircleImageCropper/CircleImageCropper/com.edmodo.cropper.cropwindow/CropOverlayView.cs:194-198 | the rectangle is recorded, the view size kept, and the overlay is marked initialised |
| CropOverlay.WithViewSize | Xamarin.CircleImageCropper/CircleImageCropper/com.edmodo.cropper.cropwindow/CropOverlayView.cs:100-105 | the view size is recorded, the bitmap rectangle kept, and the overlay is marked initialised |
| CropOverlay.WithGuidelines | Xamarin.CircleImageCropper/CircleImageCropper/com.edmodo.cropper.cropwindow/CropOverlayView.cs:230-248 | a value outside 0..2 changes nothing; otherwise the value is stored |
| CropOverlay.WithFixedAspectRatio | Xamarin.CircleImageCropper/CircleImageCropper/com.edmodo.cropper.cropwindow/CropOverlayView.cs:258-274 | the flag is stored; freeing the ratio keeps the target ratio |
| CropOverlay.WithAspectRatioX | Xamarin.CircleImageCropper/CircleImageCropper/com.edmodo.cropper.cropwindow/CropOverlayView.cs:283-302 | x ≤ 0 changes nothing; otherwise X is stored, Y kept, and the target is X/Y unless a fixed-ratio placement replaces it |
| CropOverlay.WithAspectRatioY | Xamarin.CircleImageCropper/CircleImageCropper/com.edmodo.cropper.cropwindow/CropOverlayView.cs:311-331 | y ≤ 0 changes nothing; otherwise Y is stored, X kept, and the target is X/Y unless a fixed-ratio placement replaces it |
| CropOverlay.Pressed | Xamarin.CircleImageCropper/CircleImageCropper/com.edmodo.cropper.cropwindow/CropOverlayView.cs:645-663 | the pressed handle is the hit-test result and the window is kept; with no hit nothing else changes; with a hit, touch + offset is the point the handle tracks on each axis it tracks |
| CropOverlay.Released | Xamarin.CircleImageCropper/CircleImageCropper/com.edmodo.cropper.cropwindow/CropOverlayView.cs:670-678 | no handle is pressed afterwards and the window is kept |
| CropOverlay.DragToKeepsShape | Xamarin.CircleImageCropper/CircleImageCropper/com.edmodo.cropper.cropwindow/CropOverlayView.cs:687-717 | a corner or side drag in fixed mode ends at the target ratio; a centre drag, fixed or free, keeps width and height |
| CropOverlay.CropOverlayView.constructor | Xamarin.CircleImageCropper/CircleImageCropper/com.edmodo.cropper.cropwindow/CropOverlayView.cs:47-96 | the field defaults: fixed ratio on, guidelines 1, ratio 1:1, nothing pressed, no bitmap rectangle, window at 0; each handle's helper pair starts as its binding |
| CropOverlay.CropOverlayView.InitCropWindow | Xamarin.CircleImageCropper/CircleImageCropper/com.edmodo.cropper.cropwindow/CropOverlayView.cs:409-488 | the overlay (settings and window) afterwards is Place of the overlay before |
| CropOverlay.CropOverlayView.OnSizeChanged | Xamarin.CircleImageCropper/CircleImageCropper/com.edmodo.cropper.cropwindow/CropOverlayView.cs:100-105 | the overlay (settings and window) afterwards is WithViewSize of the overlay before |
| CropOverlay.CropOverlayView.SetBitmapRect | Xamarin.CircleImageCropper/CircleImageCropper/com.edmodo.cropper.cropwindow/CropOverlayView.cs:194-198 | the overlay (settings and window) afterwards is WithBitmapRect of the overlay before |
| CropOverlay.CropOverlayView.ResetCropOverlayView | Xamarin.CircleImageCropper/CircleImageCropper/com.edmodo.cropper.cropwindow/CropOverlayView.cs:206-220 | the overlay (settings and window) afterwards is Reset of the overlay before |
| CropOverlay.CropOverlayView.SetGuidelines | Xamarin.CircleImageCropper/CircleImageCropper/com.edmodo.cropper.cropwindow/CropOverlayView.cs:230-248 | the overlay (settings and window) afterwards is WithGuidelines of the overlay before |
| CropOverlay.CropOverlayView.SetFixedAspectRatio | Xamarin.CircleImageCropper/CircleImageCropper/com.edmodo.cropper.cropwindow/CropOverlayView.cs:258-274 | the overlay (settings and window) afterwards is WithFixedAspectRatio of the overlay before |
| CropOverlay.CropOverlayView.SetAspectRatioX | Xamarin.CircleImageCropper/CircleImageCropper/com.edmodo.cropper.cropwindow/CropOverlayView.cs:283-302 | the overlay (settings and window) afterwards is WithAspectRatioX of the overlay before |
| CropOverlay.CropOverlayView.SetAspectRatioY | Xamarin.CircleImageCropper/CircleImageCropper/com.edmodo.cropper.cropwindow/CropOverlayView.cs:311-331 | the overlay (settings and window) afterwards is WithAspectRatioY of the overlay before |
| CropOverlay.CropOverlayView.SetInitialAttributeValues | Xamarin.CircleImageCropper/CircleImageCropper/com.edmodo.cropper.cropwindow/CropOverlayView.cs:347-374 | stops at the first rejected value: a guideline mode outside 0..2 changes nothing; x ≤ 0 stores only the mode and the flag; y ≤ 0 also stores X and the target X/old Y; otherwise both terms and the target X/Y; the window is not re-placed |
| CropOverlay.CropOverlayView.OnActionDown | Xamarin.CircleImageCropper/CircleImageCropper/com.edmodo.cropper.cropwindow/CropOverlayView.cs:645-663 | the overlay (settings and window) afterwards is Pressed of the overlay before |
| CropOverlay.CropOverlayView.OnActionUp | Xamarin.CircleImageCropper/CircleImageCropper/com.edmodo.cropper.cropwindow/CropOverlayView.cs:670-678 | the overlay (settings and window) afterwards is Released of the overlay before |
| CropOverlay.CropOverlayView.OnActionMove | Xamarin.CircleImageCropper/CircleImageCropper/com.edmodo.cropper.cropwindow/CropOverlayView.cs:687-717 | the settings are kept; with no pressed handle the window is kept; otherwise the window is DragTo of the pressed handle to the touch point shifted by the remembered offset; only that handle's helper may change |
| CropOverlay.CropOverlayView.DragPressed | Xamarin.CircleImageCropper/CircleImageCropper/com.edmodo.cropper.cropwindow/CropOverlayView.cs:696-712 | the window becomes DragTo of handle k: the ratio-locked drag in fixed mode, the free drag otherwise; only k's helper may change |
| CropOverlay.CropOverlayView.DragKeepingRatio | Xamarin.CircleImageCropper/CircleImageCropper/com.edmodo.cropper.cropwindow/CropOverlayView.cs:700-706 | the window becomes FixedDrag of handle k, at the target ratio for a non-centre handle; only k's helper may change, a corner helper's pair becoming ActiveEdgesFor the touch |
| CropOverlay.CropOverlayView.Drag | Xamarin.CircleImageCropper/CircleImageCropper/com.edmodo.cropper.cropwindow/CropOverlayView.cs:707-712 | the window becomes FreeDrag of handle k (whatever order its pair is in); no helper changes |
| CropOverlay.CropOverlayView.OnTouchEvent | Xamarin.CircleImageCropper/CircleImageCropper/com.edmodo.cropper.cropwindow/CropOverlayView.cs:147-183 | handled iff enabled and the action is down, up, cancel or move; disabled or another action changes nothing; down is Pressed, up and cancel are Released, move keeps the settings and drags as OnActionMove |
| CropImage.GetOnMeasureSpec | Xamarin.CircleImageCropper/CircleImageCropper/com.edmodo.cropper/CropImageView.cs:652-673 | the spec size for Exactly, min(desired, size) for AtMost, desired otherwise |
| CropImage.DesiredExtentIsCenterInside | Xamarin.CircleImageCropper/CircleImageCropper/com.edmodo.cropper/CropImageView.cs:173-216 | before truncation the desired size is exactly the centre-inside size of the bitmap in the view, a height of 0 meaning the bitmap's height |
| CropImage.DesiredSizeFits | Xamarin.CircleImageCropper/CircleImageCropper/com.edmodo.cropper/CropImageView.cs:173-216 | the desired size fits in the width and the effective height, and is the bitmap size when the bitmap fits |
| CropImage.MeasuredSize | Xamarin.CircleImageCropper/CircleImageCropper/com.edmodo.cropper/CropImageView.cs:173-219 | each axis is at most the size offered (the bitmap's height for an offered height of 0) and exactly it in Exactly mode |
| CropImage.ActualCropRect | Xamarin.CircleImageCropper/CircleImageCropper/com.edmodo.cropper/CropImageView.cs:481-530 | None (the source's non-finite result) iff a displayed side is 0; otherwise clamped to left, top ≥ 0 and right, bottom ≤ the bitmap's size |
| CropImage.ActualCropRectInsideIsExact | Xamarin.CircleImageCropper/CircleImageCropper/com.edmodo.cropper/CropImageView.cs:489-516 | a crop window inside the displayed bitmap needs no clamping: each side is (edge − origin)·scale |
| CropImage.WindowMapsIntoBitmap | Xamarin.CircleImageCropper/CircleImageCropper/com.edmodo.cropper/CropImageView.cs:489-509 | a crop window inside the displayed bitmap maps to left/top ≥ 0 and left + width·scale ≤ the bitmap's size |
| CropImage.DisplayedRectMapsOntoBitmap | Xamarin.CircleImageCropper/CircleImageCropper/com.edmodo.cropper/CropImageView.cs:489-509 | the displayed rectangle's own sides map onto 0 and the bitmap's full size |
| CropImage.CroppedRegion | Xamarin.CircleImageCropper/CircleImageCropper/com.edmodo.cropper/CropImageView.cs:390-434 | null iff a displayed side is 0 (the float division has no finite result) |
| CropImage.CroppedRegionWithinBitmap | Xamarin.CircleImageCropper/CircleImageCropper/com.edmodo.cropper/CropImageView.cs:390-434 | for a window inside the displayed bitmap the truncated region lies inside the bitmap, and its origin is within one pixel of the exact crop rectangle's |
| CropImage.CropImageView.constructor | Xamarin.CircleImageCropper/CircleImageCropper/com.edmodo.cropper/CropImageView.cs:615-640 | the overlay gets the handle and snap radii; no bitmap, sizes 0, no rotation, ratio 1:1 kept by the view; the overlay at its defaults: fixed ratio, guidelines 1, ratio 1:1, not initialised, nothing pressed, window at 0 |
| CropImage.CropImageView.OnMeasure | Xamarin.CircleImageCropper/CircleImageCropper/com.edmodo.cropper/CropImageView.cs:158-243 | with a bitmap, layout and measured size become MeasuredSize and the overlay is WithBitmapRect of the centre-inside rectangle in that layout; without one, the measured size is the size offered and the overlay is WithBitmapRect of the empty rectangle; no other view field changes |
| CropImage.CropImageView.PlaceOverlayAndMeasure | Xamarin.CircleImageCropper/CircleImageCropper/com.edmodo.cropper/CropImageView.cs:224-236 | the overlay is WithBitmapRect of the given rectangle and the measured size is recorded; no other view field changes |
| CropImage.CropImageView.SetOverlayRect | Xamarin.CircleImageCropper/CircleImageCropper/com.edmodo.cropper.cropwindow/CropOverlayView.cs:194-198 | the overlay afterwards is WithBitmapRect of the rectangle; the view's fields are untouched |
| CropImage.CropImageView.OnSizeChanged | Xamarin.CircleImageCropper/CircleImageCropper/com.edmodo.cropper/CropImageView.cs:138-156 | the overlay is WithBitmapRect of the bitmap's centre-inside rectangle in the new size, or of the empty rectangle; the view's fields are untouched |
| CropImage.CropImageView.SetImageBitmap | Xamarin.CircleImageCropper/CircleImageCropper/com.edmodo.cropper/CropImageView.cs:285-301 | the bitmap, or none for a null bitmap, is stored and no other view field changes; the overlay is Reset (re-placed only once initialised) |
| CropImage.CropImageView.SetAspectRatio | Xamarin.CircleImageCropper/CircleImageCropper/com.edmodo.cropper/CropImageView.cs:579-593 | the view stores both terms, even rejected ones; the overlay is WithAspectRatioY of WithAspectRatioX |
| CropImage.CropImageView.SetFixedAspectRatio | Xamarin.CircleImageCropper/CircleImageCropper/com.edmodo.cropper/CropImageView.cs:540-550 | the overlay is WithFixedAspectRatio of the flag; the view's fields are untouched |
| CropImage.CropImageView.SetGuidelines | Xamarin.CircleImageCropper/CircleImageCropper/com.edmodo.cropper/CropImageView.cs:560-570 | the overlay is WithGuidelines of the value; the view's fields are untouched |
| CropImage.CropImageView.GetActualCropRect | Xamarin.CircleImageCropper/CircleImageCropper/com.edmodo.cropper/CropImageView.cs:481-530 | null without a bitmap; otherwise ActualCropRect of the window over the centre-inside rectangle |
| CropImage.CropImageView.RotateImage | Xamarin.CircleImageCropper/CircleImageCropper/com.edmodo.cropper/CropImageView.cs:602-611 | the rotated bitmap is stored, the overlay is Reset, and the counter becomes (old + degrees) % 360 with C#'s sign rule: strictly between −360 and 360 and congruent to old + degrees; no other view field changes |

## Left out

- Drawing (`OnDraw`, `DrawCorners`, the guideline and background painting, `PaintUtil`), Android's context and density lookups (`HandleUtil.getTargetRadius`), `Edge.snapToView` and saving/restoring instance state: these are rendering and platform I/O. The handle and snap radii are constructor parameters.
- `CropImageView.GetCroppedCircleImage`, `OnLayout`, `SetImageResource` and the EXIF overload of `SetImageBitmap` are not modelled. They call into the graphics library (bitmap creation, canvas paths, matrices).
- CropImage.CropImageView.RotateImage: the rotated bitmap the graphics library produces is a parameter; the matrix rotation itself is not modelled.
- CropImage.CroppedRegion: the bitmap cut by `Bitmap.CreateBitmap` is not modelled, only the four integers passed to it.
- Floats are modelled as exact reals, so rounding in single-precision arithmetic is not captured. A float division by zero is modelled as `None` (the non-finite result). The comparison `width/height > ratio` keeps its IEEE outcome for a zero height.
- The static edge singletons and the static aspect-ratio fields of the overlay are fields of one `EdgeManager` and one `CropOverlayView` object, so the model describes a single widget; sharing between widgets is not captured.
- The overlay's `mBitmapRect` is null until the first measure. Methods that dereference it (the drag methods) require a rectangle instead of modelling the null-reference exception the source would swallow.
- CropOverlay.CropOverlayView.OnActionMove (and `OnTouchEvent` on a move) requires a bitmap rectangle whenever a handle is pressed. Before the first measure the source would throw inside its `try` block and do nothing.
- CropOverlay.CropOverlayView.InitCropWindow (and every method that places the window through it: `OnSizeChanged`, `SetBitmapRect`, `ResetCropOverlayView`, the guideline, flag and ratio setters, and `CropImageView.OnMeasure`, `OnSizeChanged`, `SetImageBitmap`, `RotateImage`): places the window by the corrected `InitialWindow`. On a bitmap rectangle with a zero side this differs from the source, which in fixed mode replaces the target ratio by 40/0 on a rectangle of height 0 that is wider than the ratio, and by 0 on one of width 0 (the empty rectangle included, at the default 1:1 ratio). The as-written placement is `InitialWindowAsWritten`; see Findings.
- The minimum crop size and containment of the window in the image are not claimed in general, because the code does not keep them. The snap branches of `adjustLeft/Right/Top/Bottom` return the image side without the 40 px clamp, and the corner fallback does not re-check the re-derived primary edge. Containment is proved only for the guarded fixes (`FixSide`) and the centre drag of a window that fits (`CenterUpdateStaysInside`).
- Integers are unbounded, so C#'s 32-bit wrap-around is not modelled; for instance `mDegreesRotated += degrees` in `RotateImage` can overflow in the source, and the model's counter and sums never do.
- The `try`/`catch` blocks that swallow exceptions are not modelled; each operation is modelled on the inputs for which it completes.

## Findings

| source | as written | input that shows it | evidently intended | confidence | as-written member | corrected member |
|---|---|---|---|---|---|---|
| Xamarin.CircleImageCropper/CircleImageCropper/com.edmodo.cropper.cropwindow/CropOverlayView.cs:438-440,461-463 | When the initial side clamps to 40 px, the target ratio is replaced by 40/height or width/40 even when the bitmap side is 0. | The image view passes the empty rectangle when it has no bitmap. With the default fixed 1:1 ratio this makes the target ratio 0, and every later ratio-locked drag divides by it. A 40×0 bitmap rectangle makes it 40/0. | Replace the ratio only when the bitmap side it is computed from is positive, so the target ratio stays positive. | medium, not executed | CropOverlay.InitCropWindowZeroesRatioOnEmptyRect | CropOverlay.InitialWindow |
