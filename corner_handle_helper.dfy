/**
 * CornerHandleHelper: dragging a corner while the aspect ratio is held.
 * The primary edge follows the touch, the secondary edge is re-derived
 * from the ratio; when that pushes the secondary edge into the snap
 * margin it is pinned to the image and the primary edge is re-derived
 * instead.
 */
module CornerHandleHelper {
  import opened Geometry
  import opened Edges

  function CornerUpdate(w: Window, primary: EdgeKind, secondary: EdgeKind,
                        x: real, y: real, ratio: real, rect: Rect, snap: real): (n: Window)
    requires ratio > 0.0
    ensures HasRatio(n, ratio)
  {
    var touched := w.With(primary, TouchCoordinate(w, primary, x, y, rect, snap, ratio));
    var derived := touched.With(secondary, RatioCoordinate(touched, secondary, ratio));
    if IsOutsideMargin(derived, secondary, rect, snap) then
      var pinned := derived.With(secondary, ImageSide(rect, secondary));
      pinned.With(primary, RatioCoordinate(pinned, primary, ratio))
    else
      derived
  }

  /**
   * A corner drag moves only the two edges of the corner; afterwards the
   * secondary edge is either pinned to the image or clear of the snap
   * margin, and either the primary edge followed the touch or the
   * secondary edge was pinned.
   */
  lemma CornerUpdateMovesOnlyItsCorner(w: Window, primary: EdgeKind, secondary: EdgeKind,
                                       x: real, y: real, ratio: real, rect: Rect, snap: real)
    requires ratio > 0.0 && Perpendicular(primary, secondary)
    ensures var n := CornerUpdate(w, primary, secondary, x, y, ratio, rect, snap);
      n.Get(primary.Opposite()) == w.Get(primary.Opposite())
      && n.Get(secondary.Opposite()) == w.Get(secondary.Opposite())
      && (n.Get(secondary) == ImageSide(rect, secondary) || !IsOutsideMargin(n, secondary, rect, snap))
      && (n.Get(primary) == TouchCoordinate(w, primary, x, y, rect, snap, ratio)
          || n.Get(secondary) == ImageSide(rect, secondary))
  {
    var n := CornerUpdate(w, primary, secondary, x, y, ratio, rect, snap);
    var c := TouchCoordinate(w, primary, x, y, rect, snap, ratio);
    var touched := w.With(primary, c);
    var derived := touched.With(secondary, RatioCoordinate(touched, secondary, ratio));
    assert primary != secondary && primary.Opposite() != secondary && secondary.Opposite() != primary;
    assert derived.Get(primary) == c;
    assert derived.Get(primary.Opposite()) == w.Get(primary.Opposite());
    assert derived.Get(secondary.Opposite()) == w.Get(secondary.Opposite());
    if IsOutsideMargin(derived, secondary, rect, snap) {
      var pinned := derived.With(secondary, ImageSide(rect, secondary));
      assert n == pinned.With(primary, RatioCoordinate(pinned, primary, ratio));
      assert n.Get(secondary) == ImageSide(rect, secondary);
    } else {
      assert n == derived;
    }
  }

  /** The corner drag on the shared edges, primary and secondary as chosen by the handle. */
  method UpdateCropWindow(edges: EdgeManager, primary: EdgeKind, secondary: EdgeKind,
                          x: real, y: real, ratio: real, rect: Rect, snap: real)
    requires edges.Valid() && ratio > 0.0
    modifies edges.Edges()
    ensures edges.Snapshot() == CornerUpdate(old(edges.Snapshot()), primary, secondary, x, y, ratio, rect, snap)
  {
    var primaryEdge := edges.Get(primary);
    var secondaryEdge := edges.Get(secondary);
    primaryEdge.AdjustCoordinate(x, y, rect, snap, ratio, edges);
    secondaryEdge.AdjustCoordinateToRatio(ratio, edges);
    if IsOutsideMargin(edges.Snapshot(), secondary, rect, snap) {
      var offset := secondaryEdge.SnapToRect(rect);
      primaryEdge.AdjustCoordinateToRatio(ratio, edges);
    }
  }
}
