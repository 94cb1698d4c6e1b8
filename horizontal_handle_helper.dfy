/**
 * HorizontalHandleHelper: dragging the top or bottom edge while the
 * aspect ratio is held. The dragged edge follows the touch, the left and
 * right edges move apart or together symmetrically to restore the ratio,
 * and a side pushed into the snap margin is snapped to the image when the
 * resulting window fits.
 */
module HorizontalHandleHelper {
  import opened Geometry
  import opened AspectRatioUtil
  import opened Edges

  /** Moves left and right symmetrically so the window reaches the ratio at its current height. */
  function Stretch(w: Window, ratio: real): (s: Window)
    ensures HasRatio(s, ratio)
    ensures s.top == w.top && s.bottom == w.bottom
    ensures s.left + s.right == w.left + w.right
  {
    var targetWidth := CalculateWidth(w.top, w.bottom, ratio);
    var halfDifference := (targetWidth - (w.right - w.left)) / 2.0;
    w.(left := w.left - halfDifference, right := w.right + halfDifference)
  }

  function HorizontalUpdate(w: Window, e: EdgeKind, x: real, y: real, ratio: real, rect: Rect, snap: real): (n: Window)
    requires ratio > 0.0
  {
    var stretched := Stretch(w.With(e, TouchCoordinate(w, e, x, y, rect, snap, ratio)), ratio);
    FixSide(FixSide(stretched, e, Left, rect, snap, ratio), e, Right, rect, snap, ratio)
  }

  /**
   * Dragging the top or bottom edge keeps the ratio and never moves the
   * opposite edge; the window is either the symmetric stretch of the
   * touched window, or it was snapped sideways and lies inside the image.
   */
  lemma HorizontalUpdateKeepsRatio(w: Window, e: EdgeKind, x: real, y: real, ratio: real, rect: Rect, snap: real)
    requires ratio > 0.0 && !e.IsVertical()
    ensures var n := HorizontalUpdate(w, e, x, y, ratio, rect, snap);
      HasRatio(n, ratio)
      && n.Get(e.Opposite()) == w.Get(e.Opposite())
      && (n == Stretch(w.With(e, TouchCoordinate(w, e, x, y, rect, snap, ratio)), ratio) || Within(n, rect))
  {
    var touched := w.With(e, TouchCoordinate(w, e, x, y, rect, snap, ratio));
    var stretched := Stretch(touched, ratio);
    assert stretched.Get(e.Opposite()) == w.Get(e.Opposite());
    var first := FixSide(stretched, e, Left, rect, snap, ratio);
    if first != stretched {
      assert first == SnapFix(stretched, e, Left, rect, ratio);
      assert first.Get(e.Opposite()) == w.Get(e.Opposite());
    }
    var second := FixSide(first, e, Right, rect, snap, ratio);
    if second != first {
      assert second == SnapFix(first, e, Right, rect, ratio);
      assert second.Get(e.Opposite()) == w.Get(e.Opposite());
    }
  }

  /** The drag of horizontal edge `e` on the shared edges. */
  method UpdateCropWindow(edges: EdgeManager, e: EdgeKind, x: real, y: real, ratio: real, rect: Rect, snap: real)
    requires edges.Valid() && ratio > 0.0
    modifies edges.Edges()
    ensures edges.Snapshot() == HorizontalUpdate(old(edges.Snapshot()), e, x, y, ratio, rect, snap)
  {
    ghost var touched := old(edges.Snapshot()).With(e, TouchCoordinate(old(edges.Snapshot()), e, x, y, rect, snap, ratio));
    edges.Get(e).AdjustCoordinate(x, y, rect, snap, ratio, edges);
    assert edges.Snapshot() == touched;

    var left := edges.left.coordinate;
    var top := edges.top.coordinate;
    var right := edges.right.coordinate;
    var bottom := edges.bottom.coordinate;

    var targetWidth := CalculateWidth(top, bottom, ratio);
    var currentWidth := right - left;
    var difference := targetWidth - currentWidth;
    var halfDifference := difference / 2.0;
    left := left - halfDifference;
    right := right + halfDifference;
    edges.left.coordinate := left;
    edges.right.coordinate := right;
    assert edges.Snapshot() == Stretch(touched, ratio);

    FixSideOf(edges, e, Left, rect, snap, ratio);
    FixSideOf(edges, e, Right, rect, snap, ratio);
  }
}
