/**
 * VerticalHandleHelper: dragging the left or right edge while the aspect
 * ratio is held. The dragged edge follows the touch, the top and bottom
 * edges move apart or together symmetrically to restore the ratio, and a
 * side pushed into the snap margin is snapped to the image when the
 * resulting window fits.
 */
module VerticalHandleHelper {
  import opened Geometry
  import opened AspectRatioUtil
  import opened Edges

  /** Moves top and bottom symmetrically so the window reaches the ratio at its current width. */
  function Stretch(w: Window, ratio: real): (s: Window)
    requires ratio > 0.0
    ensures HasRatio(s, ratio)
    ensures s.left == w.left && s.right == w.right
    ensures s.top + s.bottom == w.top + w.bottom
  {
    var targetHeight := CalculateHeight(w.left, w.right, ratio);
    var halfDifference := (targetHeight - (w.bottom - w.top)) / 2.0;
    w.(top := w.top - halfDifference, bottom := w.bottom + halfDifference)
  }

  function VerticalUpdate(w: Window, e: EdgeKind, x: real, y: real, ratio: real, rect: Rect, snap: real): (n: Window)
    requires ratio > 0.0
  {
    var stretched := Stretch(w.With(e, TouchCoordinate(w, e, x, y, rect, snap, ratio)), ratio);
    FixSide(FixSide(stretched, e, Top, rect, snap, ratio), e, Bottom, rect, snap, ratio)
  }

  /**
   * Dragging the left or right edge keeps the ratio and never moves the
   * opposite edge; the window is either the symmetric stretch of the
   * touched window, or it was snapped vertically and lies inside the image.
   */
  lemma VerticalUpdateKeepsRatio(w: Window, e: EdgeKind, x: real, y: real, ratio: real, rect: Rect, snap: real)
    requires ratio > 0.0 && e.IsVertical()
    ensures var n := VerticalUpdate(w, e, x, y, ratio, rect, snap);
      HasRatio(n, ratio)
      && n.Get(e.Opposite()) == w.Get(e.Opposite())
      && (n == Stretch(w.With(e, TouchCoordinate(w, e, x, y, rect, snap, ratio)), ratio) || Within(n, rect))
  {
    var touched := w.With(e, TouchCoordinate(w, e, x, y, rect, snap, ratio));
    var stretched := Stretch(touched, ratio);
    assert stretched.Get(e.Opposite()) == w.Get(e.Opposite());
    var first := FixSide(stretched, e, Top, rect, snap, ratio);
    if first != stretched {
      assert first == SnapFix(stretched, e, Top, rect, ratio);
      assert first.Get(e.Opposite()) == w.Get(e.Opposite());
    }
    var second := FixSide(first, e, Bottom, rect, snap, ratio);
    if second != first {
      assert second == SnapFix(first, e, Bottom, rect, ratio);
      assert second.Get(e.Opposite()) == w.Get(e.Opposite());
    }
  }

  /** The drag of vertical edge `e` on the shared edges. */
  method UpdateCropWindow(edges: EdgeManager, e: EdgeKind, x: real, y: real, ratio: real, rect: Rect, snap: real)
    requires edges.Valid() && ratio > 0.0
    modifies edges.Edges()
    ensures edges.Snapshot() == VerticalUpdate(old(edges.Snapshot()), e, x, y, ratio, rect, snap)
  {
    ghost var touched := old(edges.Snapshot()).With(e, TouchCoordinate(old(edges.Snapshot()), e, x, y, rect, snap, ratio));
    edges.Get(e).AdjustCoordinate(x, y, rect, snap, ratio, edges);
    assert edges.Snapshot() == touched;

    var left := edges.left.coordinate;
    var top := edges.top.coordinate;
    var right := edges.right.coordinate;
    var bottom := edges.bottom.coordinate;

    var targetHeight := CalculateHeight(left, right, ratio);
    var currentHeight := bottom - top;
    var difference := targetHeight - currentHeight;
    var halfDifference := difference / 2.0;
    top := top - halfDifference;
    bottom := bottom + halfDifference;
    edges.top.coordinate := top;
    edges.bottom.coordinate := bottom;
    assert edges.Snapshot() == Stretch(touched, ratio);

    FixSideOf(edges, e, Top, rect, snap, ratio);
    FixSideOf(edges, e, Bottom, rect, snap, ratio);
  }
}
