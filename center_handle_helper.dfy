/**
 * CenterHandleHelper: dragging the whole crop window. The window is moved
 * so that its centre is under the touch, then slid back onto the image on
 * each axis where a side entered the snap margin. Its size never changes,
 * so the ratio-holding drag is the same operation.
 */
module CenterHandleHelper {
  import opened Geometry
  import opened Edges

  /** The window moved so that its centre is at (x, y). */
  function Translate(w: Window, x: real, y: real): (t: Window)
    ensures t.Width() == w.Width() && t.Height() == w.Height()
    ensures (t.left + t.right) / 2.0 == x && (t.top + t.bottom) / 2.0 == y
  {
    var offsetX := x - (w.left + w.right) / 2.0;
    var offsetY := y - (w.top + w.bottom) / 2.0;
    Window(w.left + offsetX, w.top + offsetY, w.right + offsetX, w.bottom + offsetY)
  }

  /** Snaps `side` to the image and moves the opposite side along by the same amount. */
  function SlideOnto(w: Window, side: EdgeKind, rect: Rect): (s: Window)
    ensures s.Get(side) == ImageSide(rect, side)
    ensures s.Width() == w.Width() && s.Height() == w.Height()
    ensures forall o :: Perpendicular(o, side) ==> s.Get(o) == w.Get(o)
  {
    var offset := SnapOffset(w, side, rect);
    w.With(side, ImageSide(rect, side)).With(side.Opposite(), w.Get(side.Opposite()) + offset)
  }

  /** Slides onto `first` if it lies in the snap margin, else onto `second` if that one does. */
  function SlideInside(w: Window, first: EdgeKind, second: EdgeKind, rect: Rect, snap: real): Window
  {
    if IsOutsideMargin(w, first, rect, snap) then SlideOnto(w, first, rect)
    else if IsOutsideMargin(w, second, rect, snap) then SlideOnto(w, second, rect)
    else w
  }

  function CenterUpdate(w: Window, x: real, y: real, rect: Rect, snap: real): (n: Window)
    ensures n.Width() == w.Width() && n.Height() == w.Height()
  {
    var moved := Translate(w, x, y);
    SlideInside(SlideInside(moved, Left, Right, rect, snap), Top, Bottom, rect, snap)
  }

  /**
   * On each axis the window keeps the centre the touch gave it unless a
   * side entered the snap margin, in which case that side (the left or top
   * one first) lands on the image border.
   */
  lemma CenterUpdateFollowsTouch(w: Window, x: real, y: real, rect: Rect, snap: real)
    ensures var t := Translate(w, x, y);
      var n := CenterUpdate(w, x, y, rect, snap);
      (IsOutsideMargin(t, Left, rect, snap) ==> n.left == rect.left as real)
      && (!IsOutsideMargin(t, Left, rect, snap) && IsOutsideMargin(t, Right, rect, snap) ==> n.right == rect.right as real)
      && (!IsOutsideMargin(t, Left, rect, snap) && !IsOutsideMargin(t, Right, rect, snap) ==> n.left == t.left && n.right == t.right)
      && (IsOutsideMargin(t, Top, rect, snap) ==> n.top == rect.top as real)
      && (!IsOutsideMargin(t, Top, rect, snap) && IsOutsideMargin(t, Bottom, rect, snap) ==> n.bottom == rect.bottom as real)
      && (!IsOutsideMargin(t, Top, rect, snap) && !IsOutsideMargin(t, Bottom, rect, snap) ==> n.top == t.top && n.bottom == t.bottom)
  {
    var t := Translate(w, x, y);
    var h := SlideInside(t, Left, Right, rect, snap);
    assert h.top == t.top && h.bottom == t.bottom by {
      assert h == t || h == SlideOnto(t, Left, rect) || h == SlideOnto(t, Right, rect);
      assert Perpendicular(Top, Left) && Perpendicular(Bottom, Left);
      assert Perpendicular(Top, Right) && Perpendicular(Bottom, Right);
    }
    var n := SlideInside(h, Top, Bottom, rect, snap);
    assert n.left == h.left && n.right == h.right by {
      assert n == h || n == SlideOnto(h, Top, rect) || n == SlideOnto(h, Bottom, rect);
      assert Perpendicular(Left, Top) && Perpendicular(Right, Top);
      assert Perpendicular(Left, Bottom) && Perpendicular(Right, Bottom);
    }
  }

  /** A window no larger than the image, moved with a non-negative snap radius, ends inside the image. */
  lemma CenterUpdateStaysInside(w: Window, x: real, y: real, rect: Rect, snap: real)
    requires snap >= 0.0
    requires 0.0 <= w.Width() <= rect.Width() as real && 0.0 <= w.Height() <= rect.Height() as real
    ensures Within(CenterUpdate(w, x, y, rect, snap), rect)
  {
    var t := Translate(w, x, y);
    var n := CenterUpdate(w, x, y, rect, snap);
    CenterUpdateFollowsTouch(w, x, y, rect, snap);
    assert n.Width() == w.Width() && n.Height() == w.Height();
  }

  /** The move on the shared edges. */
  method UpdateCropWindow(edges: EdgeManager, x: real, y: real, rect: Rect, snap: real)
    requires edges.Valid()
    modifies edges.Edges()
    ensures edges.Snapshot() == CenterUpdate(old(edges.Snapshot()), x, y, rect, snap)
  {
    var left := edges.left.coordinate;
    var top := edges.top.coordinate;
    var right := edges.right.coordinate;
    var bottom := edges.bottom.coordinate;

    var currentCenterX := (left + right) / 2.0;
    var currentCenterY := (top + bottom) / 2.0;
    var offsetX := x - currentCenterX;
    var offsetY := y - currentCenterY;

    edges.left.Offset(offsetX);
    edges.top.Offset(offsetY);
    edges.right.Offset(offsetX);
    edges.bottom.Offset(offsetY);
    ghost var moved := edges.Snapshot();
    assert moved == Translate(old(edges.Snapshot()), x, y);

    if IsOutsideMargin(edges.Snapshot(), Left, rect, snap) {
      var offset := edges.left.SnapToRect(rect);
      edges.right.Offset(offset);
    } else if IsOutsideMargin(edges.Snapshot(), Right, rect, snap) {
      var offset := edges.right.SnapToRect(rect);
      edges.left.Offset(offset);
    }
    ghost var slid := edges.Snapshot();
    assert slid == SlideInside(moved, Left, Right, rect, snap);

    if IsOutsideMargin(edges.Snapshot(), Top, rect, snap) {
      var offset := edges.top.SnapToRect(rect);
      edges.bottom.Offset(offset);
    } else if IsOutsideMargin(edges.Snapshot(), Bottom, rect, snap) {
      var offset := edges.bottom.SnapToRect(rect);
      edges.top.Offset(offset);
    }
  }
}
