/**
 * HandleUtil: which handle a touch presses, and the offset from the touch
 * to the point of the handle the drag then tracks.
 */
module HandleUtil {
  import opened Numerics
  import opened Geometry
  import opened Handles
  import Edges

  /** A corner's zone: the closed square of half-side `targetRadius` centred on the corner. */
  predicate IsInCornerTargetZone(x: real, y: real, handleX: real, handleY: real, targetRadius: real): (inZone: bool)
    ensures inZone <==> handleX - targetRadius <= x <= handleX + targetRadius
                        && handleY - targetRadius <= y <= handleY + targetRadius
    ensures inZone ==> targetRadius >= 0.0
  {
    Abs(x - handleX) <= targetRadius && Abs(y - handleY) <= targetRadius
  }

  /** A top or bottom bar's zone: open along the bar, closed across it. */
  predicate IsInHorizontalTargetZone(x: real, y: real, handleXStart: real, handleXEnd: real, handleY: real, targetRadius: real): (inZone: bool)
    ensures inZone <==> handleXStart < x < handleXEnd && handleY - targetRadius <= y <= handleY + targetRadius
    ensures inZone ==> handleXStart < handleXEnd && targetRadius >= 0.0
  {
    x > handleXStart && x < handleXEnd && Abs(y - handleY) <= targetRadius
  }

  /** A left or right bar's zone: the horizontal bar's zone with the axes swapped. */
  predicate IsInVerticalTargetZone(x: real, y: real, handleX: real, handleYStart: real, handleYEnd: real, targetRadius: real): (inZone: bool)
    ensures inZone <==> IsInHorizontalTargetZone(y, x, handleYStart, handleYEnd, handleX, targetRadius)
    ensures inZone ==> handleYStart < handleYEnd && targetRadius >= 0.0
  {
    Abs(x - handleX) <= targetRadius && y > handleYStart && y < handleYEnd
  }

  /** The centre's zone: the open interior of the window, empty for a window with no area. */
  predicate IsInCenterTargetZone(x: real, y: real, left: real, top: real, right: real, bottom: real): (inZone: bool)
    ensures inZone <==> IsInHorizontalTargetZone(x, y, left, right, (top + bottom) / 2.0, (bottom - top) / 2.0)
                        && y != top && y != bottom
    ensures inZone ==> left < right && top < bottom
  {
    x > left && x < right && y > top && y < bottom
  }

  /** Whether (x, y) lies in the target zone of handle `k` of window `w`. */
  predicate InZone(k: HandleKind, x: real, y: real, w: Edges.Window, targetRadius: real)
  {
    match k
    case TopLeft => IsInCornerTargetZone(x, y, w.left, w.top, targetRadius)
    case TopRight => IsInCornerTargetZone(x, y, w.right, w.top, targetRadius)
    case BottomLeft => IsInCornerTargetZone(x, y, w.left, w.bottom, targetRadius)
    case BottomRight => IsInCornerTargetZone(x, y, w.right, w.bottom, targetRadius)
    case Top => IsInHorizontalTargetZone(x, y, w.left, w.right, w.top, targetRadius)
    case Bottom => IsInHorizontalTargetZone(x, y, w.left, w.right, w.bottom, targetRadius)
    case Left => IsInVerticalTargetZone(x, y, w.left, w.top, w.bottom, targetRadius)
    case Right => IsInVerticalTargetZone(x, y, w.right, w.top, w.bottom, targetRadius)
    case Center => IsInCenterTargetZone(x, y, w.left, w.top, w.right, w.bottom)
  }

  /**
   * The order in which overlapping zones win: corners, then the centre
   * when it has focus, then the sides, then the centre otherwise.
   */
  function Precedence(k: HandleKind, focusCenter: bool): nat
  {
    match k
    case TopLeft => 0
    case TopRight => 1
    case BottomLeft => 2
    case BottomRight => 3
    case Center => if focusCenter then 4 else 9
    case Top => 5
    case Bottom => 6
    case Left => 7
    case Right => 8
  }

  /**
   * The handle a touch at (x, y) presses on the window (left, top, right,
   * bottom): the zone that contains the touch and comes first in
   * `Precedence`, or none when no zone contains it. `focusCenter` is
   * whether the guidelines are hidden.
   */
  function GetPressedHandle(x: real, y: real, left: real, top: real, right: real, bottom: real,
                            targetRadius: real, focusCenter: bool): (pressed: Option<HandleKind>)
    ensures var w := Edges.Window(left, top, right, bottom);
      (pressed.Some? ==> InZone(pressed.value, x, y, w, targetRadius))
      && (pressed.Some? ==> forall k :: Precedence(k, focusCenter) < Precedence(pressed.value, focusCenter) ==> !InZone(k, x, y, w, targetRadius))
      && (pressed.None? <==> forall k :: !InZone(k, x, y, w, targetRadius))
  {
    var w := Edges.Window(left, top, right, bottom);
    if IsInCornerTargetZone(x, y, left, top, targetRadius) then
      assert InZone(TopLeft, x, y, w, targetRadius); Some(TopLeft)
    else if IsInCornerTargetZone(x, y, right, top, targetRadius) then
      assert InZone(TopRight, x, y, w, targetRadius); Some(TopRight)
    else if IsInCornerTargetZone(x, y, left, bottom, targetRadius) then
      assert InZone(BottomLeft, x, y, w, targetRadius); Some(BottomLeft)
    else if IsInCornerTargetZone(x, y, right, bottom, targetRadius) then
      assert InZone(BottomRight, x, y, w, targetRadius); Some(BottomRight)
    else if IsInCenterTargetZone(x, y, left, top, right, bottom) && focusCenter then
      assert InZone(Center, x, y, w, targetRadius); Some(Center)
    else if IsInHorizontalTargetZone(x, y, left, right, top, targetRadius) then
      assert InZone(Top, x, y, w, targetRadius); Some(Top)
    else if IsInHorizontalTargetZone(x, y, left, right, bottom, targetRadius) then
      assert InZone(Bottom, x, y, w, targetRadius); Some(Bottom)
    else if IsInVerticalTargetZone(x, y, left, top, bottom, targetRadius) then
      assert InZone(Left, x, y, w, targetRadius); Some(Left)
    else if IsInVerticalTargetZone(x, y, right, top, bottom, targetRadius) then
      assert InZone(Right, x, y, w, targetRadius); Some(Right)
    else if IsInCenterTargetZone(x, y, left, top, right, bottom) && !focusCenter then
      assert InZone(Center, x, y, w, targetRadius); Some(Center)
    else None
  }

  /**
   * A touch strictly inside the window always presses a handle, whatever
   * the focus: if no corner or side zone takes it, the centre does.
   */
  lemma PointInsideIsPressed(x: real, y: real, left: real, top: real, right: real, bottom: real,
                             targetRadius: real, focusCenter: bool)
    requires left < x < right && top < y < bottom
    ensures GetPressedHandle(x, y, left, top, right, bottom, targetRadius, focusCenter).Some?
  {
    assert InZone(Center, x, y, Edges.Window(left, top, right, bottom), targetRadius);
  }

  /** The x-coordinate a handle tracks: its vertical edge, or the window's centre; none for top and bottom. */
  function AnchorX(k: HandleKind, w: Edges.Window): (ax: Option<real>)
    ensures ax.None? <==> k == Top || k == Bottom
    ensures ax.Some? && k != Center ==> ax.value == w.left || ax.value == w.right
    ensures k == Center ==> ax.value - w.left == w.right - ax.value
  {
    match k
    case TopLeft | BottomLeft | Left => Some(w.left)
    case TopRight | BottomRight | Right => Some(w.right)
    case Center => Some((w.right + w.left) / 2.0)
    case Top | Bottom => None
  }

  /** The y-coordinate a handle tracks: its horizontal edge, or the window's centre; none for left and right. */
  function AnchorY(k: HandleKind, w: Edges.Window): (ay: Option<real>)
    ensures ay.None? <==> k == Left || k == Right
    ensures ay.Some? && k != Center ==> ay.value == w.top || ay.value == w.bottom
    ensures k == Center ==> ay.value - w.top == w.bottom - ay.value
  {
    match k
    case TopLeft | TopRight | Top => Some(w.top)
    case BottomLeft | BottomRight | Bottom => Some(w.bottom)
    case Center => Some((w.top + w.bottom) / 2.0)
    case Left | Right => None
  }

  /**
   * The offset from the touch to the tracked point of the pressed handle:
   * adding it to the touch gives the anchor on each axis the handle
   * tracks, and it is zero on an axis it does not. No handle, no offset.
   */
  function GetOffset(handle: Option<HandleKind>, x: real, y: real,
                     left: real, top: real, right: real, bottom: real): (offset: Option<(real, real)>)
    ensures handle.None? <==> offset.None?
    ensures handle.Some? ==>
      var w := Edges.Window(left, top, right, bottom);
      (AnchorX(handle.value, w).Some? ==> x + offset.value.0 == AnchorX(handle.value, w).value)
      && (AnchorX(handle.value, w).None? ==> offset.value.0 == 0.0)
      && (AnchorY(handle.value, w).Some? ==> y + offset.value.1 == AnchorY(handle.value, w).value)
      && (AnchorY(handle.value, w).None? ==> offset.value.1 == 0.0)
  {
    if handle.None? then None
    else
      var touchOffset: (real, real) :=
        match handle.value
        case TopLeft => (left - x, top - y)
        case TopRight => (right - x, top - y)
        case BottomLeft => (left - x, bottom - y)
        case BottomRight => (right - x, bottom - y)
        case Left => (left - x, 0.0)
        case Top => (0.0, top - y)
        case Right => (right - x, 0.0)
        case Bottom => (0.0, bottom - y)
        case Center => ((right + left) / 2.0 - x, (top + bottom) / 2.0 - y);
      Some(touchOffset)
  }
}
