/**
 * Edge: the four sides of the crop window. Each side is an `Edge` object
 * holding one coordinate; the four shared objects live in an
 * `EdgeManager`, and the window they span is read as a `Window` value.
 * Queries that only read the window (snap offsets, margin tests, the
 * out-of-bounds look-ahead) are functions on that value; operations that
 * move a side are methods of `Edge`.
 */
module Edges {
  import opened Geometry
  import opened Numerics
  import opened AspectRatioUtil

  /** Minimum distance one side may come to the opposite side. */
  const MIN_CROP_LENGTH_PX: real := 40.0

  datatype EdgeKind = Left | Top | Right | Bottom {
    /** Left and right are vertical lines and move along x. */
    predicate IsVertical() { this == Left || this == Right }

    function Opposite(): (o: EdgeKind)
      ensures o != this && o.IsVertical() == IsVertical()
    {
      match this
      case Left => Right
      case Top => Bottom
      case Right => Left
      case Bottom => Top
    }
  }

  predicate Perpendicular(a: EdgeKind, b: EdgeKind)
  {
    a.IsVertical() != b.IsVertical()
  }

  /**
   * The edges a handle moves: `primary` is the determining side when the
   * aspect ratio is held; either may be absent.
   */
  datatype EdgePair = EdgePair(primary: Option<EdgeKind>, secondary: Option<EdgeKind>)

  /** The crop window as the four edge coordinates. */
  datatype Window = Window(left: real, top: real, right: real, bottom: real) {
    function Get(e: EdgeKind): real
    {
      match e
      case Left => left
      case Top => top
      case Right => right
      case Bottom => bottom
    }

    /** The window with side `e` moved to `c` and the other three sides kept. */
    function With(e: EdgeKind, c: real): (w: Window)
      ensures w.Get(e) == c
      ensures forall o :: o != e ==> w.Get(o) == Get(o)
    {
      match e
      case Left => this.(left := c)
      case Top => this.(top := c)
      case Right => this.(right := c)
      case Bottom => this.(bottom := c)
    }

    function Width(): real { right - left }
    function Height(): real { bottom - top }
  }

  /** The window's width is `ratio` times its height. */
  predicate HasRatio(w: Window, ratio: real)
  {
    w.Width() == ratio * w.Height()
  }

  /** The image side that edge `e` snaps to. */
  function ImageSide(rect: Rect, e: EdgeKind): real
  {
    match e
    case Left => rect.left as real
    case Top => rect.top as real
    case Right => rect.right as real
    case Bottom => rect.bottom as real
  }

  /** The smaller of two bounds, `None` standing for +Infinity. */
  function Lower(a: Option<real>, b: Option<real>): Option<real>
  {
    match (a, b)
    case (None, _) => b
    case (_, None) => a
    case (Some(x), Some(y)) => Some(Min(x, y))
  }

  /** The larger of two bounds, `None` standing for -Infinity. */
  function Upper(a: Option<real>, b: Option<real>): Option<real>
  {
    match (a, b)
    case (None, _) => b
    case (_, None) => a
    case (Some(x), Some(y)) => Some(Max(x, y))
  }

  lemma DivAtMost(d: real, ratio: real, bound: real)
    requires ratio > 0.0
    ensures d / ratio <= bound <==> d <= bound * ratio
  {
    assert d == (d / ratio) * ratio;
  }

  lemma MulAtMost(d: real, ratio: real, bound: real)
    requires ratio > 0.0
    ensures d * ratio <= bound <==> d <= bound / ratio
  {
    assert bound == (bound / ratio) * ratio;
  }

  /**
   * Where the left side lands when dragged to `x`: on the image side when
   * within the snap radius of it, otherwise no closer to the right side
   * than the minimum width, nor than the width the minimum height needs.
   */
  function AdjustLeft(x: real, w: Window, rect: Rect, snap: real, ratio: real): (r: real)
    requires ratio > 0.0
    ensures x - rect.left as real < snap ==> r == rect.left as real
    ensures x - rect.left as real >= snap ==>
      r == Min(x, Min(w.right - MIN_CROP_LENGTH_PX, w.right - MIN_CROP_LENGTH_PX * ratio))
  {
    if x - rect.left as real < snap then rect.left as real
    else
      var horizontal := if x >= w.right - MIN_CROP_LENGTH_PX then Some(w.right - MIN_CROP_LENGTH_PX) else None;
      var vertical := if (w.right - x) / ratio <= MIN_CROP_LENGTH_PX then Some(w.right - MIN_CROP_LENGTH_PX * ratio) else None;
      DivAtMost(w.right - x, ratio, MIN_CROP_LENGTH_PX);
      Lower(Some(x), Lower(horizontal, vertical)).value
  }

  /** Where the right side lands when dragged to `x`; the mirror of `AdjustLeft`. */
  function AdjustRight(x: real, w: Window, rect: Rect, snap: real, ratio: real): (r: real)
    requires ratio > 0.0
    ensures rect.right as real - x < snap ==> r == rect.right as real
    ensures rect.right as real - x >= snap ==>
      r == Max(x, Max(w.left + MIN_CROP_LENGTH_PX, w.left + MIN_CROP_LENGTH_PX * ratio))
  {
    if rect.right as real - x < snap then rect.right as real
    else
      var horizontal := if x <= w.left + MIN_CROP_LENGTH_PX then Some(w.left + MIN_CROP_LENGTH_PX) else None;
      var vertical := if (x - w.left) / ratio <= MIN_CROP_LENGTH_PX then Some(w.left + MIN_CROP_LENGTH_PX * ratio) else None;
      DivAtMost(x - w.left, ratio, MIN_CROP_LENGTH_PX);
      Upper(Some(x), Upper(horizontal, vertical)).value
  }

  /**
   * Where the top side lands when dragged to `y`: on the image side when
   * within the snap radius of it, otherwise no closer to the bottom side
   * than the minimum height, nor than the height the minimum width needs.
   */
  function AdjustTop(y: real, w: Window, rect: Rect, snap: real, ratio: real): (r: real)
    requires ratio > 0.0
    ensures y - rect.top as real < snap ==> r == rect.top as real
    ensures y - rect.top as real >= snap ==>
      r == Min(y, Min(w.bottom - MIN_CROP_LENGTH_PX, w.bottom - MIN_CROP_LENGTH_PX / ratio))
  {
    if y - rect.top as real < snap then rect.top as real
    else
      var horizontal := if y >= w.bottom - MIN_CROP_LENGTH_PX then Some(w.bottom - MIN_CROP_LENGTH_PX) else None;
      var vertical := if (w.bottom - y) * ratio <= MIN_CROP_LENGTH_PX then Some(w.bottom - MIN_CROP_LENGTH_PX / ratio) else None;
      MulAtMost(w.bottom - y, ratio, MIN_CROP_LENGTH_PX);
      Lower(Some(y), Lower(horizontal, vertical)).value
  }

  /** Where the bottom side lands when dragged to `y`; the mirror of `AdjustTop`. */
  function AdjustBottom(y: real, w: Window, rect: Rect, snap: real, ratio: real): (r: real)
    requires ratio > 0.0
    ensures rect.bottom as real - y < snap ==> r == rect.bottom as real
    ensures rect.bottom as real - y >= snap ==>
      r == Max(y, Max(w.top + MIN_CROP_LENGTH_PX, w.top + MIN_CROP_LENGTH_PX / ratio))
  {
    if rect.bottom as real - y < snap then rect.bottom as real
    else
      var vertical := if y <= w.top + MIN_CROP_LENGTH_PX then Some(w.top + MIN_CROP_LENGTH_PX) else None;
      var horizontal := if (y - w.top) * ratio <= MIN_CROP_LENGTH_PX then Some(w.top + MIN_CROP_LENGTH_PX / ratio) else None;
      MulAtMost(y - w.top, ratio, MIN_CROP_LENGTH_PX);
      Upper(Some(y), Upper(horizontal, vertical)).value
  }

  /** The coordinate along which side `e` moves: x for the vertical sides, y for the others. */
  function Along(e: EdgeKind, x: real, y: real): real
  {
    if e.IsVertical() then x else y
  }

  /**
   * The new coordinate of side `e` when the touch is at (x, y): a touch
   * within the snap radius of the image side lands on it; any other keeps
   * the minimum size to the opposite side in both directions the ratio ties
   * together, and only ever pulls the side back toward the outside; a
   * touch that already keeps both minimums is taken as it is.
   */
  function TouchCoordinate(w: Window, e: EdgeKind, x: real, y: real, rect: Rect, snap: real, ratio: real): (c: real)
    requires ratio > 0.0
    ensures InwardDistanceOf(Along(e, x, y), e, rect) < snap ==> c == ImageSide(rect, e)
    ensures InwardDistanceOf(Along(e, x, y), e, rect) >= snap ==>
      InwardDistanceOf(c, e, rect) <= InwardDistanceOf(Along(e, x, y), e, rect)
      && ((e.IsVertical() && w.With(e, Along(e, x, y)).Width() >= MIN_CROP_LENGTH_PX
           && w.With(e, Along(e, x, y)).Width() >= MIN_CROP_LENGTH_PX * ratio) ==> c == Along(e, x, y))
      && ((!e.IsVertical() && w.With(e, Along(e, x, y)).Height() >= MIN_CROP_LENGTH_PX
           && w.With(e, Along(e, x, y)).Height() >= MIN_CROP_LENGTH_PX / ratio) ==> c == Along(e, x, y))
      && (e.IsVertical() ==> w.With(e, c).Width() >= MIN_CROP_LENGTH_PX && w.With(e, c).Width() >= MIN_CROP_LENGTH_PX * ratio)
      && (!e.IsVertical() ==> w.With(e, c).Height() >= MIN_CROP_LENGTH_PX && w.With(e, c).Height() >= MIN_CROP_LENGTH_PX / ratio)
  {
    match e
    case Left => AdjustLeft(x, w, rect, snap, ratio)
    case Top => AdjustTop(y, w, rect, snap, ratio)
    case Right => AdjustRight(x, w, rect, snap, ratio)
    case Bottom => AdjustBottom(y, w, rect, snap, ratio)
  }

  /** The coordinate of side `e` that gives the window the aspect ratio, the other sides held. */
  function RatioCoordinate(w: Window, e: EdgeKind, ratio: real): (c: real)
    requires ratio > 0.0
    ensures HasRatio(w.With(e, c), ratio)
  {
    match e
    case Left => CalculateLeft(w.top, w.right, w.bottom, ratio)
    case Top => CalculateTop(w.left, w.right, w.bottom, ratio)
    case Right => CalculateRight(w.left, w.top, w.bottom, ratio)
    case Bottom => CalculateBottom(w.left, w.top, w.right, ratio)
  }

  /** How far side `e` would move if snapped to the image side. */
  function SnapOffset(w: Window, e: EdgeKind, rect: Rect): (offset: real)
    ensures w.Get(e) + offset == ImageSide(rect, e)
  {
    match e
    case Left => rect.left as real - w.left
    case Top => rect.top as real - w.top
    case Right => rect.right as real - w.right
    case Bottom => rect.bottom as real - w.bottom
  }

  /** Snapping is idempotent: once a side lies on the image side, snapping it again moves it by nothing. */
  lemma SnapIsIdempotent(w: Window, e: EdgeKind, rect: Rect)
    ensures SnapOffset(w.With(e, w.Get(e) + SnapOffset(w, e, rect)), e, rect) == 0.0
  {
  }

  /** How far position `pos` of side `e` lies inside the image, measured from the image side toward the centre. */
  function InwardDistanceOf(pos: real, e: EdgeKind, rect: Rect): real
  {
    if e == Left || e == Top then pos - ImageSide(rect, e)
    else ImageSide(rect, e) - pos
  }

  function InwardDistance(w: Window, e: EdgeKind, rect: Rect): real
  {
    InwardDistanceOf(w.Get(e), e, rect)
  }

  /** Whether side `e` lies within `margin` of its image side, or beyond it. */
  function IsOutsideMargin(w: Window, e: EdgeKind, rect: Rect, margin: real): (outside: bool)
    ensures outside <==> InwardDistance(w, e, rect) < margin
  {
    match e
    case Left => w.left - rect.left as real < margin
    case Top => w.top - rect.top as real < margin
    case Right => rect.right as real - w.right < margin
    case Bottom => rect.bottom as real - w.bottom < margin
  }

  /** Whether side `e` lies beyond its image side. */
  function IsOutsideFrame(w: Window, e: EdgeKind, rect: Rect): (outside: bool)
    ensures outside == IsOutsideMargin(w, e, rect, 0.0)
    ensures outside <==> SnapOffset(w, e, rect) != 0.0 && (SnapOffset(w, e, rect) > 0.0 <==> e == Left || e == Top)
  {
    match e
    case Left => w.left - rect.left as real < 0.0
    case Top => w.top - rect.top as real < 0.0
    case Right => rect.right as real - w.right < 0.0
    case Bottom => rect.bottom as real - w.bottom < 0.0
  }

  /** The window lies inside the image, sides included. */
  predicate Within(w: Window, rect: Rect)
  {
    rect.left as real <= w.left && rect.top as real <= w.top
    && w.right <= rect.right as real && w.bottom <= rect.bottom as real
  }

  lemma WithinIffNoSideOutsideFrame(w: Window, rect: Rect)
    ensures Within(w, rect) <==> forall e :: !IsOutsideFrame(w, e, rect)
  {
    if forall e :: !IsOutsideFrame(w, e, rect) {
      assert !IsOutsideFrame(w, Left, rect) && !IsOutsideFrame(w, Top, rect);
      assert !IsOutsideFrame(w, Right, rect) && !IsOutsideFrame(w, Bottom, rect);
    }
  }

  /** Whether the window with these sides reaches outside the image. */
  function IsOutOfBounds(top: real, left: real, bottom: real, right: real, rect: Rect): (out: bool)
    ensures out == !Within(Window(left, top, right, bottom), rect)
  {
    top < rect.top as real || left < rect.left as real || bottom > rect.bottom as real || right > rect.right as real
  }

  /**
   * Snap side `side` to the image and move its opposite side by the same
   * amount the other way, so the window keeps its centre on that axis.
   */
  function SymmetricSnap(w: Window, side: EdgeKind, rect: Rect): (s: Window)
    ensures s.Get(side) == ImageSide(rect, side)
    ensures s.Get(side) + s.Get(side.Opposite()) == w.Get(side) + w.Get(side.Opposite())
    ensures forall o :: Perpendicular(o, side) ==> s.Get(o) == w.Get(o)
  {
    var offset := SnapOffset(w, side, rect);
    w.With(side, ImageSide(rect, side)).With(side.Opposite(), w.Get(side.Opposite()) - offset)
  }

  /** `SymmetricSnap` on `side`, then side `e` re-derived from the ratio. */
  function SnapFix(w: Window, e: EdgeKind, side: EdgeKind, rect: Rect, ratio: real): (f: Window)
    requires ratio > 0.0
    ensures HasRatio(f, ratio)
  {
    var s := SymmetricSnap(w, side, rect);
    s.With(e, RatioCoordinate(s, e, ratio))
  }

  /**
   * The look-ahead the side handles run before they snap `other` to the
   * image: the answer is true exactly when `other` is not perpendicular
   * to this side or the window `SnapFix` would produce leaves the image.
   */
  function IsNewRectangleOutOfBounds(w: Window, e: EdgeKind, other: EdgeKind, rect: Rect, ratio: real): (out: bool)
    requires ratio > 0.0
    ensures out == (!Perpendicular(e, other) || !Within(SnapFix(w, e, other, rect, ratio), rect))
  {
    var offset := SnapOffset(w, other, rect);
    match (e, other)
    case (Left, Top) =>
      var top := rect.top as real;
      var bottom := w.bottom - offset;
      var right := w.right;
      var left := CalculateLeft(top, right, bottom, ratio);
      IsOutOfBounds(top, left, bottom, right, rect)
    case (Left, Bottom) =>
      var bottom := rect.bottom as real;
      var top := w.top - offset;
      var right := w.right;
      var left := CalculateLeft(top, right, bottom, ratio);
      IsOutOfBounds(top, left, bottom, right, rect)
    case (Top, Left) =>
      var left := rect.left as real;
      var right := w.right - offset;
      var bottom := w.bottom;
      var top := CalculateTop(left, right, bottom, ratio);
      IsOutOfBounds(top, left, bottom, right, rect)
    case (Top, Right) =>
      var right := rect.right as real;
      var left := w.left - offset;
      var bottom := w.bottom;
      var top := CalculateTop(left, right, bottom, ratio);
      IsOutOfBounds(top, left, bottom, right, rect)
    case (Right, Top) =>
      var top := rect.top as real;
      var bottom := w.bottom - offset;
      var left := w.left;
      var right := CalculateRight(left, top, bottom, ratio);
      IsOutOfBounds(top, left, bottom, right, rect)
    case (Right, Bottom) =>
      var bottom := rect.bottom as real;
      var top := w.top - offset;
      var left := w.left;
      var right := CalculateRight(left, top, bottom, ratio);
      IsOutOfBounds(top, left, bottom, right, rect)
    case (Bottom, Left) =>
      var left := rect.left as real;
      var right := w.right - offset;
      var top := w.top;
      var bottom := CalculateBottom(left, top, right, ratio);
      IsOutOfBounds(top, left, bottom, right, rect)
    case (Bottom, Right) =>
      var right := rect.right as real;
      var left := w.left - offset;
      var top := w.top;
      var bottom := CalculateBottom(left, top, right, ratio);
      IsOutOfBounds(top, left, bottom, right, rect)
    case _ => true
  }

  /**
   * The bounds fix the side handles apply after a drag: when `side` lies
   * in the snap margin and the look-ahead finds the snapped window inside
   * the image, the window becomes that snapped window.
   */
  function FixSide(w: Window, e: EdgeKind, side: EdgeKind, rect: Rect, snap: real, ratio: real): (f: Window)
    requires ratio > 0.0
    ensures f == w || (Within(f, rect) && HasRatio(f, ratio) && f.Get(side) == ImageSide(rect, side))
  {
    if IsOutsideMargin(w, side, rect, snap) && !IsNewRectangleOutOfBounds(w, e, side, rect, ratio) then
      SnapFix(w, e, side, rect, ratio)
    else
      w
  }

  /** `FixSide` on the shared edges: snap `side`, move its opposite back by as much, re-derive `e`. */
  method FixSideOf(edges: EdgeManager, e: EdgeKind, side: EdgeKind, rect: Rect, snap: real, ratio: real)
    requires edges.Valid() && ratio > 0.0
    modifies edges.Edges()
    ensures edges.Snapshot() == FixSide(old(edges.Snapshot()), e, side, rect, snap, ratio)
  {
    var w := edges.Snapshot();
    var outOfBounds := IsNewRectangleOutOfBounds(w, e, side, rect, ratio);
    if IsOutsideMargin(w, side, rect, snap) && !outOfBounds {
      var offset := edges.Get(side).SnapToRect(rect);
      edges.Get(side.Opposite()).Offset(-offset);
      ghost var s := SymmetricSnap(w, side, rect);
      assert edges.Snapshot() == s;
      edges.Get(e).AdjustCoordinateToRatio(ratio, edges);
      assert edges.Snapshot() == s.With(e, RatioCoordinate(s, e, ratio));
    }
  }

  /** One side of the crop window. */
  class Edge {
    const kind: EdgeKind
    var coordinate: real

    constructor (kind: EdgeKind)
      ensures this.kind == kind && coordinate == 0.0
    {
      this.kind := kind;
      coordinate := 0.0;
    }

    method Offset(distance: real)
      modifies this
      ensures coordinate == old(coordinate) + distance
    {
      coordinate := coordinate + distance;
    }

    /** Moves this side to follow the touch at (x, y). */
    method AdjustCoordinate(x: real, y: real, rect: Rect, snap: real, ratio: real, edges: EdgeManager)
      requires edges.Valid() && edges.Get(kind) == this && ratio > 0.0
      modifies this
      ensures edges.Snapshot() == old(edges.Snapshot()).With(kind, TouchCoordinate(old(edges.Snapshot()), kind, x, y, rect, snap, ratio))
    {
      var w := edges.Snapshot();
      match kind
      case Left => coordinate := AdjustLeft(x, w, rect, snap, ratio);
      case Top => coordinate := AdjustTop(y, w, rect, snap, ratio);
      case Right => coordinate := AdjustRight(x, w, rect, snap, ratio);
      case Bottom => coordinate := AdjustBottom(y, w, rect, snap, ratio);
    }

    /** Moves this side so that the window reaches the aspect ratio. */
    method AdjustCoordinateToRatio(ratio: real, edges: EdgeManager)
      requires edges.Valid() && edges.Get(kind) == this && ratio > 0.0
      modifies this
      ensures edges.Snapshot() == old(edges.Snapshot()).With(kind, RatioCoordinate(old(edges.Snapshot()), kind, ratio))
      ensures HasRatio(edges.Snapshot(), ratio)
    {
      var w := edges.Snapshot();
      match kind
      case Left => coordinate := CalculateLeft(w.top, w.right, w.bottom, ratio);
      case Top => coordinate := CalculateTop(w.left, w.right, w.bottom, ratio);
      case Right => coordinate := CalculateRight(w.left, w.top, w.bottom, ratio);
      case Bottom => coordinate := CalculateBottom(w.left, w.top, w.right, ratio);
    }

    /** Moves this side onto the image side and returns how far it moved. */
    method SnapToRect(rect: Rect) returns (offset: real)
      modifies this
      ensures coordinate == ImageSide(rect, kind)
      ensures offset == coordinate - old(coordinate)
    {
      var oldCoordinate := coordinate;
      match kind {
        case Left => coordinate := rect.left as real;
        case Top => coordinate := rect.top as real;
        case Right => coordinate := rect.right as real;
        case Bottom => coordinate := rect.bottom as real;
      }
      offset := coordinate - oldCoordinate;
    }
  }

  /** The four shared sides of the crop window. */
  class EdgeManager {
    const left: Edge
    const top: Edge
    const right: Edge
    const bottom: Edge

    ghost predicate Valid()
    {
      left.kind == Left && top.kind == Top && right.kind == Right && bottom.kind == Bottom
    }

    function Get(e: EdgeKind): (edge: Edge)
      requires Valid()
      ensures edge.kind == e
    {
      match e
      case Left => left
      case Top => top
      case Right => right
      case Bottom => bottom
    }

    function Edges(): set<object>
    {
      {left, top, right, bottom}
    }

    function Snapshot(): Window
      reads left, top, right, bottom
    {
      Window(left.coordinate, top.coordinate, right.coordinate, bottom.coordinate)
    }

    constructor ()
      ensures Valid() && fresh(Edges())
      ensures Snapshot() == Window(0.0, 0.0, 0.0, 0.0)
    {
      left := new Edge(Left);
      top := new Edge(Top);
      right := new Edge(Right);
      bottom := new Edge(Bottom);
    }
  }
}
