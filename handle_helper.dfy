/**
 * HandleHelper: what dragging one handle does to the crop window. The
 * four helper kinds (corner, top/bottom side, left/right side, centre)
 * share one class, tagged by `kind`; each helper holds the horizontal and
 * vertical edge it is bound to (either may be absent) and the ordered
 * pair of edges it moves, which the ratio-holding corner drag reorders in
 * place.
 */
module HandleHelpers {
  import opened Geometry
  import opened AspectRatioUtil
  import opened Edges
  import CornerHandleHelper
  import HorizontalHandleHelper
  import VerticalHandleHelper
  import CenterHandleHelper

  /** The ratio the free drag passes to the edges: the minimum size then holds both ways. */
  const UNFIXED_ASPECT_RATIO_CONSTANT: real := 1.0

  datatype HelperKind = Corner | Horizontal | Vertical | Center

  /** Which edges each kind of helper is bound to. */
  predicate BindingOk(kind: HelperKind, horizontal: Option<EdgeKind>, vertical: Option<EdgeKind>)
  {
    (horizontal.Some? ==> !horizontal.value.IsVertical())
    && (vertical.Some? ==> vertical.value.IsVertical())
    && match kind
       case Corner => horizontal.Some? && vertical.Some?
       case Horizontal => horizontal.Some? && vertical.None?
       case Vertical => horizontal.None? && vertical.Some?
       case Center => horizontal.None? && vertical.None?
  }

  /** The window the handle would give if its edges were dragged to (x, y). */
  function PotentialWindow(w: Window, horizontal: Option<EdgeKind>, vertical: Option<EdgeKind>, x: real, y: real): (p: Window)
    requires (horizontal.Some? ==> !horizontal.value.IsVertical()) && (vertical.Some? ==> vertical.value.IsVertical())
    ensures vertical.Some? && horizontal.Some? ==> p == w.With(vertical.value, x).With(horizontal.value, y)
    ensures vertical.None? && horizontal.None? ==> p == w
  {
    Window(if vertical == Some(Left) then x else w.left,
           if horizontal == Some(Top) then y else w.top,
           if vertical == Some(Right) then x else w.right,
           if horizontal == Some(Bottom) then y else w.bottom)
  }

  /**
   * The ordered pair of edges a ratio-holding drag moves: the vertical
   * edge decides when the potential window is wider than the ratio, the
   * horizontal edge otherwise.
   */
  function ActiveEdgesFor(w: Window, horizontal: Option<EdgeKind>, vertical: Option<EdgeKind>,
                          x: real, y: real, ratio: real): (pair: EdgePair)
    requires (horizontal.Some? ==> !horizontal.value.IsVertical()) && (vertical.Some? ==> vertical.value.IsVertical())
  {
    var potential := PotentialWindow(w, horizontal, vertical, x, y);
    if RatioExceeds(potential.Width(), potential.Height(), ratio) then EdgePair(vertical, horizontal)
    else EdgePair(horizontal, vertical)
  }

  /**
   * For a corner whose potential window has positive height, the vertical
   * edge leads exactly when that window is wider than `ratio` times its
   * height; the pair is always the two bound edges, in one order or the
   * other.
   */
  lemma ActiveEdgesFollowWiderSide(w: Window, horizontal: EdgeKind, vertical: EdgeKind, x: real, y: real, ratio: real)
    requires !horizontal.IsVertical() && vertical.IsVertical()
    requires w.With(vertical, x).With(horizontal, y).Height() > 0.0
    ensures var p := w.With(vertical, x).With(horizontal, y);
      var pair := ActiveEdgesFor(w, Some(horizontal), Some(vertical), x, y, ratio);
      (pair == EdgePair(Some(vertical), Some(horizontal)) <==> p.Width() > ratio * p.Height())
      && (pair == EdgePair(Some(horizontal), Some(vertical)) <==> p.Width() <= ratio * p.Height())
  {
    var p := w.With(vertical, x).With(horizontal, y);
    RatioExceedsPositiveHeight(p.Width(), p.Height(), ratio);
  }

  /** Moves edge `e`, when there is one, to follow the touch with the free ratio. */
  function FollowTouch(w: Window, e: Option<EdgeKind>, x: real, y: real, rect: Rect, snap: real): Window
  {
    if e.None? then w
    else w.With(e.value, TouchCoordinate(w, e.value, x, y, rect, snap, UNFIXED_ASPECT_RATIO_CONSTANT))
  }

  /** The drag without a held ratio, the helper's edges moved in the order of `pair`. */
  function FreeUpdate(w: Window, kind: HelperKind, pair: EdgePair, x: real, y: real, rect: Rect, snap: real): Window
  {
    if kind == Center then CenterHandleHelper.CenterUpdate(w, x, y, rect, snap)
    else FollowTouch(FollowTouch(w, pair.primary, x, y, rect, snap), pair.secondary, x, y, rect, snap)
  }

  /** Where a dragged edge lands depends, of the other edges, only on the opposite one. */
  lemma TouchCoordinateReadsOpposite(w1: Window, w2: Window, e: EdgeKind, x: real, y: real, rect: Rect, snap: real, ratio: real)
    requires ratio > 0.0 && w1.Get(e.Opposite()) == w2.Get(e.Opposite())
    ensures TouchCoordinate(w1, e, x, y, rect, snap, ratio) == TouchCoordinate(w2, e, x, y, rect, snap, ratio)
  {
    match e
    case Left => assert w1.right == w2.right;
    case Top => assert w1.bottom == w2.bottom;
    case Right => assert w1.left == w2.left;
    case Bottom => assert w1.top == w2.top;
  }

  /**
   * The free drag of a corner moves each of its two edges as if it were
   * dragged alone from the original window, so the order of the pair,
   * which a ratio-holding drag may have swapped, does not matter.
   */
  lemma FreeUpdateIgnoresOrder(w: Window, horizontal: EdgeKind, vertical: EdgeKind, x: real, y: real, rect: Rect, snap: real)
    requires !horizontal.IsVertical() && vertical.IsVertical()
    ensures var both := w.With(horizontal, TouchCoordinate(w, horizontal, x, y, rect, snap, UNFIXED_ASPECT_RATIO_CONSTANT))
                         .With(vertical, TouchCoordinate(w, vertical, x, y, rect, snap, UNFIXED_ASPECT_RATIO_CONSTANT));
      FreeUpdate(w, Corner, EdgePair(Some(horizontal), Some(vertical)), x, y, rect, snap) == both
      && FreeUpdate(w, Corner, EdgePair(Some(vertical), Some(horizontal)), x, y, rect, snap) == both
  {
    var h := TouchCoordinate(w, horizontal, x, y, rect, snap, UNFIXED_ASPECT_RATIO_CONSTANT);
    var v := TouchCoordinate(w, vertical, x, y, rect, snap, UNFIXED_ASPECT_RATIO_CONSTANT);
    var wh := w.With(horizontal, h);
    var wv := w.With(vertical, v);
    assert vertical.Opposite() != horizontal && horizontal.Opposite() != vertical;
    TouchCoordinateReadsOpposite(wh, w, vertical, x, y, rect, snap, UNFIXED_ASPECT_RATIO_CONSTANT);
    TouchCoordinateReadsOpposite(wv, w, horizontal, x, y, rect, snap, UNFIXED_ASPECT_RATIO_CONSTANT);
    var both := wh.With(vertical, v);
    assert wv.With(horizontal, h) == both by {
      assert forall o :: wv.With(horizontal, h).Get(o) == both.Get(o);
      assert wv.With(horizontal, h).left == both.left && wv.With(horizontal, h).right == both.right;
      assert wv.With(horizontal, h).top == both.top && wv.With(horizontal, h).bottom == both.bottom;
    }
  }

  /**
   * For a helper whose pair is its bound edges in either order, the free
   * drag is the same as with the pair in its initial order.
   */
  lemma FreeUpdateIgnoresPairOrder(w: Window, kind: HelperKind, horizontal: Option<EdgeKind>, vertical: Option<EdgeKind>,
                                   pair: EdgePair, x: real, y: real, rect: Rect, snap: real)
    requires BindingOk(kind, horizontal, vertical)
    requires pair == EdgePair(horizontal, vertical) || pair == EdgePair(vertical, horizontal)
    ensures FreeUpdate(w, kind, pair, x, y, rect, snap) == FreeUpdate(w, kind, EdgePair(horizontal, vertical), x, y, rect, snap)
  {
    if kind == Corner {
      FreeUpdateIgnoresOrder(w, horizontal.value, vertical.value, x, y, rect, snap);
    }
  }

  /** The drag that holds `ratio`, dispatched on the kind of helper. */
  function FixedUpdate(w: Window, kind: HelperKind, horizontal: Option<EdgeKind>, vertical: Option<EdgeKind>,
                       x: real, y: real, ratio: real, rect: Rect, snap: real): Window
    requires BindingOk(kind, horizontal, vertical) && ratio > 0.0
  {
    match kind
    case Corner =>
      var pair := ActiveEdgesFor(w, horizontal, vertical, x, y, ratio);
      CornerHandleHelper.CornerUpdate(w, pair.primary.value, pair.secondary.value, x, y, ratio, rect, snap)
    case Horizontal => HorizontalHandleHelper.HorizontalUpdate(w, horizontal.value, x, y, ratio, rect, snap)
    case Vertical => VerticalHandleHelper.VerticalUpdate(w, vertical.value, x, y, ratio, rect, snap)
    case Center => CenterHandleHelper.CenterUpdate(w, x, y, rect, snap)
  }

  /**
   * Every ratio-holding drag of a corner or side leaves the window at the
   * ratio; the centre drag keeps the window's size.
   */
  lemma FixedUpdateKeepsRatio(w: Window, kind: HelperKind, horizontal: Option<EdgeKind>, vertical: Option<EdgeKind>,
                              x: real, y: real, ratio: real, rect: Rect, snap: real)
    requires BindingOk(kind, horizontal, vertical) && ratio > 0.0
    ensures var n := FixedUpdate(w, kind, horizontal, vertical, x, y, ratio, rect, snap);
      (kind != Center ==> HasRatio(n, ratio))
      && (kind == Center ==> n.Width() == w.Width() && n.Height() == w.Height())
  {
    match kind
    case Corner =>
    case Horizontal =>
      HorizontalHandleHelper.HorizontalUpdateKeepsRatio(w, horizontal.value, x, y, ratio, rect, snap);
    case Vertical =>
      VerticalHandleHelper.VerticalUpdateKeepsRatio(w, vertical.value, x, y, ratio, rect, snap);
    case Center =>
  }

  class HandleHelper {
    const kind: HelperKind
    const horizontalEdge: Option<EdgeKind>
    const verticalEdge: Option<EdgeKind>
    const edges: EdgeManager
    /**
     * The active pair is always the two bound edges, in one order or the
     * other; the helper records which of them leads.
     */
    var verticalLeads: bool

    /** The helper is bound to edges that fit its kind, over valid shared edges. */
    ghost predicate Valid()
    {
      edges.Valid() && BindingOk(kind, horizontalEdge, verticalEdge)
    }

    constructor (kind: HelperKind, horizontalEdge: Option<EdgeKind>, verticalEdge: Option<EdgeKind>, edges: EdgeManager)
      requires edges.Valid() && BindingOk(kind, horizontalEdge, verticalEdge)
      ensures Valid()
      ensures this.kind == kind && this.horizontalEdge == horizontalEdge && this.verticalEdge == verticalEdge
      ensures this.edges == edges && GetActiveEdges() == EdgePair(horizontalEdge, verticalEdge)
    {
      this.kind := kind;
      this.horizontalEdge := horizontalEdge;
      this.verticalEdge := verticalEdge;
      this.edges := edges;
      verticalLeads := false;
    }

    /** The pair the free drag moves, in the order the last ratio-holding drag left it. */
    function GetActiveEdges(): (pair: EdgePair)
      reads this
      ensures pair == EdgePair(horizontalEdge, verticalEdge) || pair == EdgePair(verticalEdge, horizontalEdge)
    {
      if verticalLeads then EdgePair(verticalEdge, horizontalEdge) else EdgePair(horizontalEdge, verticalEdge)
    }

    /** Reorders the pair in place for a ratio-holding drag to (x, y) and returns it. */
    method GetActiveEdgesFor(x: real, y: real, ratio: real) returns (pair: EdgePair)
      requires Valid()
      modifies this
      ensures Valid() && pair == GetActiveEdges()
      ensures pair == ActiveEdgesFor(edges.Snapshot(), horizontalEdge, verticalEdge, x, y, ratio)
    {
      var potential := PotentialWindow(edges.Snapshot(), horizontalEdge, verticalEdge, x, y);
      verticalLeads := RatioExceeds(potential.Width(), potential.Height(), ratio);
      pair := GetActiveEdges();
    }

    /** The drag without a held ratio. */
    method UpdateCropWindow(x: real, y: real, rect: Rect, snap: real)
      requires Valid()
      modifies edges.Edges()
      ensures edges.Snapshot() == FreeUpdate(old(edges.Snapshot()), kind, GetActiveEdges(), x, y, rect, snap)
    {
      if kind == Center {
        CenterHandleHelper.UpdateCropWindow(edges, x, y, rect, snap);
      } else {
        var pair := GetActiveEdges();
        if pair.primary.Some? {
          edges.Get(pair.primary.value).AdjustCoordinate(x, y, rect, snap, UNFIXED_ASPECT_RATIO_CONSTANT, edges);
        }
        if pair.secondary.Some? {
          edges.Get(pair.secondary.value).AdjustCoordinate(x, y, rect, snap, UNFIXED_ASPECT_RATIO_CONSTANT, edges);
        }
      }
    }

    /** The drag that holds `ratio`. */
    method UpdateCropWindowKeepingRatio(x: real, y: real, ratio: real, rect: Rect, snap: real)
      requires Valid() && ratio > 0.0
      modifies this, edges.Edges()
      ensures Valid()
      ensures edges.Snapshot() == FixedUpdate(old(edges.Snapshot()), kind, horizontalEdge, verticalEdge, x, y, ratio, rect, snap)
      ensures kind == Corner ==> GetActiveEdges() == ActiveEdgesFor(old(edges.Snapshot()), horizontalEdge, verticalEdge, x, y, ratio)
      ensures kind != Corner ==> verticalLeads == old(verticalLeads)
    {
      match kind {
        case Corner =>
          var pair := GetActiveEdgesFor(x, y, ratio);
          CornerHandleHelper.UpdateCropWindow(edges, pair.primary.value, pair.secondary.value, x, y, ratio, rect, snap);
        case Horizontal =>
          HorizontalHandleHelper.UpdateCropWindow(edges, horizontalEdge.value, x, y, ratio, rect, snap);
        case Vertical =>
          VerticalHandleHelper.UpdateCropWindow(edges, verticalEdge.value, x, y, ratio, rect, snap);
        case Center =>
          CenterHandleHelper.UpdateCropWindow(edges, x, y, rect, snap);
      }
    }
  }
}
