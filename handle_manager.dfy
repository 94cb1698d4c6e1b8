/**
 * HandleManager: the nine handles of the crop window, each bound to a
 * helper of the right kind over the shared edges.
 */
module HandleManagers {
  import opened Geometry
  import Edges
  import HandleHelpers
  import opened Handles
  import HandleUtil

  /** A helper's kind and the horizontal and vertical edge it is bound to. */
  datatype HelperBinding = HelperBinding(kind: HandleHelpers.HelperKind, horizontal: Option<Edges.EdgeKind>, vertical: Option<Edges.EdgeKind>)

  /** The helper each handle is built with. */
  function Binding(k: HandleKind): (b: HelperBinding)
    ensures HandleHelpers.BindingOk(b.kind, b.horizontal, b.vertical)
    ensures (b.kind == HandleHelpers.Center) == (k == Center)
  {
    match k
    case TopLeft => HelperBinding(HandleHelpers.Corner, Some(Edges.Top), Some(Edges.Left))
    case TopRight => HelperBinding(HandleHelpers.Corner, Some(Edges.Top), Some(Edges.Right))
    case BottomLeft => HelperBinding(HandleHelpers.Corner, Some(Edges.Bottom), Some(Edges.Left))
    case BottomRight => HelperBinding(HandleHelpers.Corner, Some(Edges.Bottom), Some(Edges.Right))
    case Left => HelperBinding(HandleHelpers.Vertical, None, Some(Edges.Left))
    case Top => HelperBinding(HandleHelpers.Horizontal, Some(Edges.Top), None)
    case Right => HelperBinding(HandleHelpers.Vertical, None, Some(Edges.Right))
    case Bottom => HelperBinding(HandleHelpers.Horizontal, Some(Edges.Bottom), None)
    case Center => HelperBinding(HandleHelpers.Center, None, None)
  }

  /** No two handles share a binding. */
  lemma BindingInjective(j: HandleKind, k: HandleKind)
    requires j != k
    ensures Binding(j) != Binding(k)
  {
  }

  /**
   * The point a pressed handle tracks is the point its helper moves: on
   * each axis the anchor is the bound edge, the window's centre for the
   * centre handle, and there is no anchor on an axis with no bound edge.
   */
  lemma BindingMatchesAnchors(k: HandleKind, w: Edges.Window)
    ensures var b := Binding(k);
      (b.vertical.Some? ==> HandleUtil.AnchorX(k, w) == Some(w.Get(b.vertical.value)))
      && (b.horizontal.Some? ==> HandleUtil.AnchorY(k, w) == Some(w.Get(b.horizontal.value)))
      && (k != Center && b.vertical.None? ==> HandleUtil.AnchorX(k, w).None?)
      && (k != Center && b.horizontal.None? ==> HandleUtil.AnchorY(k, w).None?)
      && (k == Center ==> HandleUtil.AnchorX(k, w) == Some((w.left + w.right) / 2.0)
                          && HandleUtil.AnchorY(k, w) == Some((w.top + w.bottom) / 2.0))
  {
    match k
    case TopLeft =>
    case TopRight =>
    case BottomLeft =>
    case BottomRight =>
    case Left =>
    case Top =>
    case Right =>
    case Bottom =>
    case Center =>
  }

  class HandleManager {
    const edges: Edges.EdgeManager
    const topLeft: Handle
    const topRight: Handle
    const bottomLeft: Handle
    const bottomRight: Handle
    const left: Handle
    const top: Handle
    const right: Handle
    const bottom: Handle
    const center: Handle

    function Get(k: HandleKind): Handle
    {
      match k
      case TopLeft => topLeft
      case TopRight => topRight
      case BottomLeft => bottomLeft
      case BottomRight => bottomRight
      case Left => left
      case Top => top
      case Right => right
      case Bottom => bottom
      case Center => center
    }

    /** Handle `k` has its type and a valid helper with `k`'s binding over the shared edges. */
    ghost predicate HandleOk(k: HandleKind)
    {
      var h := Get(k).helper;
      Get(k).handleType == k && h.edges == edges
      && HelperBinding(h.kind, h.horizontalEdge, h.verticalEdge) == Binding(k)
      && h.Valid()
    }

    /** Every handle is well formed, and no two handles share a helper. */
    ghost predicate Valid()
    {
      edges.Valid() && (forall k :: HandleOk(k))
      && forall j, k :: j != k ==> Get(j).helper != Get(k).helper
    }

    constructor (edges: Edges.EdgeManager)
      requires edges.Valid()
      ensures Valid() && this.edges == edges
      ensures forall k :: fresh(Get(k).helper)
      ensures forall k :: Get(k).helper.GetActiveEdges() == Edges.EdgePair(Binding(k).horizontal, Binding(k).vertical)
    {
      var tl := NewHandle(TopLeft, edges);
      var tr := NewHandle(TopRight, edges);
      var bl := NewHandle(BottomLeft, edges);
      var br := NewHandle(BottomRight, edges);
      var l := NewHandle(Left, edges);
      var t := NewHandle(Top, edges);
      var r := NewHandle(Right, edges);
      var b := NewHandle(Bottom, edges);
      var c := NewHandle(Center, edges);
      this.edges := edges;
      topLeft, topRight, bottomLeft, bottomRight := tl, tr, bl, br;
      left, top, right, bottom, center := l, t, r, b, c;
      new;
      forall k
        ensures HandleOk(k) && fresh(Get(k).helper)
        ensures Get(k).helper.GetActiveEdges() == Edges.EdgePair(Binding(k).horizontal, Binding(k).vertical)
      {
        match k
        case TopLeft =>
        case TopRight =>
        case BottomLeft =>
        case BottomRight =>
        case Left =>
        case Top =>
        case Right =>
        case Bottom =>
        case Center =>
      }
      forall j, k | j != k
        ensures Get(j).helper != Get(k).helper
      {
        BindingInjective(j, k);
      }
    }
  }

  /** A handle of kind `k` whose helper is built with `k`'s binding. */
  method NewHandle(k: HandleKind, edges: Edges.EdgeManager) returns (handle: Handle)
    requires edges.Valid()
    ensures fresh(handle) && fresh(handle.helper) && handle.handleType == k
    ensures handle.helper.Valid() && handle.helper.edges == edges
    ensures handle.helper.GetActiveEdges() == Edges.EdgePair(Binding(k).horizontal, Binding(k).vertical)
    ensures HelperBinding(handle.helper.kind, handle.helper.horizontalEdge, handle.helper.verticalEdge) == Binding(k)
  {
    var b := Binding(k);
    var helper := new HandleHelpers.HandleHelper(b.kind, b.horizontal, b.vertical, edges);
    handle := new Handle(helper, k);
  }
}
