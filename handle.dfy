/**
 * Handle: the nine touchable handles of the crop window. A handle is its
 * type plus the helper that carries out its drags.
 */
module Handles {
  import opened Geometry
  import Edges
  import HandleHelpers

  datatype HandleKind = TopLeft | TopRight | BottomLeft | BottomRight | Left | Top | Right | Bottom | Center

  class Handle {
    const helper: HandleHelpers.HandleHelper
    const handleType: HandleKind

    constructor (helper: HandleHelpers.HandleHelper, handleType: HandleKind)
      ensures this.helper == helper && this.handleType == handleType
    {
      this.helper := helper;
      this.handleType := handleType;
    }

    /** The drag without a held ratio, carried out by the helper. */
    method UpdateCropWindow(x: real, y: real, rect: Rect, snap: real)
      requires helper.Valid()
      modifies helper.edges.Edges()
      ensures helper.edges.Snapshot()
        == HandleHelpers.FreeUpdate(old(helper.edges.Snapshot()), helper.kind, helper.GetActiveEdges(), x, y, rect, snap)
    {
      helper.UpdateCropWindow(x, y, rect, snap);
    }

    /** The drag that holds `ratio`, carried out by the helper. */
    method UpdateCropWindowKeepingRatio(x: real, y: real, ratio: real, rect: Rect, snap: real)
      requires helper.Valid() && ratio > 0.0
      modifies helper, helper.edges.Edges()
      ensures helper.Valid()
      ensures helper.edges.Snapshot()
        == HandleHelpers.FixedUpdate(old(helper.edges.Snapshot()), helper.kind, helper.horizontalEdge, helper.verticalEdge,
                                     x, y, ratio, rect, snap)
      ensures helper.kind == HandleHelpers.Corner ==>
        helper.GetActiveEdges() == HandleHelpers.ActiveEdgesFor(old(helper.edges.Snapshot()), helper.horizontalEdge, helper.verticalEdge,
                                                           x, y, ratio)
      ensures helper.kind != HandleHelpers.Corner ==> helper.verticalLeads == old(helper.verticalLeads)
    {
      helper.UpdateCropWindowKeepingRatio(x, y, ratio, rect, snap);
    }
  }
}
