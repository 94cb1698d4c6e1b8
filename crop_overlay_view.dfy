/**
 * CropOverlayView: the view that owns the crop window. It places the
 * initial window on the bitmap, keeps the crop settings (guidelines, a
 * fixed aspect ratio and its X:Y terms), and turns touch events into
 * handle drags.
 */
module CropOverlay {
  import opened Numerics
  import opened Geometry
  import opened AspectRatioUtil
  import opened Edges
  import HandleHelpers
  import opened Handles
  import HandleUtil
  import HandleManagers

  /** Guidelines are shown only when both sides of the window reach this length. */
  const DEFAULT_SHOW_GUIDELINES_LIMIT: real := 100.0

  const GUIDELINES_OFF: int := 0
  const GUIDELINES_ON_TOUCH: int := 1
  const GUIDELINES_ON: int := 2

  /** The defaults the image view declares and the overlay starts from. */
  const DEFAULT_GUIDELINES: int := 1
  const DEFAULT_FIXED_ASPECT_RATIO: bool := true
  const DEFAULT_ASPECT_RATIO_X: int := 1
  const DEFAULT_ASPECT_RATIO_Y: int := 1

  /** Whether the guidelines are drawn: only when the window is at least the limit long on both axes. */
  function ShowGuidelines(w: Window): (show: bool)
    ensures show ==> w.Width() >= DEFAULT_SHOW_GUIDELINES_LIMIT || w.Width() <= -DEFAULT_SHOW_GUIDELINES_LIMIT
    ensures show ==> w.Height() >= DEFAULT_SHOW_GUIDELINES_LIMIT || w.Height() <= -DEFAULT_SHOW_GUIDELINES_LIMIT
    ensures !show ==> Abs(w.Width()) < DEFAULT_SHOW_GUIDELINES_LIMIT || Abs(w.Height()) < DEFAULT_SHOW_GUIDELINES_LIMIT
  {
    if Abs(w.left - w.right) < DEFAULT_SHOW_GUIDELINES_LIMIT || Abs(w.top - w.bottom) < DEFAULT_SHOW_GUIDELINES_LIMIT then false
    else true
  }

  /** The centre zone wins over the side zones exactly when the guidelines are hidden. */
  function FocusCenter(w: Window): (focus: bool)
    ensures focus <==> Abs(w.Width()) < DEFAULT_SHOW_GUIDELINES_LIMIT || Abs(w.Height()) < DEFAULT_SHOW_GUIDELINES_LIMIT
  {
    !ShowGuidelines(w)
  }

  /**
   * What the guideline threshold decides in the hit test: a touch inside
   * the window that lies in a side's zone but in no corner's presses the
   * centre exactly when the guidelines are hidden, and a side otherwise.
   */
  lemma GuidelinesDecideCenterPriority(x: real, y: real, w: Window, targetRadius: real)
    requires w.left < x < w.right && w.top < y < w.bottom
    requires !HandleUtil.InZone(TopLeft, x, y, w, targetRadius) && !HandleUtil.InZone(TopRight, x, y, w, targetRadius)
             && !HandleUtil.InZone(BottomLeft, x, y, w, targetRadius) && !HandleUtil.InZone(BottomRight, x, y, w, targetRadius)
    requires HandleUtil.InZone(HandleKind.Top, x, y, w, targetRadius) || HandleUtil.InZone(HandleKind.Bottom, x, y, w, targetRadius)
             || HandleUtil.InZone(HandleKind.Left, x, y, w, targetRadius) || HandleUtil.InZone(HandleKind.Right, x, y, w, targetRadius)
    ensures var pressed := HandleUtil.GetPressedHandle(x, y, w.left, w.top, w.right, w.bottom, targetRadius, FocusCenter(w));
      pressed == Some(Center) <==> !ShowGuidelines(w)
  {
    var pressed := HandleUtil.GetPressedHandle(x, y, w.left, w.top, w.right, w.bottom, targetRadius, FocusCenter(w));
    var side :| (side == HandleKind.Top || side == HandleKind.Bottom || side == HandleKind.Left || side == HandleKind.Right)
                && HandleUtil.InZone(side, x, y, w, targetRadius);
    assert HandleUtil.InZone(Center, x, y, w, targetRadius);
    if ShowGuidelines(w) {
      assert HandleUtil.Precedence(side, false) < HandleUtil.Precedence(Center, false);
    }
  }

  /** The initial crop window and the aspect ratio in force afterwards. */
  datatype CropInit = CropInit(window: Window, targetAspectRatio: real)

  /**
   * The initial window as written: with a fixed ratio, the window spans the
   * bitmap's full height (when the bitmap is wider than the ratio) or full
   * width, centred in the view, and is at least the minimum length on the
   * other axis; when that minimum applies, the ratio is replaced by the
   * window's own. The division by a zero bitmap side is `None`, standing
   * for a non-finite float. Without a fixed ratio the window is the bitmap
   * inset by a tenth on every side.
   */
  function InitialWindowAsWritten(rect: Rect, fixAspectRatio: bool, target: real, viewWidth: int, viewHeight: int): (r: (Window, Option<real>))
    requires target > 0.0
    ensures r.1.Some? && r.1.value != target ==> fixAspectRatio
  {
    if fixAspectRatio then
      if RectRatioExceeds(rect, target) then
        var top := rect.top as real;
        var bottom := rect.bottom as real;
        var centerX := viewWidth as real / 2.0;
        var cropWidth := Max(MIN_CROP_LENGTH_PX, CalculateWidth(top, bottom, target));
        var newTarget := if cropWidth == MIN_CROP_LENGTH_PX then
                           (if bottom - top == 0.0 then None else Some(MIN_CROP_LENGTH_PX / (bottom - top)))
                         else Some(target);
        var halfCropWidth := cropWidth / 2.0;
        (Window(centerX - halfCropWidth, top, centerX + halfCropWidth, bottom), newTarget)
      else
        var left := rect.left as real;
        var right := rect.right as real;
        var centerY := viewHeight as real / 2.0;
        var cropHeight := Max(MIN_CROP_LENGTH_PX, CalculateHeight(left, right, target));
        var newTarget := if cropHeight == MIN_CROP_LENGTH_PX then Some((right - left) / MIN_CROP_LENGTH_PX) else Some(target);
        var halfCropHeight := cropHeight / 2.0;
        (Window(left, centerY - halfCropHeight, right, centerY + halfCropHeight), newTarget)
    else
      var horizontalPadding := 0.1 * rect.Width() as real;
      var verticalPadding := 0.1 * rect.Height() as real;
      (Window(rect.left as real + horizontalPadding, rect.top as real + verticalPadding,
              rect.right as real - horizontalPadding, rect.bottom as real - verticalPadding), Some(target))
  }

  /**
   * With the default fixed 1:1 ratio, an empty bitmap rectangle (what the
   * image view passes before it has a bitmap) turns the target ratio into
   * zero.
   */
  lemma InitCropWindowZeroesRatioOnEmptyRect(viewWidth: int, viewHeight: int)
    ensures InitialWindowAsWritten(EMPTY_RECT, true, 1.0, viewWidth, viewHeight).1 == Some(0.0)
  {
    assert !RectRatioExceeds(EMPTY_RECT, 1.0);
    assert CalculateHeight(0.0, 0.0, 1.0) == 0.0;
  }

  /** A bitmap that is 40 pixels wide and 0 high turns the target ratio non-finite. */
  lemma InitCropWindowDividesByZeroHeight(viewWidth: int, viewHeight: int)
    ensures InitialWindowAsWritten(Rect(0, 0, 40, 0), true, 1.0, viewWidth, viewHeight).1 == None
  {
    assert RectRatioExceeds(Rect(0, 0, 40, 0), 1.0);
    assert CalculateWidth(0.0, 0.0, 1.0) == 0.0;
  }

  /**
   * The fixed-ratio window on a bitmap wider than the ratio: full bitmap
   * height, centred horizontally in the view, at least the minimum width;
   * the ratio is replaced by the window's own only when the minimum applies
   * and the bitmap height is positive.
   */
  function WideWindow(rect: Rect, target: real, viewWidth: int): (r: CropInit)
    requires target > 0.0
    ensures r.targetAspectRatio > 0.0
    ensures r.window.top == rect.top as real && r.window.bottom == rect.bottom as real
    ensures r.window.Width() == Max(MIN_CROP_LENGTH_PX, target * rect.Height() as real)
    ensures r.window.left + r.window.right == viewWidth as real
    ensures rect.Height() > 0 ==> HasRatio(r.window, r.targetAspectRatio)
    ensures r.targetAspectRatio != target ==> r.window.Width() == MIN_CROP_LENGTH_PX
    ensures target * rect.Height() as real >= MIN_CROP_LENGTH_PX ==> r.targetAspectRatio == target
  {
    var top := rect.top as real;
    var bottom := rect.bottom as real;
    var centerX := viewWidth as real / 2.0;
    var cropWidth := Max(MIN_CROP_LENGTH_PX, CalculateWidth(top, bottom, target));
    var newTarget := if cropWidth == MIN_CROP_LENGTH_PX && bottom - top > 0.0 then MIN_CROP_LENGTH_PX / (bottom - top) else target;
    var halfCropWidth := cropWidth / 2.0;
    var w := Window(centerX - halfCropWidth, top, centerX + halfCropWidth, bottom);
    assert w.Width() == cropWidth;
    assert bottom - top > 0.0 ==> HasRatio(w, newTarget) by {
      if bottom - top > 0.0 && cropWidth == MIN_CROP_LENGTH_PX {
        assert newTarget * (bottom - top) == MIN_CROP_LENGTH_PX;
      }
    }
    CropInit(w, newTarget)
  }

  /**
   * The fixed-ratio window on a bitmap not wider than the ratio: full
   * bitmap width, centred vertically in the view, at least the minimum
   * height; the ratio is replaced by the window's own only when the minimum
   * applies and the bitmap width is positive.
   */
  function TallWindow(rect: Rect, target: real, viewHeight: int): (r: CropInit)
    requires target > 0.0
    ensures r.targetAspectRatio > 0.0
    ensures r.window.left == rect.left as real && r.window.right == rect.right as real
    ensures r.window.Height() == Max(MIN_CROP_LENGTH_PX, rect.Width() as real / target)
    ensures r.window.top + r.window.bottom == viewHeight as real
    ensures rect.Width() > 0 ==> HasRatio(r.window, r.targetAspectRatio)
    ensures r.targetAspectRatio != target ==> r.window.Height() == MIN_CROP_LENGTH_PX
    ensures rect.Width() as real / target >= MIN_CROP_LENGTH_PX ==> r.targetAspectRatio == target
  {
    var left := rect.left as real;
    var right := rect.right as real;
    var centerY := viewHeight as real / 2.0;
    var cropHeight := Max(MIN_CROP_LENGTH_PX, CalculateHeight(left, right, target));
    var newTarget := if cropHeight == MIN_CROP_LENGTH_PX && right - left > 0.0 then (right - left) / MIN_CROP_LENGTH_PX else target;
    var halfCropHeight := cropHeight / 2.0;
    var w := Window(left, centerY - halfCropHeight, right, centerY + halfCropHeight);
    assert w.Height() == cropHeight;
    assert right - left > 0.0 ==> HasRatio(w, newTarget) by {
      if right - left > 0.0 && cropHeight != MIN_CROP_LENGTH_PX {
        assert cropHeight == CalculateHeight(left, right, target);
      }
    }
    CropInit(w, newTarget)
  }

  /** The free window: the bitmap inset by a tenth of its width and height on each side. */
  function PaddedWindow(rect: Rect): (w: Window)
    ensures w.left + w.right == (rect.left + rect.right) as real
    ensures w.top + w.bottom == (rect.top + rect.bottom) as real
    ensures w.Width() == 0.8 * rect.Width() as real && w.Height() == 0.8 * rect.Height() as real
    ensures rect.Width() >= 0 && rect.Height() >= 0 ==> Within(w, rect)
  {
    var horizontalPadding := 0.1 * rect.Width() as real;
    var verticalPadding := 0.1 * rect.Height() as real;
    Window(rect.left as real + horizontalPadding, rect.top as real + verticalPadding,
           rect.right as real - horizontalPadding, rect.bottom as real - verticalPadding)
  }

  /**
   * The initial window with the ratio replaced only when the bitmap side it
   * is computed from is positive, so that the target ratio stays positive.
   */
  function InitialWindow(rect: Rect, fixAspectRatio: bool, target: real, viewWidth: int, viewHeight: int): (r: CropInit)
    requires target > 0.0
    ensures r.targetAspectRatio > 0.0
    ensures !fixAspectRatio ==> r.targetAspectRatio == target
  {
    if !fixAspectRatio then CropInit(PaddedWindow(rect), target)
    else if RectRatioExceeds(rect, target) then WideWindow(rect, target, viewWidth)
    else TallWindow(rect, target, viewHeight)
  }

  /** On a bitmap with positive width and height the corrected initial window is the one written. */
  lemma InitialWindowAgreesOnRealBitmaps(rect: Rect, fixAspectRatio: bool, target: real, viewWidth: int, viewHeight: int)
    requires target > 0.0 && rect.Width() > 0 && rect.Height() > 0
    ensures var r := InitialWindow(rect, fixAspectRatio, target, viewWidth, viewHeight);
      InitialWindowAsWritten(rect, fixAspectRatio, target, viewWidth, viewHeight) == (r.window, Some(r.targetAspectRatio))
  {
  }

  /** The window after handle `k` is dragged to (x, y) holding `ratio`. */
  function FixedDrag(w: Window, k: HandleKind, x: real, y: real, ratio: real, rect: Rect, snap: real): Window
    requires ratio > 0.0
  {
    var b := HandleManagers.Binding(k);
    HandleHelpers.FixedUpdate(w, b.kind, b.horizontal, b.vertical, x, y, ratio, rect, snap)
  }

  /**
   * The window after handle `k` is dragged to (x, y) freely. The order in
   * which the helper moves its edges does not matter
   * (`HandleHelpers.FreeUpdateIgnoresPairOrder`), so the drag is stated
   * with the pair in its initial order.
   */
  function FreeDrag(w: Window, k: HandleKind, x: real, y: real, rect: Rect, snap: real): Window
  {
    var b := HandleManagers.Binding(k);
    HandleHelpers.FreeUpdate(w, b.kind, EdgePair(b.horizontal, b.vertical), x, y, rect, snap)
  }

  /** The overlay's settings and touch state, all fields but the shared edges and handles. */
  datatype OverlayState = OverlayState(
    viewWidth: int, viewHeight: int, bitmapRect: Option<Rect>, initializedCropWindow: bool,
    fixAspectRatio: bool, guidelines: int, aspectRatioX: int, aspectRatioY: int, targetAspectRatio: real,
    pressedHandle: Option<HandleKind>, touchOffset: Option<(real, real)>)

  /** The overlay's settings and touch state together with its crop window. */
  datatype Overlay = Overlay(state: OverlayState, window: Window)

  /**
   * What every operation keeps: a known guideline mode, positive ratio
   * terms and target, and an offset whenever a handle is pressed.
   */
  predicate SettingsOk(s: OverlayState)
  {
    GUIDELINES_OFF <= s.guidelines <= GUIDELINES_ON
    && s.aspectRatioX > 0 && s.aspectRatioY > 0 && s.targetAspectRatio > 0.0
    && (s.pressedHandle.Some? ==> s.touchOffset.Some?)
  }

  /**
   * The initial placement: the overlay is marked initialised and, once it
   * has a bitmap rectangle, takes `InitialWindow`'s window and target
   * ratio; every other setting is kept.
   */
  function Place(o: Overlay): (p: Overlay)
    requires SettingsOk(o.state)
    ensures SettingsOk(p.state) && p.state.initializedCropWindow
    ensures p.state == o.state.(initializedCropWindow := true, targetAspectRatio := p.state.targetAspectRatio)
    ensures o.state.bitmapRect.None? ==> p.window == o.window && p.state.targetAspectRatio == o.state.targetAspectRatio
    ensures !o.state.fixAspectRatio ==> p.state.targetAspectRatio == o.state.targetAspectRatio
  {
    var s := o.state.(initializedCropWindow := true);
    if s.bitmapRect.None? then Overlay(s, o.window)
    else
      var r := InitialWindow(s.bitmapRect.value, s.fixAspectRatio, s.targetAspectRatio, s.viewWidth, s.viewHeight);
      Overlay(s.(targetAspectRatio := r.targetAspectRatio), r.window)
  }

  /**
   * On a bitmap with positive sides the placed window has the target
   * ratio in force afterwards when the ratio is fixed, and lies inside the
   * bitmap when it is free.
   */
  lemma PlacedWindowFitsSettings(o: Overlay)
    requires SettingsOk(o.state) && o.state.bitmapRect.Some?
    requires o.state.bitmapRect.value.Width() > 0 && o.state.bitmapRect.value.Height() > 0
    ensures var p := Place(o);
      (o.state.fixAspectRatio ==> HasRatio(p.window, p.state.targetAspectRatio))
      && (!o.state.fixAspectRatio ==> Within(p.window, o.state.bitmapRect.value))
  {
  }

  /** The placement re-run, once there has been one: what a change of setting does to the window. */
  function Reset(o: Overlay): (p: Overlay)
    requires SettingsOk(o.state)
    ensures SettingsOk(p.state)
    ensures p.state == o.state.(targetAspectRatio := p.state.targetAspectRatio)
    ensures !o.state.initializedCropWindow ==> p == o
  {
    if o.state.initializedCropWindow then Place(o) else o
  }

  /** The overlay is told the rectangle the bitmap occupies, and the window is placed on it. */
  function WithBitmapRect(o: Overlay, rect: Option<Rect>): (p: Overlay)
    requires SettingsOk(o.state)
    ensures SettingsOk(p.state) && p.state.bitmapRect == rect && p.state.initializedCropWindow
    ensures p.state.viewWidth == o.state.viewWidth && p.state.viewHeight == o.state.viewHeight
  {
    Place(o.(state := o.state.(bitmapRect := rect)))
  }

  /** The view is resized, and the window is placed again. */
  function WithViewSize(o: Overlay, width: int, height: int): (p: Overlay)
    requires SettingsOk(o.state)
    ensures SettingsOk(p.state) && p.state.initializedCropWindow
    ensures p.state.viewWidth == width && p.state.viewHeight == height && p.state.bitmapRect == o.state.bitmapRect
  {
    Place(o.(state := o.state.(viewWidth := width, viewHeight := height)))
  }

  /** A guideline mode outside 0..2 is rejected; an accepted one is stored and the window re-placed. */
  function WithGuidelines(o: Overlay, value: int): (p: Overlay)
    requires SettingsOk(o.state)
    ensures SettingsOk(p.state)
    ensures GUIDELINES_OFF <= value <= GUIDELINES_ON ==> p.state.guidelines == value
    ensures !(GUIDELINES_OFF <= value <= GUIDELINES_ON) ==> p == o
  {
    if value < GUIDELINES_OFF || value > GUIDELINES_ON then o
    else Reset(o.(state := o.state.(guidelines := value)))
  }

  /** The ratio is fixed or freed, and the window re-placed. */
  function WithFixedAspectRatio(o: Overlay, fix: bool): (p: Overlay)
    requires SettingsOk(o.state)
    ensures SettingsOk(p.state) && p.state.fixAspectRatio == fix
    ensures !fix ==> p.state.targetAspectRatio == o.state.targetAspectRatio
  {
    Reset(o.(state := o.state.(fixAspectRatio := fix)))
  }

  /**
   * A ratio X term that is not positive is rejected; an accepted one is
   * stored, the target becomes X/Y and the window is re-placed, which may
   * replace the target again only when the ratio is fixed.
   */
  function WithAspectRatioX(o: Overlay, x: int): (p: Overlay)
    requires SettingsOk(o.state)
    ensures SettingsOk(p.state)
    ensures x <= 0 ==> p == o
    ensures x > 0 ==> p.state.aspectRatioX == x && p.state.aspectRatioY == o.state.aspectRatioY
    ensures x > 0 && (!o.state.fixAspectRatio || !o.state.initializedCropWindow || o.state.bitmapRect.None?) ==>
      p.state.targetAspectRatio == x as real / o.state.aspectRatioY as real
  {
    if x <= 0 then o
    else Reset(o.(state := o.state.(aspectRatioX := x, targetAspectRatio := x as real / o.state.aspectRatioY as real)))
  }

  /** The Y term, as `WithAspectRatioX`. */
  function WithAspectRatioY(o: Overlay, y: int): (p: Overlay)
    requires SettingsOk(o.state)
    ensures SettingsOk(p.state)
    ensures y <= 0 ==> p == o
    ensures y > 0 ==> p.state.aspectRatioY == y && p.state.aspectRatioX == o.state.aspectRatioX
    ensures y > 0 && (!o.state.fixAspectRatio || !o.state.initializedCropWindow || o.state.bitmapRect.None?) ==>
      p.state.targetAspectRatio == o.state.aspectRatioX as real / y as real
  {
    if y <= 0 then o
    else Reset(o.(state := o.state.(aspectRatioY := y, targetAspectRatio := o.state.aspectRatioX as real / y as real)))
  }

  /**
   * A touch goes down at (x, y): the handle under it is pressed, and the
   * touch point plus the remembered offset is the point that handle tracks.
   */
  function Pressed(o: Overlay, x: real, y: real, handleRadius: real): (p: Overlay)
    requires SettingsOk(o.state)
    ensures SettingsOk(p.state) && p.window == o.window
    ensures var w := o.window;
      p.state.pressedHandle == HandleUtil.GetPressedHandle(x, y, w.left, w.top, w.right, w.bottom, handleRadius, FocusCenter(w))
    ensures p.state.pressedHandle.None? ==> p.state == o.state.(pressedHandle := None)
    ensures p.state.pressedHandle.Some? ==>
      var k := p.state.pressedHandle.value;
      (HandleUtil.AnchorX(k, o.window).Some? ==> x + p.state.touchOffset.value.0 == HandleUtil.AnchorX(k, o.window).value)
      && (HandleUtil.AnchorY(k, o.window).Some? ==> y + p.state.touchOffset.value.1 == HandleUtil.AnchorY(k, o.window).value)
  {
    var w := o.window;
    var pressed := HandleUtil.GetPressedHandle(x, y, w.left, w.top, w.right, w.bottom, handleRadius, FocusCenter(w));
    if pressed.None? then o.(state := o.state.(pressedHandle := None))
    else o.(state := o.state.(pressedHandle := pressed,
                              touchOffset := HandleUtil.GetOffset(pressed, x, y, w.left, w.top, w.right, w.bottom)))
  }

  /** The touch is lifted or cancelled: no handle stays pressed and the window stays. */
  function Released(o: Overlay): (p: Overlay)
    requires SettingsOk(o.state)
    ensures SettingsOk(p.state) && p.window == o.window && p.state.pressedHandle.None?
  {
    o.(state := o.state.(pressedHandle := None))
  }

  /** The touch point shifted by the remembered offset: the point the pressed handle is dragged to. */
  function Shifted(x: real, y: real, offset: (real, real)): (real, real)
  {
    (x + offset.0, y + offset.1)
  }

  /** Handle `k` dragged to (x, y) under the settings `s`: holding the target ratio when it is fixed, freely otherwise. */
  function DragTo(w: Window, s: OverlayState, k: HandleKind, x: real, y: real, snap: real): Window
    requires SettingsOk(s) && s.bitmapRect.Some?
  {
    if s.fixAspectRatio then FixedDrag(w, k, x, y, s.targetAspectRatio, s.bitmapRect.value, snap)
    else FreeDrag(w, k, x, y, s.bitmapRect.value, snap)
  }

  /**
   * A corner or side drag that holds the ratio leaves the window at the
   * target ratio, and a centre drag, fixed or free, keeps the window's size.
   */
  lemma DragToKeepsShape(w: Window, s: OverlayState, k: HandleKind, x: real, y: real, snap: real)
    requires SettingsOk(s) && s.bitmapRect.Some?
    ensures s.fixAspectRatio && k != Center ==> HasRatio(DragTo(w, s, k, x, y, snap), s.targetAspectRatio)
    ensures k == Center ==> DragTo(w, s, k, x, y, snap).Width() == w.Width() && DragTo(w, s, k, x, y, snap).Height() == w.Height()
  {
    var b := HandleManagers.Binding(k);
    if s.fixAspectRatio {
      HandleHelpers.FixedUpdateKeepsRatio(w, b.kind, b.horizontal, b.vertical, x, y, s.targetAspectRatio, s.bitmapRect.value, snap);
    }
  }

  datatype MotionAction = Down | Up | Cancel | Move | OtherAction

  class CropOverlayView {
    const edges: EdgeManager
    const handles: HandleManagers.HandleManager
    const handleRadius: real
    const snapRadius: real

    var viewWidth: int
    var viewHeight: int
    var bitmapRect: Option<Rect>
    var initializedCropWindow: bool
    var fixAspectRatio: bool
    var guidelines: int
    var aspectRatioX: int
    var aspectRatioY: int
    var targetAspectRatio: real
    var pressedHandle: Option<HandleKind>
    var touchOffset: Option<(real, real)>

    function State(): OverlayState
      reads this
    {
      OverlayState(viewWidth, viewHeight, bitmapRect, initializedCropWindow, fixAspectRatio, guidelines,
                   aspectRatioX, aspectRatioY, targetAspectRatio, pressedHandle, touchOffset)
    }

    /** The settings and touch state with the crop window. */
    function Whole(): Overlay
      reads this, edges.Edges()
    {
      Overlay(State(), edges.Snapshot())
    }

    ghost predicate Valid()
      reads this
    {
      handles.Valid() && handles.edges == edges && SettingsOk(State())
    }

    /** The active pair of handle `k`'s helper. */
    function PairOf(k: HandleKind): EdgePair
      reads handles.Get(k).helper
    {
      handles.Get(k).helper.GetActiveEdges()
    }

    /** The overlay as built from layout attributes, with the radii already converted to pixels. */
    constructor (handleRadius: real, snapRadius: real)
      ensures Valid()
      ensures this.handleRadius == handleRadius && this.snapRadius == snapRadius
      ensures State() == OverlayState(0, 0, None, false, DEFAULT_FIXED_ASPECT_RATIO, DEFAULT_GUIDELINES,
                                      DEFAULT_ASPECT_RATIO_X, DEFAULT_ASPECT_RATIO_Y, 1.0, None, None)
      ensures edges.Snapshot() == Window(0.0, 0.0, 0.0, 0.0)
      ensures forall k :: PairOf(k) == EdgePair(HandleManagers.Binding(k).horizontal, HandleManagers.Binding(k).vertical)
    {
      var e := new EdgeManager();
      edges := e;
      handles := new HandleManagers.HandleManager(e);
      this.handleRadius := handleRadius;
      this.snapRadius := snapRadius;
      viewWidth, viewHeight := 0, 0;
      bitmapRect := None;
      initializedCropWindow := false;
      fixAspectRatio := DEFAULT_FIXED_ASPECT_RATIO;
      guidelines := DEFAULT_GUIDELINES;
      aspectRatioX, aspectRatioY := DEFAULT_ASPECT_RATIO_X, DEFAULT_ASPECT_RATIO_Y;
      targetAspectRatio := DEFAULT_ASPECT_RATIO_X as real / DEFAULT_ASPECT_RATIO_Y as real;
      pressedHandle, touchOffset := None, None;
    }

    /**
     * Places the initial crop window on the bitmap rectangle. With no
     * rectangle yet, the window is left as it is: the source fails part-way
     * on the missing rectangle and swallows the error.
     */
    method InitCropWindow()
      requires Valid()
      modifies this, edges.Edges()
      ensures Valid() && Whole() == Place(old(Whole()))
    {
      initializedCropWindow := true;
      if bitmapRect.Some? {
        var r := InitialWindow(bitmapRect.value, fixAspectRatio, targetAspectRatio, viewWidth, viewHeight);
        edges.left.coordinate := r.window.left;
        edges.top.coordinate := r.window.top;
        edges.right.coordinate := r.window.right;
        edges.bottom.coordinate := r.window.bottom;
        targetAspectRatio := r.targetAspectRatio;
      }
    }

    method OnSizeChanged(width: int, height: int)
      requires Valid()
      modifies this, edges.Edges()
      ensures Valid() && Whole() == WithViewSize(old(Whole()), width, height)
    {
      viewWidth, viewHeight := width, height;
      InitCropWindow();
    }

    method SetBitmapRect(rect: Option<Rect>)
      requires Valid()
      modifies this, edges.Edges()
      ensures Valid() && Whole() == WithBitmapRect(old(Whole()), rect)
    {
      bitmapRect := rect;
      InitCropWindow();
    }

    /** Re-runs the initial placement, once there has been one. */
    method ResetCropOverlayView()
      requires Valid()
      modifies this, edges.Edges()
      ensures Valid() && Whole() == Reset(old(Whole()))
    {
      if initializedCropWindow {
        InitCropWindow();
      }
    }

    /** Sets the guideline mode; a value outside 0..2 is rejected and changes nothing. */
    method SetGuidelines(value: int)
      requires Valid()
      modifies this, edges.Edges()
      ensures Valid() && Whole() == WithGuidelines(old(Whole()), value)
    {
      if value < GUIDELINES_OFF || value > GUIDELINES_ON {
        return;
      }
      guidelines := value;
      ResetCropOverlayView();
    }

    method SetFixedAspectRatio(fix: bool)
      requires Valid()
      modifies this, edges.Edges()
      ensures Valid() && Whole() == WithFixedAspectRatio(old(Whole()), fix)
    {
      fixAspectRatio := fix;
      ResetCropOverlayView();
    }

    /** Sets the X term of the ratio; a value that is not positive is rejected and changes nothing. */
    method SetAspectRatioX(x: int)
      requires Valid()
      modifies this, edges.Edges()
      ensures Valid() && Whole() == WithAspectRatioX(old(Whole()), x)
    {
      if x <= 0 {
        return;
      }
      aspectRatioX := x;
      targetAspectRatio := aspectRatioX as real / aspectRatioY as real;
      ResetCropOverlayView();
    }

    /** Sets the Y term of the ratio; a value that is not positive is rejected and changes nothing. */
    method SetAspectRatioY(y: int)
      requires Valid()
      modifies this, edges.Edges()
      ensures Valid() && Whole() == WithAspectRatioY(old(Whole()), y)
    {
      if y <= 0 {
        return;
      }
      aspectRatioY := y;
      targetAspectRatio := aspectRatioX as real / aspectRatioY as real;
      ResetCropOverlayView();
    }

    /**
     * Applies the four settings in order, stopping at the first rejected
     * one: the settings before it stay applied. The window is not placed
     * again.
     */
    method SetInitialAttributeValues(guidelineMode: int, fix: bool, x: int, y: int)
      requires Valid()
      modifies this
      ensures Valid()
      ensures guidelineMode < GUIDELINES_OFF || guidelineMode > GUIDELINES_ON ==> State() == old(State())
      ensures GUIDELINES_OFF <= guidelineMode <= GUIDELINES_ON && x <= 0 ==>
        State() == old(State()).(guidelines := guidelineMode, fixAspectRatio := fix)
      ensures GUIDELINES_OFF <= guidelineMode <= GUIDELINES_ON && x > 0 && y <= 0 ==>
        State() == old(State()).(guidelines := guidelineMode, fixAspectRatio := fix, aspectRatioX := x,
                                 targetAspectRatio := x as real / old(aspectRatioY) as real)
      ensures GUIDELINES_OFF <= guidelineMode <= GUIDELINES_ON && x > 0 && y > 0 ==>
        State() == old(State()).(guidelines := guidelineMode, fixAspectRatio := fix, aspectRatioX := x,
                                 aspectRatioY := y, targetAspectRatio := x as real / y as real)
    {
      if guidelineMode < GUIDELINES_OFF || guidelineMode > GUIDELINES_ON {
        return;
      }
      guidelines := guidelineMode;
      fixAspectRatio := fix;
      if x <= 0 {
        return;
      }
      aspectRatioX := x;
      targetAspectRatio := aspectRatioX as real / aspectRatioY as real;
      if y <= 0 {
        return;
      }
      aspectRatioY := y;
      targetAspectRatio := aspectRatioX as real / aspectRatioY as real;
    }

    /** A touch goes down: remember the pressed handle and the offset to its tracked point. */
    method OnActionDown(x: real, y: real)
      requires Valid()
      modifies this
      ensures Valid() && Whole() == Pressed(old(Whole()), x, y, handleRadius)
    {
      var left := edges.left.coordinate;
      var top := edges.top.coordinate;
      var right := edges.right.coordinate;
      var bottom := edges.bottom.coordinate;
      pressedHandle := HandleUtil.GetPressedHandle(x, y, left, top, right, bottom, handleRadius, FocusCenter(edges.Snapshot()));
      if pressedHandle.None? {
        return;
      }
      touchOffset := HandleUtil.GetOffset(pressedHandle, x, y, left, top, right, bottom);
    }

    /** The touch is lifted or cancelled: no handle is pressed any more. */
    method OnActionUp()
      requires Valid()
      modifies this
      ensures Valid() && Whole() == Released(old(Whole()))
    {
      if pressedHandle.None? {
        return;
      }
      pressedHandle := None;
    }

    /**
     * The touch moves: the pressed handle is dragged to the touch point
     * shifted by the remembered offset, by `DragKeepingRatio` when the
     * ratio is fixed and by `Drag` otherwise. Of the helpers, only the
     * pressed handle's may change.
     */
    method OnActionMove(x: real, y: real)
      requires Valid()
      requires pressedHandle.Some? ==> bitmapRect.Some?
      modifies (if pressedHandle.Some? then {handles.Get(pressedHandle.value).helper} else {}), edges.Edges()
      ensures Valid() && State() == old(State())
      ensures old(pressedHandle).None? ==> edges.Snapshot() == old(edges.Snapshot())
      ensures old(pressedHandle).Some? ==>
        var p := Shifted(x, y, old(touchOffset).value);
        edges.Snapshot() == DragTo(old(edges.Snapshot()), old(State()), old(pressedHandle).value, p.0, p.1, snapRadius)
    {
      if pressedHandle.None? {
        return;
      }
      var p := Shifted(x, y, touchOffset.value);
      DragPressed(pressedHandle.value, p.0, p.1);
    }

    /** Handle `k` dragged to (x, y), by `DragKeepingRatio` when the ratio is fixed and by `Drag` otherwise. */
    method DragPressed(k: HandleKind, x: real, y: real)
      requires Valid() && bitmapRect.Some?
      modifies handles.Get(k).helper, edges.Edges()
      ensures Valid()
      ensures edges.Snapshot() == old(DragTo(edges.Snapshot(), State(), k, x, y, snapRadius))
    {
      if fixAspectRatio {
        DragKeepingRatio(k, x, y);
      } else {
        Drag(k, x, y);
      }
    }

    /**
     * Handle `k` dragged to (x, y) with the target ratio held. Of the
     * helpers, only `k`'s may change, and only a corner helper does: its
     * pair takes the order its drag chose.
     */
    method DragKeepingRatio(k: HandleKind, x: real, y: real)
      requires Valid() && bitmapRect.Some?
      modifies handles.Get(k).helper, edges.Edges()
      ensures Valid()
      ensures edges.Snapshot() == old(FixedDrag(edges.Snapshot(), k, x, y, targetAspectRatio, bitmapRect.value, snapRadius))
      ensures k != Center ==> HasRatio(edges.Snapshot(), old(targetAspectRatio))
      ensures HandleManagers.Binding(k).kind != HandleHelpers.Corner ==> PairOf(k) == old(PairOf(k))
      ensures HandleManagers.Binding(k).kind == HandleHelpers.Corner ==>
        PairOf(k) == HandleHelpers.ActiveEdgesFor(old(edges.Snapshot()), HandleManagers.Binding(k).horizontal,
                                                  HandleManagers.Binding(k).vertical, x, y, old(targetAspectRatio))
    {
      var handle := handles.Get(k);
      assert handles.HandleOk(k);
      var helper := handle.helper;
      ghost var before := edges.Snapshot();
      handle.UpdateCropWindowKeepingRatio(x, y, targetAspectRatio, bitmapRect.value, snapRadius);
      HandleHelpers.FixedUpdateKeepsRatio(before, helper.kind, helper.horizontalEdge, helper.verticalEdge,
                                          x, y, targetAspectRatio, bitmapRect.value, snapRadius);
    }

    /** Handle `k` dragged to (x, y) with no ratio held; no helper's pair changes. */
    method Drag(k: HandleKind, x: real, y: real)
      requires Valid() && bitmapRect.Some?
      modifies edges.Edges()
      ensures Valid()
      ensures edges.Snapshot() == old(FreeDrag(edges.Snapshot(), k, x, y, bitmapRect.value, snapRadius))
    {
      var handle := handles.Get(k);
      assert handles.HandleOk(k);
      var helper := handle.helper;
      ghost var before := edges.Snapshot();
      handle.UpdateCropWindow(x, y, bitmapRect.value, snapRadius);
      HandleHelpers.FreeUpdateIgnoresPairOrder(before, helper.kind, helper.horizontalEdge, helper.verticalEdge,
                                               helper.GetActiveEdges(), x, y, bitmapRect.value, snapRadius);
    }

    /**
     * Dispatches a touch event and returns whether it was handled: down
     * presses a handle, up and cancel release it, move drags it; a disabled
     * view or another action changes nothing.
     */
    method OnTouchEvent(action: MotionAction, x: real, y: real, enabled: bool) returns (handled: bool)
      requires Valid()
      requires action == Move && pressedHandle.Some? ==> bitmapRect.Some?
      modifies this, edges.Edges()
      modifies if action == Move && pressedHandle.Some? then {handles.Get(pressedHandle.value).helper} else {}
      ensures Valid()
      ensures handled <==> enabled && action != OtherAction
      ensures !enabled ==> Whole() == old(Whole())
      ensures enabled && action == Down ==> Whole() == Pressed(old(Whole()), x, y, handleRadius)
      ensures enabled && (action == Up || action == Cancel) ==> Whole() == Released(old(Whole()))
      ensures enabled && action == Move ==> State() == old(State())
      ensures enabled && action == Move && old(pressedHandle).None? ==> edges.Snapshot() == old(edges.Snapshot())
      ensures enabled && action == Move && old(pressedHandle).Some? ==>
        var p := Shifted(x, y, old(touchOffset).value);
        edges.Snapshot() == DragTo(old(edges.Snapshot()), old(State()), old(pressedHandle).value, p.0, p.1, snapRadius)
      ensures enabled && action == OtherAction ==> Whole() == old(Whole())
    {
      if !enabled {
        return false;
      }
      match action {
        case Down =>
          OnActionDown(x, y);
          return true;
        case Up =>
          OnActionUp();
          return true;
        case Cancel =>
          OnActionUp();
          return true;
        case Move =>
          OnActionMove(x, y);
          return true;
        case OtherAction =>
          return false;
      }
    }
  }
}
