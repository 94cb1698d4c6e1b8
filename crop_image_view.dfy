/**
 * CropImageView: the widget that shows the bitmap with the crop overlay on
 * top. Modelled here: how it sizes itself, where it tells the overlay the
 * bitmap lies, how the crop window maps back onto the bitmap's own pixels,
 * the forwarding of the crop settings, and the rotation counter.
 */
module CropImage {
  import opened Numerics
  import opened Geometry
  import opened Edges
  import opened ImageViewUtil
  import opened CropOverlay

  /** The bitmap's pixel size; a bitmap always has positive width and height. */
  datatype Bitmap = Bitmap(width: int, height: int)

  predicate BitmapOk(b: Bitmap)
  {
    b.width > 0 && b.height > 0
  }

  /** The mode half of an Android measure spec. */
  datatype MeasureSpecMode = Unspecified | Exactly | AtMost

  /**
   * The size a view takes on one axis: the given size when it is exact,
   * the desired size capped by the given one when that is a maximum, the
   * desired size otherwise.
   */
  function GetOnMeasureSpec(mode: MeasureSpecMode, size: int, desired: int): (spec: int)
    ensures mode == Exactly ==> spec == size
    ensures mode == AtMost ==> spec <= size && spec <= desired && (spec == size || spec == desired)
    ensures mode == Unspecified ==> spec == desired
    ensures size >= 0 && desired >= 0 ==> spec >= 0
  {
    if mode == Exactly then size
    else if mode == AtMost then (if desired <= size then desired else size)
    else desired
  }

  /** The measured height: a height of 0 (as a scrolling parent passes) stands for the bitmap's height. */
  function EffectiveHeight(heightSize: int, bitmap: Bitmap): int
  {
    if heightSize == 0 then bitmap.height else heightSize
  }

  /**
   * The size the view would like, before truncation: the bitmap's size when
   * it fits, otherwise the bitmap scaled by the smaller of the two
   * view-to-bitmap ratios, the limiting side taking the view's size.
   */
  function DesiredExtent(widthSize: int, heightSize: int, bitmap: Bitmap): (real, real)
    requires widthSize >= 0 && heightSize >= 0 && BitmapOk(bitmap)
  {
    var height := EffectiveHeight(heightSize, bitmap);
    match FitOf(bitmap.width, bitmap.height, widthSize, height)
    case ToWidth(widthRatio) => (widthSize as real, bitmap.height as real * widthRatio)
    case ToHeight(heightRatio) => (bitmap.width as real * heightRatio, height as real)
    case Unscaled => (bitmap.width as real, bitmap.height as real)
  }

  /**
   * The desired size in whole pixels: the scaled side is truncated toward
   * zero; the other side is already whole.
   */
  function DesiredSize(widthSize: int, heightSize: int, bitmap: Bitmap): (int, int)
    requires widthSize >= 0 && heightSize >= 0 && BitmapOk(bitmap)
  {
    var extent := DesiredExtent(widthSize, heightSize, bitmap);
    (Truncate(extent.0), Truncate(extent.1))
  }

  /** Before truncation, the desired size is exactly the centre-inside size. */
  lemma DesiredExtentIsCenterInside(widthSize: int, heightSize: int, bitmap: Bitmap)
    requires widthSize >= 0 && heightSize >= 0 && BitmapOk(bitmap)
    ensures var extent := DesiredExtent(widthSize, heightSize, bitmap);
      var size := CenterInsideSize(bitmap.width, bitmap.height, widthSize, EffectiveHeight(heightSize, bitmap));
      extent.0 == size.0 && extent.1 == size.1
  {
    var height := EffectiveHeight(heightSize, bitmap);
    var fit := FitOf(bitmap.width, bitmap.height, widthSize, height);
    if fit.ToWidth? {
      ScaleByRatio(bitmap.height as real, fit.ratio, widthSize as real, bitmap.width as real);
    } else if fit.ToHeight? {
      ScaleByRatio(bitmap.width as real, fit.ratio, height as real, bitmap.height as real);
    }
  }

  lemma WholeSizeTruncates(n: int)
    ensures Truncate(n as real) == n
  {
  }

  /** The desired size never exceeds the measured size, and is the bitmap's own size when that fits. */
  lemma DesiredSizeFits(widthSize: int, heightSize: int, bitmap: Bitmap)
    requires widthSize >= 0 && heightSize >= 0 && BitmapOk(bitmap)
    ensures var d := DesiredSize(widthSize, heightSize, bitmap);
      0 <= d.0 <= widthSize && 0 <= d.1 <= EffectiveHeight(heightSize, bitmap)
      && (bitmap.width <= widthSize && bitmap.height <= EffectiveHeight(heightSize, bitmap) ==> d == (bitmap.width, bitmap.height))
  {
    var height := EffectiveHeight(heightSize, bitmap);
    var size := CenterInsideSize(bitmap.width, bitmap.height, widthSize, height);
    DesiredExtentIsCenterInside(widthSize, heightSize, bitmap);
    CenterInsideSizeFits(bitmap.width, bitmap.height, widthSize, height);
    if bitmap.width <= widthSize && bitmap.height <= height {
      WholeSizeTruncates(bitmap.width);
      WholeSizeTruncates(bitmap.height);
    } else {
      assert Truncate(size.0) as real <= size.0 <= widthSize as real;
      assert Truncate(size.1) as real <= size.1 <= height as real;
    }
  }

  /**
   * The crop window mapped onto the bitmap's pixels: its offset from the
   * displayed bitmap's origin and its size, scaled per axis by bitmap size
   * over displayed size, then clamped to the bitmap. A displayed side of
   * zero length gives `None`, standing for the non-finite scale the float
   * division would produce.
   */
  function ActualCropRect(w: Window, displayed: Rect, bitmap: Bitmap): (r: Option<RectF>)
    ensures r.None? <==> displayed.Width() == 0 || displayed.Height() == 0
    ensures r.Some? ==> 0.0 <= r.value.left && 0.0 <= r.value.top
    ensures r.Some? ==> r.value.right <= bitmap.width as real && r.value.bottom <= bitmap.height as real
  {
    if displayed.Width() == 0 || displayed.Height() == 0 then None
    else
      var scaleFactorWidth := bitmap.width as real / displayed.Width() as real;
      var scaleFactorHeight := bitmap.height as real / displayed.Height() as real;
      var displayedCropLeft := w.left - displayed.left as real;
      var displayedCropTop := w.top - displayed.top as real;
      var actualCropLeft := displayedCropLeft * scaleFactorWidth;
      var actualCropTop := displayedCropTop * scaleFactorHeight;
      var actualCropRight := actualCropLeft + w.Width() * scaleFactorWidth;
      var actualCropBottom := actualCropTop + w.Height() * scaleFactorHeight;
      Some(RectF(Max(0.0, actualCropLeft), Max(0.0, actualCropTop),
                 Min(bitmap.width as real, actualCropRight), Min(bitmap.height as real, actualCropBottom)))
  }

  /** The exact scaling of one coordinate from the displayed bitmap onto the bitmap's pixels. */
  function ToBitmap(c: real, displayedStart: int, displayedLength: int, bitmapLength: int): real
    requires displayedLength != 0
  {
    (c - displayedStart as real) * (bitmapLength as real / displayedLength as real)
  }

  /**
   * A crop window inside the displayed bitmap needs no clamping: each side
   * maps exactly onto the bitmap.
   */
  lemma ActualCropRectInsideIsExact(w: Window, displayed: Rect, bitmap: Bitmap)
    requires displayed.Width() > 0 && displayed.Height() > 0 && BitmapOk(bitmap)
    requires Within(w, displayed)
    ensures var r := ActualCropRect(w, displayed, bitmap);
      r.Some?
      && r.value.left == ToBitmap(w.left, displayed.left, displayed.Width(), bitmap.width)
      && r.value.top == ToBitmap(w.top, displayed.top, displayed.Height(), bitmap.height)
      && r.value.right == ToBitmap(w.right, displayed.left, displayed.Width(), bitmap.width)
      && r.value.bottom == ToBitmap(w.bottom, displayed.top, displayed.Height(), bitmap.height)
  {
    WindowMapsIntoBitmap(w, displayed, bitmap);
    ToBitmapAdditive(w.left, w.right, displayed.left, displayed.Width(), bitmap.width);
    ToBitmapAdditive(w.top, w.bottom, displayed.top, displayed.Height(), bitmap.height);
  }

  /**
   * A crop window inside the displayed bitmap starts at or after the
   * bitmap's origin and ends at or before its far side, on each axis.
   */
  lemma WindowMapsIntoBitmap(w: Window, displayed: Rect, bitmap: Bitmap)
    requires displayed.Width() > 0 && displayed.Height() > 0 && BitmapOk(bitmap)
    requires Within(w, displayed)
    ensures var left := ToBitmap(w.left, displayed.left, displayed.Width(), bitmap.width);
      0.0 <= left && left + w.Width() * (bitmap.width as real / displayed.Width() as real) <= bitmap.width as real
    ensures var top := ToBitmap(w.top, displayed.top, displayed.Height(), bitmap.height);
      0.0 <= top && top + w.Height() * (bitmap.height as real / displayed.Height() as real) <= bitmap.height as real
  {
    var sx := bitmap.width as real / displayed.Width() as real;
    var sy := bitmap.height as real / displayed.Height() as real;
    assert sx > 0.0 && sy > 0.0;
    var left := (w.left - displayed.left as real) * sx;
    var top := (w.top - displayed.top as real) * sy;
    var right := left + w.Width() * sx;
    var bottom := top + w.Height() * sy;
    assert right == (w.right - displayed.left as real) * sx;
    assert bottom == (w.bottom - displayed.top as real) * sy;
    assert left >= 0.0 && top >= 0.0;
    DisplayedRectMapsOntoBitmap(displayed, bitmap);
    assert right <= bitmap.width as real by {
      assert w.right - displayed.left as real <= displayed.right as real - displayed.left as real;
    }
    assert bottom <= bitmap.height as real by {
      assert w.bottom - displayed.top as real <= displayed.bottom as real - displayed.top as real;
    }
  }

  /** The displayed bitmap's own rectangle maps onto the whole bitmap. */
  lemma DisplayedRectMapsOntoBitmap(displayed: Rect, bitmap: Bitmap)
    requires displayed.Width() > 0 && displayed.Height() > 0
    ensures ToBitmap(displayed.left as real, displayed.left, displayed.Width(), bitmap.width) == 0.0
    ensures ToBitmap(displayed.right as real, displayed.left, displayed.Width(), bitmap.width) == bitmap.width as real
    ensures ToBitmap(displayed.top as real, displayed.top, displayed.Height(), bitmap.height) == 0.0
    ensures ToBitmap(displayed.bottom as real, displayed.top, displayed.Height(), bitmap.height) == bitmap.height as real
  {
    assert displayed.right as real - displayed.left as real == displayed.Width() as real;
    assert displayed.bottom as real - displayed.top as real == displayed.Height() as real;
    ScaleByRatio(displayed.Width() as real, bitmap.width as real / displayed.Width() as real,
                 bitmap.width as real, displayed.Width() as real);
    ScaleByRatio(displayed.Height() as real, bitmap.height as real / displayed.Height() as real,
                 bitmap.height as real, displayed.Height() as real);
  }

  /** The integer region cut out of the bitmap: position and size, each truncated toward zero. */
  datatype Region = Region(x: int, y: int, width: int, height: int)

  /**
   * The region the cropped image is cut from: the same scaling as
   * `ActualCropRect` without the clamp, each value truncated to an integer.
   */
  function CroppedRegion(w: Window, displayed: Rect, bitmap: Bitmap): (r: Option<Region>)
    ensures r.None? <==> displayed.Width() == 0 || displayed.Height() == 0
  {
    if displayed.Width() == 0 || displayed.Height() == 0 then None
    else
      var scaleFactorWidth := bitmap.width as real / displayed.Width() as real;
      var scaleFactorHeight := bitmap.height as real / displayed.Height() as real;
      Some(Region(Truncate(ToBitmap(w.left, displayed.left, displayed.Width(), bitmap.width)),
                  Truncate(ToBitmap(w.top, displayed.top, displayed.Height(), bitmap.height)),
                  Truncate(w.Width() * scaleFactorWidth), Truncate(w.Height() * scaleFactorHeight)))
  }

  /** Proof step: unfolds `CroppedRegion` into its four truncated values (a non-empty displayed rectangle). */
  lemma RegionFields(w: Window, displayed: Rect, bitmap: Bitmap)
    requires displayed.Width() > 0 && displayed.Height() > 0
    ensures var r := CroppedRegion(w, displayed, bitmap);
      r.Some?
      && r.value.x == Truncate(ToBitmap(w.left, displayed.left, displayed.Width(), bitmap.width))
      && r.value.y == Truncate(ToBitmap(w.top, displayed.top, displayed.Height(), bitmap.height))
      && r.value.width == Truncate(w.Width() * (bitmap.width as real / displayed.Width() as real))
      && r.value.height == Truncate(w.Height() * (bitmap.height as real / displayed.Height() as real))
  {
  }

  /**
   * For a crop window inside the displayed bitmap, the region lies inside
   * the bitmap, as the bitmap-cutting call demands, and no edge of it is
   * more than a pixel inside the exact crop rectangle.
   */
  lemma CroppedRegionWithinBitmap(w: Window, displayed: Rect, bitmap: Bitmap)
    requires displayed.Width() > 0 && displayed.Height() > 0 && BitmapOk(bitmap)
    requires Within(w, displayed) && w.Width() >= 0.0 && w.Height() >= 0.0
    ensures var r := CroppedRegion(w, displayed, bitmap).value;
      var exact := ActualCropRect(w, displayed, bitmap).value;
      0 <= r.x && 0 <= r.y && 0 <= r.width && 0 <= r.height
      && r.x + r.width <= bitmap.width && r.y + r.height <= bitmap.height
      && exact.left - 1.0 < r.x as real <= exact.left && exact.top - 1.0 < r.y as real <= exact.top
  {
    var sx := bitmap.width as real / displayed.Width() as real;
    var sy := bitmap.height as real / displayed.Height() as real;
    var left := ToBitmap(w.left, displayed.left, displayed.Width(), bitmap.width);
    var top := ToBitmap(w.top, displayed.top, displayed.Height(), bitmap.height);
    ActualCropRectInsideIsExact(w, displayed, bitmap);
    WindowMapsIntoBitmap(w, displayed, bitmap);
    assert 0.0 <= w.Width() * sx && 0.0 <= w.Height() * sy;
    TruncatedSpanWithin(left, w.Width() * sx, bitmap.width);
    TruncatedSpanWithin(top, w.Height() * sy, bitmap.height);
    RegionFields(w, displayed, bitmap);
  }

  /** Mapping onto the bitmap is additive: the far end maps to the near end plus the scaled span. */
  lemma ToBitmapAdditive(near: real, far: real, displayedStart: int, displayedLength: int, bitmapLength: int)
    requires displayedLength != 0
    ensures ToBitmap(far, displayedStart, displayedLength, bitmapLength)
         == ToBitmap(near, displayedStart, displayedLength, bitmapLength)
          + (far - near) * (bitmapLength as real / displayedLength as real)
  {
    SpanScales(near, far, displayedStart as real, bitmapLength as real / displayedLength as real);
  }

  /** Scaling an offset from `origin` is additive: the far end is the near end plus the scaled span. */
  lemma SpanScales(near: real, far: real, origin: real, scale: real)
    ensures (far - origin) * scale == (near - origin) * scale + (far - near) * scale
  {
  }

  /** Truncating the start and the length of a span inside `[0, limit]` keeps it there, and moves the start by less than one. */
  lemma TruncatedSpanWithin(start: real, length: real, limit: int)
    requires 0.0 <= start && 0.0 <= length && start + length <= limit as real
    ensures 0 <= Truncate(start) && 0 <= Truncate(length)
    ensures Truncate(start) + Truncate(length) <= limit
    ensures start - 1.0 < Truncate(start) as real <= start
  {
  }

  /**
   * The size the view measures itself at with a bitmap: each axis resolves
   * its spec against the desired size. It is never larger than the size
   * offered (the bitmap's height standing in for an offered height of 0).
   */
  function MeasuredSize(widthMode: MeasureSpecMode, widthSize: int, heightMode: MeasureSpecMode, heightSize: int,
                        bitmap: Bitmap): (m: (int, int))
    requires widthSize >= 0 && heightSize >= 0 && BitmapOk(bitmap)
    ensures 0 <= m.0 <= widthSize && 0 <= m.1 <= EffectiveHeight(heightSize, bitmap)
    ensures widthMode == Exactly ==> m.0 == widthSize
    ensures heightMode == Exactly ==> m.1 == EffectiveHeight(heightSize, bitmap)
  {
    var desired := DesiredSize(widthSize, heightSize, bitmap);
    DesiredSizeFits(widthSize, heightSize, bitmap);
    (GetOnMeasureSpec(widthMode, widthSize, desired.0),
     GetOnMeasureSpec(heightMode, EffectiveHeight(heightSize, bitmap), desired.1))
  }

  /** Where the bitmap lies in a view of the given size: centred inside it, or the empty rectangle when there is none. */
  function BitmapRectIn(bitmap: Option<Bitmap>, width: int, height: int): Rect
    requires width >= 0 && height >= 0
  {
    if bitmap.Some? then GetBitmapRectCenterInside(bitmap.value.width, bitmap.value.height, width, height)
    else EMPTY_RECT
  }

  /** The view's own fields: everything but the overlay. */
  datatype ViewState = ViewState(
    bitmap: Option<Bitmap>, layoutWidth: int, layoutHeight: int, measuredWidth: int, measuredHeight: int,
    degreesRotated: int, aspectRatioX: int, aspectRatioY: int)

  class CropImageView {
    const overlay: CropOverlayView

    var bitmap: Option<Bitmap>
    var layoutWidth: int
    var layoutHeight: int
    var measuredWidth: int
    var measuredHeight: int
    var degreesRotated: int
    var aspectRatioX: int
    var aspectRatioY: int

    function State(): ViewState
      reads this
    {
      ViewState(bitmap, layoutWidth, layoutHeight, measuredWidth, measuredHeight, degreesRotated, aspectRatioX, aspectRatioY)
    }

    ghost predicate Valid()
      reads this, overlay
    {
      overlay.Valid() && (bitmap.Some? ==> BitmapOk(bitmap.value))
    }

    /** The view with its overlay configured from the defaults, and no bitmap. */
    constructor (handleRadius: real, snapRadius: real)
      ensures Valid() && overlay.handleRadius == handleRadius && overlay.snapRadius == snapRadius
      ensures State() == ViewState(None, 0, 0, 0, 0, 0, DEFAULT_ASPECT_RATIO_X, DEFAULT_ASPECT_RATIO_Y)
      ensures overlay.Whole() == Overlay(OverlayState(0, 0, None, false, DEFAULT_FIXED_ASPECT_RATIO, DEFAULT_GUIDELINES,
                                                      DEFAULT_ASPECT_RATIO_X, DEFAULT_ASPECT_RATIO_Y,
                                                      DEFAULT_ASPECT_RATIO_X as real / DEFAULT_ASPECT_RATIO_Y as real,
                                                      None, None),
                                         Window(0.0, 0.0, 0.0, 0.0))
    {
      var o := new CropOverlayView(handleRadius, snapRadius);
      o.SetInitialAttributeValues(DEFAULT_GUIDELINES, DEFAULT_FIXED_ASPECT_RATIO, DEFAULT_ASPECT_RATIO_X, DEFAULT_ASPECT_RATIO_Y);
      overlay := o;
      bitmap := None;
      layoutWidth, layoutHeight := 0, 0;
      measuredWidth, measuredHeight := 0, 0;
      degreesRotated := 0;
      aspectRatioX, aspectRatioY := DEFAULT_ASPECT_RATIO_X, DEFAULT_ASPECT_RATIO_Y;
    }

    /**
     * Measures the view: with a bitmap, the layout and measured size become
     * `MeasuredSize` and the overlay is told where the bitmap lies in that
     * layout; without one, the overlay gets the empty rectangle and the view
     * measures at the sizes offered.
     */
    method OnMeasure(widthMode: MeasureSpecMode, widthSize: int, heightMode: MeasureSpecMode, heightSize: int)
      requires Valid() && widthSize >= 0 && heightSize >= 0
      modifies this, overlay, overlay.edges.Edges()
      ensures Valid()
      ensures old(bitmap).None? ==> State() == old(State()).(measuredWidth := widthSize, measuredHeight := heightSize)
      ensures old(bitmap).None? ==>
        overlay.Whole() == WithBitmapRect(old(overlay.Whole()), Some(BitmapRectIn(None, widthSize, heightSize)))
      ensures old(bitmap).Some? ==>
        var b := old(bitmap).value;
        var m := MeasuredSize(widthMode, widthSize, heightMode, heightSize, b);
        State() == old(State()).(layoutWidth := m.0, layoutHeight := m.1, measuredWidth := m.0, measuredHeight := m.1)
        && overlay.Whole() == WithBitmapRect(old(overlay.Whole()), Some(BitmapRectIn(old(bitmap), m.0, m.1)))
    {
      if bitmap.Some? {
        var m := MeasuredSize(widthMode, widthSize, heightMode, heightSize, bitmap.value);
        layoutWidth, layoutHeight := m.0, m.1;
        PlaceOverlayAndMeasure(BitmapRectIn(bitmap, layoutWidth, layoutHeight), layoutWidth, layoutHeight);
      } else {
        PlaceOverlayAndMeasure(BitmapRectIn(bitmap, widthSize, heightSize), widthSize, heightSize);
      }
    }

    /** The end of `OnMeasure`: the overlay is handed `rect` and the view records its measured size. */
    method PlaceOverlayAndMeasure(rect: Rect, width: int, height: int)
      requires Valid()
      modifies this, overlay, overlay.edges.Edges()
      ensures Valid()
      ensures State() == old(State()).(measuredWidth := width, measuredHeight := height)
      ensures overlay.Whole() == WithBitmapRect(old(overlay.Whole()), Some(rect))
    {
      SetOverlayRect(rect);
      measuredWidth, measuredHeight := width, height;
    }

    /** Hands the overlay the rectangle the bitmap occupies, which re-places the crop window. */
    method SetOverlayRect(rect: Rect)
      requires Valid()
      modifies overlay, overlay.edges.Edges()
      ensures Valid() && overlay.Whole() == WithBitmapRect(old(overlay.Whole()), Some(rect))
    {
      overlay.SetBitmapRect(Some(rect));
    }

    /** The view was resized: the overlay is told where the bitmap now lies, or gets the empty rectangle. */
    method OnSizeChanged(width: int, height: int)
      requires Valid() && width >= 0 && height >= 0
      modifies overlay, overlay.edges.Edges()
      ensures Valid()
      ensures overlay.Whole() == WithBitmapRect(old(overlay.Whole()), Some(BitmapRectIn(bitmap, width, height)))
    {
      SetOverlayRect(BitmapRectIn(bitmap, width, height));
    }

    /**
     * Shows a new bitmap, or none (a null bitmap), and re-places the crop
     * window, once there has been a placement.
     */
    method SetImageBitmap(b: Option<Bitmap>)
      requires Valid() && (b.Some? ==> BitmapOk(b.value))
      modifies this, overlay, overlay.edges.Edges()
      ensures Valid() && State() == old(State()).(bitmap := b)
      ensures overlay.Whole() == Reset(old(overlay.Whole()))
    {
      bitmap := b;
      overlay.ResetCropOverlayView();
    }

    /**
     * Sets both terms of the ratio, each through the overlay's own
     * validating setter; the view keeps its copies even of rejected values.
     */
    method SetAspectRatio(x: int, y: int)
      requires Valid()
      modifies this, overlay, overlay.edges.Edges()
      ensures Valid() && State() == old(State()).(aspectRatioX := x, aspectRatioY := y)
      ensures overlay.Whole() == WithAspectRatioY(WithAspectRatioX(old(overlay.Whole()), x), y)
    {
      aspectRatioX := x;
      overlay.SetAspectRatioX(x);
      aspectRatioY := y;
      overlay.SetAspectRatioY(y);
    }

    method SetFixedAspectRatio(fix: bool)
      requires Valid()
      modifies overlay, overlay.edges.Edges()
      ensures Valid() && overlay.Whole() == WithFixedAspectRatio(old(overlay.Whole()), fix)
    {
      overlay.SetFixedAspectRatio(fix);
    }

    method SetGuidelines(value: int)
      requires Valid()
      modifies overlay, overlay.edges.Edges()
      ensures Valid() && overlay.Whole() == WithGuidelines(old(overlay.Whole()), value)
    {
      overlay.SetGuidelines(value);
    }

    /**
     * The crop window on the bitmap's pixels, given the size of the image
     * view the bitmap is displayed in; `None` when there is no bitmap.
     */
    method GetActualCropRect(imageViewWidth: int, imageViewHeight: int) returns (r: Option<RectF>)
      requires Valid() && imageViewWidth >= 0 && imageViewHeight >= 0
      ensures bitmap.None? ==> r.None?
      ensures bitmap.Some? ==>
        r == ActualCropRect(overlay.edges.Snapshot(),
                            GetBitmapRectCenterInside(bitmap.value.width, bitmap.value.height, imageViewWidth, imageViewHeight),
                            bitmap.value)
    {
      if bitmap.None? {
        return None;
      }
      var displayed := GetBitmapRectCenterInside(bitmap.value.width, bitmap.value.height, imageViewWidth, imageViewHeight);
      r := ActualCropRect(overlay.edges.Snapshot(), displayed, bitmap.value);
    }

    /**
     * Rotates the image by `degrees` clockwise. `rotated` is the bitmap the
     * graphics library produces; it is shown through `SetImageBitmap`, and
     * the counter keeps the total rotation as a remainder that takes the
     * sign of the running sum.
     */
    method RotateImage(degrees: int, rotated: Bitmap)
      requires Valid() && bitmap.Some? && BitmapOk(rotated)
      modifies this, overlay, overlay.edges.Edges()
      ensures Valid()
      ensures State() == old(State()).(bitmap := Some(rotated),
                                       degreesRotated := TruncatedRemainder(old(degreesRotated) + degrees, 360))
      ensures overlay.Whole() == Reset(old(overlay.Whole()))
      ensures -360 < degreesRotated < 360
      ensures (old(degreesRotated) + degrees - degreesRotated) % 360 == 0
    {
      SetImageBitmap(Some(rotated));
      degreesRotated := degreesRotated + degrees;
      degreesRotated := TruncatedRemainder(degreesRotated, 360);
    }
  }
}
