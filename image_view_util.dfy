/**
 * ImageViewUtil: where a bitmap is drawn inside a view that scales it the
 * CENTER_INSIDE way: scaled down, keeping its proportions, just enough to
 * fit, never scaled up, and centred.
 */
module ImageViewUtil {
  import opened Numerics
  import opened Geometry

  /** `Some(view / bitmap)` when the view is smaller than the bitmap on that axis; `None` stands for +Infinity. */
  function ShrinkRatio(viewSize: int, bitmapSize: int): (ratio: Option<real>)
    requires viewSize >= 0
    ensures ratio.Some? <==> viewSize < bitmapSize
    ensures ratio.Some? ==> 0.0 <= ratio.value < 1.0
  {
    if viewSize < bitmapSize then Some(viewSize as real / bitmapSize as real) else None
  }

  /** `a <= b` with `None` standing for +Infinity. */
  predicate AtMost(a: Option<real>, b: Option<real>)
  {
    b.None? || (a.Some? && a.value <= b.value)
  }

  /** How a bitmap is fitted to a view: as it is, or scaled by the view-to-bitmap ratio of its width or of its height. */
  datatype Fit = Unscaled | ToWidth(ratio: real) | ToHeight(ratio: real)

  /**
   * The choice the centre-inside placement and the view's measuring share:
   * when either side of the bitmap is too large, scale by the smaller
   * ratio, by the width on a tie.
   */
  function FitOf(bitmapWidth: int, bitmapHeight: int, viewWidth: int, viewHeight: int): (fit: Fit)
    requires viewWidth >= 0 && viewHeight >= 0
    ensures fit.Unscaled? <==> bitmapWidth <= viewWidth && bitmapHeight <= viewHeight
    ensures fit.ToWidth? ==>
      viewWidth < bitmapWidth && fit.ratio == viewWidth as real / bitmapWidth as real
      && (viewHeight < bitmapHeight ==> fit.ratio <= viewHeight as real / bitmapHeight as real)
    ensures fit.ToHeight? ==>
      viewHeight < bitmapHeight && fit.ratio == viewHeight as real / bitmapHeight as real
      && (viewWidth < bitmapWidth ==> fit.ratio < viewWidth as real / bitmapWidth as real)
  {
    var widthRatio := ShrinkRatio(viewWidth, bitmapWidth);
    var heightRatio := ShrinkRatio(viewHeight, bitmapHeight);
    if widthRatio.Some? || heightRatio.Some? then
      if AtMost(widthRatio, heightRatio) then ToWidth(widthRatio.value) else ToHeight(heightRatio.value)
    else
      Unscaled
  }

  /**
   * The size the bitmap is drawn at: its own size when it fits, otherwise
   * scaled by a single factor so that it fills the view on one axis.
   */
  function CenterInsideSize(bitmapWidth: int, bitmapHeight: int, viewWidth: int, viewHeight: int): (real, real)
    requires viewWidth >= 0 && viewHeight >= 0
  {
    match FitOf(bitmapWidth, bitmapHeight, viewWidth, viewHeight)
    case ToWidth(_) =>
      var resultWidth := viewWidth as real;
      var resultHeight := bitmapHeight as real * resultWidth / bitmapWidth as real;
      (resultWidth, resultHeight)
    case ToHeight(_) =>
      var resultHeight := viewHeight as real;
      var resultWidth := bitmapWidth as real * resultHeight / bitmapHeight as real;
      (resultWidth, resultHeight)
    case Unscaled =>
      (bitmapWidth as real, bitmapHeight as real)
  }

  /**
   * A bitmap that fits is drawn at its own size; one that does not is
   * scaled to fill the view on one axis and fit on the other, keeping its
   * proportions.
   */
  lemma CenterInsideSizeFits(bitmapWidth: int, bitmapHeight: int, viewWidth: int, viewHeight: int)
    requires viewWidth >= 0 && viewHeight >= 0
    ensures var size := CenterInsideSize(bitmapWidth, bitmapHeight, viewWidth, viewHeight);
      bitmapWidth <= viewWidth && bitmapHeight <= viewHeight ==> size == (bitmapWidth as real, bitmapHeight as real)
    ensures var size := CenterInsideSize(bitmapWidth, bitmapHeight, viewWidth, viewHeight);
      bitmapWidth > 0 && bitmapHeight > 0 && !(bitmapWidth <= viewWidth && bitmapHeight <= viewHeight) ==>
        0.0 <= size.0 <= viewWidth as real && 0.0 <= size.1 <= viewHeight as real
        && (size.0 == viewWidth as real || size.1 == viewHeight as real)
        && size.0 * bitmapHeight as real == size.1 * bitmapWidth as real
  {
    match FitOf(bitmapWidth, bitmapHeight, viewWidth, viewHeight)
    case ToWidth(_) =>
      ScaledToWidthFits(bitmapWidth, bitmapHeight, viewWidth, viewHeight);
    case ToHeight(_) =>
      ScaledToHeightFits(bitmapWidth, bitmapHeight, viewWidth, viewHeight);
    case Unscaled =>
  }

  lemma ScaledToWidthFits(bitmapWidth: int, bitmapHeight: int, viewWidth: int, viewHeight: int)
    requires viewWidth >= 0 && viewHeight >= 0
    requires FitOf(bitmapWidth, bitmapHeight, viewWidth, viewHeight).ToWidth?
    ensures var h := bitmapHeight as real * viewWidth as real / bitmapWidth as real;
      h * bitmapWidth as real == viewWidth as real * bitmapHeight as real
      && (bitmapHeight > 0 ==> 0.0 <= h <= viewHeight as real)
  {
  }

  lemma ScaledToHeightFits(bitmapWidth: int, bitmapHeight: int, viewWidth: int, viewHeight: int)
    requires viewWidth >= 0 && viewHeight >= 0
    requires FitOf(bitmapWidth, bitmapHeight, viewWidth, viewHeight).ToHeight?
    ensures var w := bitmapWidth as real * viewHeight as real / bitmapHeight as real;
      w * bitmapHeight as real == viewHeight as real * bitmapWidth as real
      && (bitmapWidth > 0 ==> 0.0 <= w <= viewWidth as real)
  {
  }

  /** Scaling by a ratio is scaling by its numerator then dividing by its denominator. */
  lemma ScaleByRatio(side: real, ratio: real, num: real, den: real)
    requires den != 0.0 && ratio == num / den
    ensures side * ratio == side * num / den
  {
  }

  /**
   * The rectangle, in view pixels, that the bitmap occupies: the scaled
   * size rounded up, placed at the centring offset rounded half to even.
   * The three branches of the placement all amount to that offset.
   */
  function GetBitmapRectCenterInside(bitmapWidth: int, bitmapHeight: int, viewWidth: int, viewHeight: int): (r: Rect)
    requires viewWidth >= 0 && viewHeight >= 0
    ensures var size := CenterInsideSize(bitmapWidth, bitmapHeight, viewWidth, viewHeight);
      r.left == RoundHalfEven((viewWidth as real - size.0) / 2.0)
      && r.top == RoundHalfEven((viewHeight as real - size.1) / 2.0)
      && r.Width() == Ceiling(size.0) && r.Height() == Ceiling(size.1)
  {
    var size := CenterInsideSize(bitmapWidth, bitmapHeight, viewWidth, viewHeight);
    var resultWidth := size.0;
    var resultHeight := size.1;
    assert RoundHalfEven(0.0) == 0;
    if resultWidth == viewWidth as real then
      var resultX := 0;
      var resultY := RoundHalfEven((viewHeight as real - resultHeight) / 2.0);
      Rect(resultX, resultY, resultX + Ceiling(resultWidth), resultY + Ceiling(resultHeight))
    else if resultHeight == viewHeight as real then
      var resultX := RoundHalfEven((viewWidth as real - resultWidth) / 2.0);
      var resultY := 0;
      Rect(resultX, resultY, resultX + Ceiling(resultWidth), resultY + Ceiling(resultHeight))
    else
      var resultX := RoundHalfEven((viewWidth as real - resultWidth) / 2.0);
      var resultY := RoundHalfEven((viewHeight as real - resultHeight) / 2.0);
      Rect(resultX, resultY, resultX + Ceiling(resultWidth), resultY + Ceiling(resultHeight))
  }

  /** A length `w` centred in `v` whole pixels, its offset rounded half to even and its length rounded up, stays within `v`. */
  lemma CenteredSpanFits(v: int, w: real)
    requires 0.0 <= w <= v as real
    ensures 0 <= RoundHalfEven((v as real - w) / 2.0)
    ensures RoundHalfEven((v as real - w) / 2.0) + Ceiling(w) <= v
  {
  }

  /** The bitmap's rectangle lies within the view. */
  lemma BitmapRectWithinView(bitmapWidth: int, bitmapHeight: int, viewWidth: int, viewHeight: int)
    requires viewWidth >= 0 && viewHeight >= 0 && bitmapWidth > 0 && bitmapHeight > 0
    ensures var r := GetBitmapRectCenterInside(bitmapWidth, bitmapHeight, viewWidth, viewHeight);
      0 <= r.left && r.right <= viewWidth && 0 <= r.top && r.bottom <= viewHeight
  {
    var size := CenterInsideSize(bitmapWidth, bitmapHeight, viewWidth, viewHeight);
    CenterInsideSizeFits(bitmapWidth, bitmapHeight, viewWidth, viewHeight);
    CenteredSpanFits(viewWidth, size.0);
    CenteredSpanFits(viewHeight, size.1);
  }
}
