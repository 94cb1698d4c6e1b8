/**
 * AspectRatioUtil: the width-to-height arithmetic of a crop window.
 * Each `Calculate<Side>` returns the position of one side that gives the
 * window spanned by the other three sides the requested aspect ratio.
 */
module AspectRatioUtil {
  import opened Geometry

  /** The width-to-height ratio of the window with the given sides. */
  function CalculateAspectRatio(left: real, top: real, right: real, bottom: real): (ratio: real)
    requires bottom != top
    ensures ratio * (bottom - top) == right - left
  {
    (right - left) / (bottom - top)
  }

  /**
   * The comparison `width / height > ratio` with the float semantics the
   * cropper runs under: a zero height gives +Infinity for a positive
   * width, -Infinity for a negative one and NaN (never greater) for zero.
   */
  predicate RatioExceeds(width: real, height: real, ratio: real)
  {
    if height == 0.0 then width > 0.0 else width / height > ratio
  }

  lemma RatioExceedsPositiveHeight(width: real, height: real, ratio: real)
    requires height > 0.0
    ensures RatioExceeds(width, height, ratio) <==> width > ratio * height
  {
    if width / height > ratio {
      assert width == (width / height) * height;
    } else {
      assert width == (width / height) * height;
    }
  }

  /** `calculateAspectRatio(Rect)` as the cropper uses it: compared against a target ratio. */
  predicate RectRatioExceeds(rect: Rect, ratio: real)
  {
    RatioExceeds(rect.Width() as real, rect.Height() as real, ratio)
  }

  /** The left side that gives the window (left, top, right, bottom) the ratio. */
  function CalculateLeft(top: real, right: real, bottom: real, ratio: real): (left: real)
    ensures right - left == CalculateWidth(top, bottom, ratio)
    ensures bottom != top ==> CalculateAspectRatio(left, top, right, bottom) == ratio
  {
    right - ratio * (bottom - top)
  }

  /** The top side that gives the window (left, top, right, bottom) the ratio. */
  function CalculateTop(left: real, right: real, bottom: real, ratio: real): (top: real)
    requires ratio != 0.0
    ensures bottom - top == CalculateHeight(left, right, ratio)
    ensures right != left ==> bottom != top && CalculateAspectRatio(left, top, right, bottom) == ratio
  {
    var t := bottom - (right - left) / ratio;
    HeightRoundTrip(left, right, ratio);
    t
  }

  /** The right side that gives the window (left, top, right, bottom) the ratio. */
  function CalculateRight(left: real, top: real, bottom: real, ratio: real): (right: real)
    ensures right - left == CalculateWidth(top, bottom, ratio)
    ensures bottom != top ==> CalculateAspectRatio(left, top, right, bottom) == ratio
  {
    ratio * (bottom - top) + left
  }

  /** The bottom side that gives the window (left, top, right, bottom) the ratio. */
  function CalculateBottom(left: real, top: real, right: real, ratio: real): (bottom: real)
    requires ratio != 0.0
    ensures bottom - top == CalculateHeight(left, right, ratio)
    ensures right != left ==> bottom != top && CalculateAspectRatio(left, top, right, bottom) == ratio
  {
    var b := (right - left) / ratio + top;
    HeightRoundTrip(left, right, ratio);
    b
  }

  /** The width a window of the given height must have to reach the ratio. */
  function CalculateWidth(top: real, bottom: real, ratio: real): (width: real)
    ensures bottom != top ==> width / (bottom - top) == ratio
  {
    ratio * (bottom - top)
  }

  /** The height a window of the given width must have to reach the ratio. */
  function CalculateHeight(left: real, right: real, ratio: real): (height: real)
    requires ratio != 0.0
    ensures height * ratio == right - left
  {
    (right - left) / ratio
  }

  /** A window whose height is `CalculateHeight` of its width has the ratio. */
  lemma HeightRoundTrip(left: real, right: real, ratio: real)
    requires ratio != 0.0
    ensures right != left ==> CalculateHeight(left, right, ratio) != 0.0
    ensures right != left ==> (right - left) / CalculateHeight(left, right, ratio) == ratio
  {
    var h := CalculateHeight(left, right, ratio);
    if right != left {
      assert h * ratio == right - left;
      assert h != 0.0;
      assert (right - left) / h == ratio;
    }
  }
}
