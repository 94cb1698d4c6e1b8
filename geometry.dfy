/**
 * The Android graphics values the crop window works against: an integer
 * pixel rectangle (android.graphics.Rect) and a floating-point one
 * (android.graphics.RectF), plus the nullable-reference stand-in `Option`.
 */
module Geometry {

  datatype Option<T> = None | Some(value: T)

  /** A rectangle with integer pixel bounds, as android.graphics.Rect. */
  datatype Rect = Rect(left: int, top: int, right: int, bottom: int) {
    function Width(): int { right - left }
    function Height(): int { bottom - top }
  }

  /** `new Rect()`: all four bounds zero. */
  const EMPTY_RECT: Rect := Rect(0, 0, 0, 0)

  /** A rectangle with floating-point bounds, as android.graphics.RectF. */
  datatype RectF = RectF(left: real, top: real, right: real, bottom: real)
}
