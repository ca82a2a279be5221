/**
 Font-size constants and the zoom-to-point-size conversion of the editor.
 Rust's `f32` is modelled by `real`, so every result here is exact; the
 zoom level is Rust's `i16`, kept as a bounded newtype so that every
 arithmetic step on it is checked against the 16-bit range.
 */
module Font {

  /** Rust's `i16`. */
  newtype i16 = x: int | -0x8000 <= x < 0x8000

  const DefaultFontSize: real := 14.0
  const MinFontSize: real := 8.0
  const DefaultZoomLevel: i16 := 100
  const MaxZoomLevel: i16 := 500
  const MinZoomLevel: i16 := 50

  /** The unclamped size: the default size scaled by the zoom percentage. */
  function ScaledSize(zoom: i16): real
  {
    DefaultFontSize * (zoom as real) / 100.0
  }

  /**
   The point size shown at a zoom percentage: the scaled default size,
   but never below the minimum font size.
   */
  function CalculateFontSize(zoom: i16): (r: real)
    ensures r >= MinFontSize
    ensures r >= ScaledSize(zoom)
    ensures r == MinFontSize || r == ScaledSize(zoom)
  {
    var scaled := ScaledSize(zoom);
    if scaled >= MinFontSize then scaled else MinFontSize
  }

  /** The bounds are ordered with the default strictly between them. */
  lemma ZoomBoundsOrdered()
    ensures MinZoomLevel < DefaultZoomLevel < MaxZoomLevel
    ensures MinZoomLevel as int % 10 == 0 && DefaultZoomLevel as int % 10 == 0
    ensures MaxZoomLevel as int % 10 == 0
  {
  }

  /** The default zoom gives exactly the default font size. */
  lemma DefaultZoomGivesDefaultSize()
    ensures CalculateFontSize(DefaultZoomLevel) == DefaultFontSize
  {
  }

  /** A larger zoom never gives a smaller font. */
  lemma FontSizeMonotonic(a: i16, b: i16)
    requires a <= b
    ensures CalculateFontSize(a) <= CalculateFontSize(b)
  {
  }

  /**
   The clamp is active exactly below 58 percent: from 58 upward the size
   is 0.14 points per percent, below it the minimum size.
   */
  lemma ClampThreshold(zoom: i16)
    ensures zoom >= 58 ==> CalculateFontSize(zoom) == 14.0 * (zoom as real) / 100.0
    ensures zoom < 58 ==> CalculateFontSize(zoom) == MinFontSize
  {
  }

  /** At the minimum zoom the raw size 7 is raised to 8. */
  lemma MinZoomIsClamped()
    ensures ScaledSize(MinZoomLevel) == 7.0
    ensures CalculateFontSize(MinZoomLevel) == 8.0
  {
  }

  /** Within the zoom range, only the minimum zoom itself is clamped. */
  lemma OnlyMinZoomClampedInRange(zoom: i16)
    requires MinZoomLevel <= zoom <= MaxZoomLevel && zoom as int % 10 == 0
    ensures zoom != MinZoomLevel ==> CalculateFontSize(zoom) == ScaledSize(zoom)
    ensures CalculateFontSize(zoom) <= 70.0
  {
  }
}
