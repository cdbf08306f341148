/**
 * Font-size fitting and rotation choice for one word: the size is chosen so
 * that the text, measured once at a 10 pt baseline, spans 99% of the word
 * rectangle along its writing axis.
 */
module FontFit {
  import opened Geometry

  /** Size at which the text is measured. */
  const BaseFontSize: real := 10.0

  /** Size used before shrinking when the text measures zero at the baseline size. */
  const FallbackFontSize: real := 5.0

  /** Safety factor applied to every size, fallback included. */
  const Shrink: real := 0.99

  /** The only direction string treated as vertical writing. */
  const Vertical: string := "vertical"

  /** Page rotation, in degrees, for vertical text. */
  const VerticalRotation: int := 270

  predicate IsVertical(direction: string)
  {
    direction == Vertical
  }

  /** `fitz.Rect.width`, taken as the signed difference of the vertical edges. */
  function Width(b: Box): real
  {
    b.right - b.left
  }

  /** `fitz.Rect.height`, taken as the signed difference of the horizontal edges. */
  function Height(b: Box): real
  {
    b.bottom - b.top
  }

  /** Length of the rectangle along the writing axis: height for vertical text, width for any other direction. */
  function Extent(direction: string, b: Box): real
  {
    if IsVertical(direction) then Height(b) else Width(b)
  }

  /** Width of the text set at `size`, given its width at the baseline size, with advance proportional to size. */
  function ScaledWidth(baseWidth: real, size: real): real
  {
    baseWidth * size / BaseFontSize
  }

  /**
   * The fitted font size. A zero baseline width falls back to 5 pt, and the
   * 0.99 shrink still applies afterwards, so the result is 4.95 pt; any other
   * width yields the size at which the text spans 99% of the extent.
   */
  function FitFontSize(direction: string, b: Box, baseWidth: real): (size: real)
    ensures baseWidth == 0.0 ==> size == 4.95
    ensures baseWidth != 0.0 ==> ScaledWidth(baseWidth, size) == Shrink * Extent(direction, b)
    ensures baseWidth > 0.0 && Extent(direction, b) > 0.0 ==> 0.0 < size
  {
    var unshrunk :=
      if baseWidth == 0.0 then FallbackFontSize
      else BaseFontSize * (Extent(direction, b) / baseWidth);
    unshrunk * Shrink
  }

  /** For a nonzero measurement, the fitted size is the one and only size at which the text spans 99% of the extent. */
  lemma FitFontSizeUnique(direction: string, b: Box, baseWidth: real, size: real)
    requires baseWidth != 0.0
    ensures ScaledWidth(baseWidth, size) == Shrink * Extent(direction, b)
        <==> size == FitFontSize(direction, b, baseWidth)
  {
  }

  /** The closed form of the fitted size for a nonzero measurement: 0.99 * 10 * extent / width. */
  lemma FitFontSizeScalingLaw(direction: string, b: Box, baseWidth: real)
    requires baseWidth != 0.0
    ensures FitFontSize(direction, b, baseWidth) == Shrink * BaseFontSize * Extent(direction, b) / baseWidth
  {
  }

  /**
   * A zero measurement always gives a positive size; any other measurement
   * gives a positive size exactly when it has the same sign as the extent.
   */
  lemma FitFontSizePositiveIff(direction: string, b: Box, baseWidth: real)
    ensures baseWidth == 0.0 ==> FitFontSize(direction, b, baseWidth) > 0.0
    ensures baseWidth != 0.0 ==>
      (FitFontSize(direction, b, baseWidth) > 0.0 <==>
         (baseWidth > 0.0 && Extent(direction, b) > 0.0) || (baseWidth < 0.0 && Extent(direction, b) < 0.0))
  {
  }

  /** With a positive measurement and extent, the text at the fitted size stays strictly inside the extent. */
  lemma FitFontSizeStaysInside(direction: string, b: Box, baseWidth: real)
    requires baseWidth > 0.0 && Extent(direction, b) > 0.0
    ensures 0.0 < ScaledWidth(baseWidth, FitFontSize(direction, b, baseWidth)) < Extent(direction, b)
  {
  }

  /** The fitted size reads only one side of the rectangle: the height for vertical text, the width otherwise. */
  lemma FitFontSizeReadsOneAxis(direction: string, b1: Box, b2: Box, baseWidth: real)
    requires IsVertical(direction) ==> Height(b1) == Height(b2)
    requires !IsVertical(direction) ==> Width(b1) == Width(b2)
    ensures FitFontSize(direction, b1, baseWidth) == FitFontSize(direction, b2, baseWidth)
  {
  }

  /** Every direction string other than "vertical" is handled as horizontal text. */
  lemma OtherDirectionsAreHorizontal(direction: string, b: Box, baseWidth: real)
    requires !IsVertical(direction)
    ensures FitFontSize(direction, b, baseWidth) == FitFontSize("horizontal", b, baseWidth)
    ensures Rotation(direction) == Rotation("horizontal")
  {
  }

  /** The insertion rotation: 270 degrees for vertical text and 0 for everything else. */
  function Rotation(direction: string): (deg: int)
    ensures deg == VerticalRotation <==> IsVertical(direction)
    ensures deg == 0 <==> !IsVertical(direction)
  {
    if IsVertical(direction) then VerticalRotation else 0
  }
}
