/**
 * The invisible text box drawn for one OCR word: the word rectangle,
 * re-anchored to its bottom edge with a band just tall enough for the fitted
 * font, and the fixed drawing attributes of the insertion call.
 */
module Injector {
  import opened Geometry
  import opened FontFit

  /** Space, in points, added above the font size in the drawing band. */
  const BandPadding: real := 3.0

  /** PDF text render mode 3: neither fill nor stroke, so the text is searchable but not painted. */
  const InvisibleRenderMode: int := 3

  /** The built-in CJK font resource the text is set in and measured with. */
  const FontName: string := "japan-s"

  datatype Rgb = Rgb(red: real, green: real, blue: real)

  /** Fill colour passed to the insertion call; it never shows because the text is invisible. */
  const TextColor: Rgb := Rgb(0.5, 0.5, 0.5)

  /** Everything the converter hands to the page's text-insertion call for one word. */
  datatype TextBox = TextBox(
    rect: Box,
    text: string,
    fontSize: real,
    color: Rgb,
    renderMode: int,
    overlay: bool,
    fontName: string,
    rotate: int)

  /** The drawing band: the box's left, right and bottom edges, and a height of exactly `fontSize + 3`. */
  function DrawRect(b: Box, fontSize: real): (d: Box)
    ensures d.left == b.left && d.right == b.right && d.bottom == b.bottom
    ensures Height(d) == fontSize + BandPadding
  {
    Box(b.left, b.bottom - fontSize - BandPadding, b.right, b.bottom)
  }

  /** The band's height does not depend on the original box's top edge. */
  lemma DrawRectIgnoresTop(b1: Box, b2: Box, fontSize: real)
    requires b1.left == b2.left && b1.right == b2.right && b1.bottom == b2.bottom
    ensures DrawRect(b1, fontSize) == DrawRect(b2, fontSize)
  {
  }

  /**
   * The text box for one word, given its (already normalised) text, its
   * pixel corners, its direction and the width of the text measured at the
   * baseline size.
   */
  function WordToBox(text: string, q: Quad, direction: string, baseWidth: real): (t: TextBox)
    ensures t.text == text
    ensures t.rect.left == Enclosing(q).left && t.rect.bottom == Enclosing(q).bottom
    ensures t.rect.right == WordRect(text, q).right
    ensures t.fontSize == FitFontSize(direction, WordRect(text, q), baseWidth)
    ensures Height(t.rect) == t.fontSize + BandPadding
    ensures t.rotate == Rotation(direction)
    ensures t.renderMode == InvisibleRenderMode && t.fontName == FontName && t.color == TextColor && t.overlay
  {
    var rect := WordRect(text, q);
    var size := FitFontSize(direction, rect, baseWidth);
    TextBox(DrawRect(rect, size), text, size, TextColor, InvisibleRenderMode, true, FontName, Rotation(direction))
  }

  /** A word whose text measures zero is drawn at 4.95 pt in a band 7.95 pt tall. */
  lemma WordToBoxZeroWidth(text: string, q: Quad, direction: string)
    ensures WordToBox(text, q, direction, 0.0).fontSize == 4.95
    ensures Height(WordToBox(text, q, direction, 0.0).rect) == 7.95
  {
  }

  /**
   * For a horizontal word measured at a positive width, the trailing "。"
   * raises the font size by exactly the share of the 9 pt margin:
   * 0.99 * 10 * 9 / width.
   */
  lemma FullStopEnlargesHorizontalFont(text: string, q: Quad, direction: string, baseWidth: real)
    requires !IsVertical(direction) && baseWidth > 0.0
    requires EndsWithFullStop(text)
    ensures WordToBox(text, q, direction, baseWidth).fontSize
         == FitFontSize(direction, Enclosing(q), baseWidth) + Shrink * BaseFontSize * FullStopMargin / baseWidth
  {
    var e := Enclosing(q);
    // The widened width splits into the unwidened width and the margin.
    assert Shrink * BaseFontSize * (Width(e) + FullStopMargin) / baseWidth
        == Shrink * BaseFontSize * Width(e) / baseWidth + Shrink * BaseFontSize * FullStopMargin / baseWidth;
  }

  /** A vertical word's font size ignores the trailing "。", because only the height is read. */
  lemma FullStopLeavesVerticalFont(text: string, q: Quad, baseWidth: real)
    ensures WordToBox(text, q, Vertical, baseWidth).fontSize == FitFontSize(Vertical, Enclosing(q), baseWidth)
  {
  }

  /**
   * For corners in the documented order that span some length along the
   * writing axis, and a positive measurement, the word is drawn at a positive
   * size into a band whose edges are ordered.
   */
  lemma WordToBoxWellFormed(text: string, q: Quad, direction: string, baseWidth: real)
    requires Upright(q) && baseWidth > 0.0
    requires IsVertical(direction) ==> q.p0.y < q.p3.y
    requires !IsVertical(direction) ==> q.p0.x < q.p1.x
    ensures var t := WordToBox(text, q, direction, baseWidth);
      0.0 < t.fontSize && t.rect.left <= t.rect.right && t.rect.top < t.rect.bottom
  {
  }
}
