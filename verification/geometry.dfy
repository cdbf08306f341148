/**
 * Geometry of one OCR word: pixel-to-point conversion, the axis-aligned box
 * that encloses the word's quadrilateral, and the extra right margin given
 * to words ending with the ideographic full stop.
 */
module Geometry {

  /** Resolution assumed for the OCR engine's pixel coordinates. */
  const Dpi: real := 200.0

  /** PDF user-space points per inch. */
  const PointsPerInch: real := 72.0

  /** Extra room, in points, for a trailing ideographic full stop. */
  const FullStopMargin: real := 9.0

  /** The ideographic full stop, U+3002. */
  const FullStop: char := '\U{3002}'

  datatype Point = Point(x: real, y: real)

  /** A word's corners as the OCR engine reports them: top-left, top-right, bottom-right, bottom-left. */
  datatype Quad = Quad(p0: Point, p1: Point, p2: Point, p3: Point)

  /** An axis-aligned rectangle in page space; the y axis points down, so `top` is the smaller y. */
  datatype Box = Box(left: real, top: real, right: real, bottom: real)

  function Min(a: real, b: real): (m: real)
    ensures m <= a && m <= b
    ensures m == a || m == b
  {
    if a <= b then a else b
  }

  function Max(a: real, b: real): (m: real)
    ensures a <= m && b <= m
    ensures m == a || m == b
  {
    if a <= b then b else a
  }

  /** Converts a pixel position to points; each axis is scaled on its own by 72/200. */
  function PxToPt(p: Point): (q: Point)
    ensures q.x * Dpi == p.x * PointsPerInch
    ensures q.y * Dpi == p.y * PointsPerInch
  {
    Point(p.x * PointsPerInch / Dpi, p.y * PointsPerInch / Dpi)
  }

  /** The inverse conversion, from points back to pixels. */
  function PtToPx(q: Point): Point
  {
    Point(q.x * Dpi / PointsPerInch, q.y * Dpi / PointsPerInch)
  }

  /** The conversion loses nothing: it is a bijection with `PtToPx` as its inverse. */
  lemma PxToPtRoundTrip(p: Point)
    ensures PtToPx(PxToPt(p)) == p
    ensures PxToPt(PtToPx(p)) == p
  {
  }

  /** The conversion is strictly increasing on each axis, so it preserves the order of coordinates. */
  lemma PxToPtMonotone(p: Point, q: Point)
    ensures p.x <= q.x <==> PxToPt(p).x <= PxToPt(q).x
    ensures p.y <= q.y <==> PxToPt(p).y <= PxToPt(q).y
  {
  }

  /** The quadrilateral with every corner converted to points. */
  function QuadToPt(q: Quad): Quad
  {
    Quad(PxToPt(q.p0), PxToPt(q.p1), PxToPt(q.p2), PxToPt(q.p3))
  }

  /**
   * The box the converter derives from a word's corners: left from the two
   * left corners, right from the two right corners, top from the two top
   * corners and bottom from the two bottom corners, all after conversion.
   */
  function Enclosing(q: Quad): (b: Box)
    ensures var c := QuadToPt(q);
      && b.left <= c.p0.x && b.left <= c.p3.x && (b.left == c.p0.x || b.left == c.p3.x)
      && c.p1.x <= b.right && c.p2.x <= b.right && (b.right == c.p1.x || b.right == c.p2.x)
      && b.top <= c.p0.y && b.top <= c.p1.y && (b.top == c.p0.y || b.top == c.p1.y)
      && c.p2.y <= b.bottom && c.p3.y <= b.bottom && (b.bottom == c.p2.y || b.bottom == c.p3.y)
  {
    var c := QuadToPt(q);
    Box(Min(c.p3.x, c.p0.x), Min(c.p0.y, c.p1.y), Max(c.p2.x, c.p1.x), Max(c.p2.y, c.p3.y))
  }

  /** Scales every edge of a pixel-space box to points. */
  function BoxToPt(b: Box): Box
  {
    var tl := PxToPt(Point(b.left, b.top));
    var br := PxToPt(Point(b.right, b.bottom));
    Box(tl.x, tl.y, br.x, br.y)
  }

  /** The same min/max selection done on the raw pixel corners, before any conversion. */
  function PixelEnclosing(q: Quad): Box
  {
    Box(Min(q.p3.x, q.p0.x), Min(q.p0.y, q.p1.y), Max(q.p2.x, q.p1.x), Max(q.p2.y, q.p3.y))
  }

  /** Converting first and selecting corners afterwards agrees with selecting in pixels and converting the box. */
  lemma EnclosingCommutesWithConversion(q: Quad)
    ensures Enclosing(q) == BoxToPt(PixelEnclosing(q))
  {
  }

  /** A quadrilateral whose corners lie in the documented order: left corners left of right ones, top corners above bottom ones. */
  predicate Upright(q: Quad)
  {
    && q.p0.x <= q.p1.x && q.p3.x <= q.p2.x
    && q.p0.y <= q.p3.y && q.p1.y <= q.p2.y
  }

  function Min4(a: real, b: real, c: real, d: real): real
  {
    Min(Min(a, b), Min(c, d))
  }

  function Max4(a: real, b: real, c: real, d: real): real
  {
    Max(Max(a, b), Max(c, d))
  }

  /** Reference definition: the smallest axis-aligned box holding all four converted corners. */
  function BoundingBox(q: Quad): Box
  {
    var c := QuadToPt(q);
    Box(Min4(c.p0.x, c.p1.x, c.p2.x, c.p3.x), Min4(c.p0.y, c.p1.y, c.p2.y, c.p3.y),
        Max4(c.p0.x, c.p1.x, c.p2.x, c.p3.x), Max4(c.p0.y, c.p1.y, c.p2.y, c.p3.y))
  }

  /** For corners in the documented order, picking two corners per edge yields the true bounding box. */
  lemma EnclosingIsBoundingWhenUpright(q: Quad)
    requires Upright(q)
    ensures Enclosing(q) == BoundingBox(q)
  {
  }

  /** Without the documented order the two disagree: this skewed quad's top-right corner lies left of the box. */
  lemma EnclosingMissesSkewedCorner()
    ensures var q := Quad(Point(100.0, 0.0), Point(50.0, 0.0), Point(300.0, 40.0), Point(100.0, 40.0));
      Enclosing(q).left == 36.0 && BoundingBox(q).left == 18.0
  {
  }

  /** The box's left edge is not right of its right edge exactly when some left corner is not right of some right corner. */
  lemma EnclosingOrderedIff(q: Quad)
    ensures Enclosing(q).left <= Enclosing(q).right
      <==> (q.p0.x <= q.p1.x || q.p0.x <= q.p2.x || q.p3.x <= q.p1.x || q.p3.x <= q.p2.x)
    ensures Enclosing(q).top <= Enclosing(q).bottom
      <==> (q.p0.y <= q.p2.y || q.p0.y <= q.p3.y || q.p1.y <= q.p2.y || q.p1.y <= q.p3.y)
  {
  }

  /** The two orderings the documentation promises for the top-left corner suffice for an ordered box. */
  lemma EnclosingOrdered(q: Quad)
    requires q.p0.x <= q.p1.x && q.p0.y <= q.p3.y
    ensures Enclosing(q).left <= Enclosing(q).right
    ensures Enclosing(q).top <= Enclosing(q).bottom
  {
  }

  /** Python's `text.endswith("。")`. */
  predicate EndsWithFullStop(text: string)
  {
    |text| > 0 && text[|text| - 1] == FullStop
  }

  /**
   * The word's rectangle: the enclosing box, with the right edge pushed out
   * by `FullStopMargin` when the (already normalised) text ends with "。".
   */
  function WordRect(text: string, q: Quad): (b: Box)
    ensures b.left == Enclosing(q).left && b.top == Enclosing(q).top && b.bottom == Enclosing(q).bottom
    ensures b.right == Enclosing(q).right || b.right == Enclosing(q).right + FullStopMargin
  {
    var e := Enclosing(q);
    Box(e.left, e.top, if EndsWithFullStop(text) then e.right + FullStopMargin else e.right, e.bottom)
  }

  /** The right edge is widened by exactly 9 points if and only if the text ends with "。", and left alone otherwise. */
  lemma WordRectWidenedIff(text: string, q: Quad)
    ensures WordRect(text, q).right == Enclosing(q).right + FullStopMargin <==> EndsWithFullStop(text)
    ensures WordRect(text, q).right == Enclosing(q).right <==> !EndsWithFullStop(text)
  {
  }

  /** Only the right edge depends on the text. */
  lemma WordRectTextIndependent(t1: string, t2: string, q: Quad)
    ensures WordRect(t1, q).left == WordRect(t2, q).left
    ensures WordRect(t1, q).top == WordRect(t2, q).top
    ensures WordRect(t1, q).bottom == WordRect(t2, q).bottom
    ensures EndsWithFullStop(t1) == EndsWithFullStop(t2) ==> WordRect(t1, q) == WordRect(t2, q)
  {
  }
}
