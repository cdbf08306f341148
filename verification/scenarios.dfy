/** Worked examples: one 200x40-pixel word, laid out horizontally, vertically and with a trailing "。". */
module Scenarios {
  import opened Geometry
  import opened FontFit
  import opened Injector

  /** The word's corners in pixels: top-left, top-right, bottom-right, bottom-left. */
  function SampleQuad(): Quad
  {
    Quad(Point(100.0, 100.0), Point(300.0, 100.0), Point(300.0, 140.0), Point(100.0, 140.0))
  }

  /** Horizontal text measuring 50 pt at 10 pt fills the 72 pt width at 14.256 pt, in a band from y = 33.144. */
  lemma HorizontalSample()
    ensures Enclosing(SampleQuad()) == Box(36.0, 36.0, 108.0, 50.4)
    ensures WordToBox("ab", SampleQuad(), "horizontal", 50.0).fontSize == 14.256
    ensures WordToBox("ab", SampleQuad(), "horizontal", 50.0).rect == Box(36.0, 33.144, 108.0, 50.4)
    ensures WordToBox("ab", SampleQuad(), "horizontal", 50.0).rotate == 0
  {
  }

  /** The same geometry written vertically fits the 14.4 pt height instead, and is rotated by 270 degrees. */
  lemma VerticalSample()
    ensures WordToBox("ab", SampleQuad(), "vertical", 50.0).fontSize == 2.8512
    ensures WordToBox("ab", SampleQuad(), "vertical", 50.0).rect == Box(36.0, 44.5488, 108.0, 50.4)
    ensures WordToBox("ab", SampleQuad(), "vertical", 50.0).rotate == 270
  {
  }

  /** A trailing "。" widens the box to 117 pt on the right, so the horizontal fit covers 81 pt. */
  lemma FullStopSample()
    ensures WordToBox("ab\U{3002}", SampleQuad(), "horizontal", 50.0).rect.right == 117.0
    ensures WordToBox("ab\U{3002}", SampleQuad(), "horizontal", 50.0).fontSize == 16.038
  {
  }
}
