# re-pdf text-layer geometry, in Dafny

re-pdf rebuilds the invisible, searchable text layer of a scanned PDF from a
YomiToku OCR result. It first strips the existing text layer. Then, for every
OCR word, it draws an invisible text box over the word's position. This
project models the second pass:

- **Page-count gate.** Conversion fails when the document's page count differs
  from the number of OCR page records.
- **Per-page word loop.** A record without a `"words"` key counts as an empty
  page.
- **Per-word layout.**
  - Each pixel corner is converted to points at 200 DPI.
  - The four corners collapse to an axis-aligned box.
  - The right edge moves out 9 pt when the text ends with "。" (U+3002).
  - A font size is fitted from the text's width measured at 10 pt.
  - The box is re-anchored to its bottom edge with a band `fontsize + 3` tall.
  - The rotation is 270° for `"vertical"` and 0° otherwise.

Coordinates are exact `real`s. The text measurement is an input: a `baseWidth`
per word, or a `measure: string -> real` function for the whole document.

Modules:

- `Wrappers`: `Option` and `Result`.
- `Geometry`: points, corners, the enclosing box and the "。" margin.
- `FontFit`: the writing-axis extent, the fitted size and the rotation.
- `Injector`: the drawing band and the `TextBox` record handed to the insertion
  call.
- `Pipeline`: the OCR records and the document loop.
- `Scenarios`: worked examples.

A few behaviours of the code are easy to misread; the model follows the code:

- When the text measures zero, the size is 4.95 pt, not 5 pt. The comment at
  main.py:102 calls 5 the minimum size, but the 0.99 shrink at main.py:109
  runs after that fallback, so 5 × 0.99 = 4.95.
- Every direction string other than `"vertical"` is laid out as horizontal.
- `left <= right` and `top <= bottom` do not hold for every quadrilateral.
  They hold when some left corner is not to the right of some right corner,
  and likewise for top and bottom corners (`Geometry.EnclosingOrderedIff`).
  In particular they hold under the documented corner order.
- With a zero measurement the size is 4.95. Otherwise the size is positive
  exactly when the measurement and the extent have the same sign
  (`FontFit.FitFontSizePositiveIff`).
- The horizontal extent is the width of the already-widened box. So a trailing
  "。" also raises a horizontal word's font size
  (`Injector.FullStopEnlargesHorizontalFont`).

## Model

| member | source | states |
|---|---|---|
| Geometry.PxToPt | main.py:73-77 | each axis is scaled on its own: converted × 200 = pixels × 72 |
| Geometry.PxToPtRoundTrip | main.py:73-77 | the conversion is a bijection; converting back to pixels recovers the point |
| Geometry.PxToPtMonotone | main.py:73-77 | the conversion preserves the order of x coordinates and of y coordinates |
| Geometry.Enclosing | main.py:80-88 | left is the smaller of the converted x0 and x3; right the larger of x1 and x2; top the smaller of y0 and y1; bottom the larger of y2 and y3 |
| Geometry.EnclosingCommutesWithConversion | main.py:80-88 | picking corners in points equals picking them in pixels and converting the box |
| Geometry.EnclosingIsBoundingWhenUpright | main.py:79-88 | for corners in the documented order, the box is the true bounding box of all four corners |
| Geometry.EnclosingMissesSkewedCorner | main.py:85-88 | on a skewed quadrilateral, the box can leave a corner outside the true bounding box |
| Geometry.EnclosingOrderedIff | main.py:85-93 | left <= right exactly when some left corner's x is at most some right corner's x; top <= bottom likewise |
| Geometry.EnclosingOrdered | main.py:79-93 | x0 <= x1 and y0 <= y3 give an ordered box |
| Geometry.WordRect | main.py:90-95 | left, top and bottom are those of the enclosing box; right is unchanged or moved out by 9 |
| Geometry.WordRectWidenedIff | main.py:92 | right is exactly 9 beyond the unwidened edge iff the text ends with "。", and is unchanged iff it does not |
| Geometry.WordRectTextIndependent | main.py:90-93 | left, top and bottom never depend on the text; texts that agree on the trailing "。" give the same box |
| FontFit.FitFontSize | main.py:98-109 | zero measurement gives exactly 4.95; otherwise the text at the returned size spans 0.99 × extent, with width taken as proportional to size; positive for positive measurement and extent |
| FontFit.FitFontSizePositiveIff | main.py:101-109 | zero measurement gives a positive size; a nonzero one gives a positive size iff measurement and extent have the same sign |
| FontFit.FitFontSizeUnique | main.py:103-109 | for a nonzero measurement, the fitted size is the only size whose scaled width is 0.99 × extent |
| FontFit.FitFontSizeScalingLaw | main.py:103-109 | for a nonzero measurement w, size = 0.99 × 10 × extent / w |
| FontFit.FitFontSizeStaysInside | main.py:108-109 | with positive measurement and extent, the fitted text is strictly shorter than the extent |
| FontFit.FitFontSizeReadsOneAxis | main.py:104-105 | vertical text reads only the box height; any other direction reads only the width |
| FontFit.OtherDirectionsAreHorizontal | main.py:104-105 | every direction other than "vertical" gets the same size as "horizontal" (and the same rotation) |
| FontFit.Rotation | main.py:127 | rotation is 270 iff the direction is "vertical", 0 iff it is not |
| Injector.DrawRect | main.py:111-113 | the band keeps left, right and bottom; its height is exactly fontsize + 3 |
| Injector.DrawRectIgnoresTop | main.py:112-113 | the band does not depend on the original top edge |
| Injector.WordToBox | main.py:95-128 | the drawn box has the enclosing left and bottom, the widened right, the fitted size, a band fontsize + 3 tall, the direction's rotation, render mode 3, font japan-s, grey colour, overlay on |
| Injector.WordToBoxZeroWidth | main.py:101-113 | zero measurement draws at 4.95 pt in a 7.95 pt band |
| Injector.FullStopEnlargesHorizontalFont | main.py:92-109 | for horizontal text with positive measurement w, a trailing "。" raises the size by exactly 0.99 × 10 × 9 / w |
| Injector.FullStopLeavesVerticalFont | main.py:92-109 | a vertical word's size equals the size fitted to the unwidened box |
| Injector.WordToBoxWellFormed | main.py:79-113 | ordered corners, positive measurement and a positive span on the writing axis give a positive size and an ordered band |
| Pipeline.WordsOf | main.py:65 | a page record without a "words" key has no words; otherwise its words are the recorded list |
| Pipeline.ConvertWord | main.py:68-128 | a box exists iff the word has at least four corners; it is then the word's full text box built from its first four corners, its direction and the measurement of its text |
| Pipeline.ConvertDocument | main.py:55-67 | page-count mismatch fails before any box; success iff counts agree and every word has corners; then exactly one box per word in order, none for a page without "words"; otherwise fails at the first word lacking corners |
| Scenarios.HorizontalSample | main.py:73-113 | corners (100,100)…(100,140) at 50 pt measured width give box (36, 36, 108, 50.4), size 14.256, band from 33.144, rotation 0 |
| Scenarios.VerticalSample | main.py:104-127 | the same word written vertically fits the 14.4 pt height: size 2.8512, rotation 270 |
| Scenarios.FullStopSample | main.py:92-109 | with a trailing "。" the right edge is 117 and the horizontal size 16.038 |

## Left out

- The redaction pass (main.py:25-51) is left out. It only enumerates and redacts
  spans through the PDF library. Its effect, for example that no span remains,
  cannot be stated from this code.
- Argument parsing, JSON loading, progress bars, saving and closing the
  document are left out as I/O.
- Text measurement (`fitz.get_text_length` with font japan-s at 10 pt) is a
  parameter. Its value at 10 pt is not constrained, not even to be
  non-negative.
- FontFit.ScaledWidth: assumes that the text's width is proportional to the
  font size, i.e. that the text set at size s measures (width at 10 pt) × s / 10.
  The library's behaviour at sizes other than 10 pt is not modelled. The
  statements that the fitted text "spans 0.99 × extent" or "stays inside the
  extent" rest on this assumption. The closed form in
  `FontFit.FitFontSizeScalingLaw` does not.
- NFKC normalisation (main.py:68) is a library call. A word's `content` is
  taken as already normalised. So, for example, a halfwidth "｡" that NFKC would
  map to "。" is not widened in the model.
- FontFit.Width / FontFit.Height: `fitz.Rect.width` and `height` are modelled as
  the signed differences `right - left` and `bottom - top`. For boxes with
  reversed edges the library's definition is not modelled.
- Python floating-point rounding is not modelled; arithmetic is exact. For
  example, the fallback size is exactly 4.95 here.
- The page's text-insertion call is left out. The model produces the argument
  record (`TextBox`) that main.py:120-128 passes to it. Its return value is
  never checked in the code, so injection failure is not modelled.
- Pipeline.ConvertWord: only a word with fewer than four corners is treated as
  malformed. JSON-shape errors are excluded by the typed record. These are a
  missing "content", "points" or "direction" key, and a corner with fewer than
  two coordinates.
- Pipeline.ConvertDocument: the boxes drawn on earlier pages before a failing
  word are not modelled. The run aborts and the document is never saved, so
  the result is just the failure.
