/**
 * The text-injection pass over a whole document: the page-count gate, then
 * one text box per OCR word, page by page and word by word.
 */
module Pipeline {
  import opened Wrappers
  import opened Geometry
  import opened Injector

  /** One word as the OCR result records it; `points` should hold the four corners. */
  datatype OcrWord = OcrWord(content: string, points: seq<Point>, direction: string)

  /** One page's OCR record; `words` is `None` when the record has no "words" key. */
  datatype PageRecord = PageRecord(words: Option<seq<OcrWord>>)

  datatype ConvError =
    | PageCountMismatch(pages: nat, records: nat)  // the document and the OCR result disagree on the number of pages
    | MissingCorners(page: nat, word: nat)         // a word lists fewer than four corners, so indexing them fails

  /** The words of a page, a missing "words" key counting as no words. */
  function WordsOf(rec: PageRecord): (words: seq<OcrWord>)
    ensures rec.words.None? ==> words == []
    ensures rec.words.Some? ==> words == rec.words.value
  {
    rec.words.GetOr([])
  }

  predicate HasCorners(w: OcrWord)
  {
    |w.points| >= 4
  }

  predicate PageHasCorners(rec: PageRecord)
  {
    forall j :: 0 <= j < |WordsOf(rec)| ==> HasCorners(WordsOf(rec)[j])
  }

  predicate AllHaveCorners(records: seq<PageRecord>)
  {
    forall i :: 0 <= i < |records| ==> PageHasCorners(records[i])
  }

  /** Word `j` of page `i` is the first word, in reading order, that lacks corners. */
  predicate FirstMissingCorners(records: seq<PageRecord>, i: nat, j: nat)
  {
    && i < |records|
    && j < |WordsOf(records[i])|
    && !HasCorners(WordsOf(records[i])[j])
    && (forall k :: 0 <= k < i ==> PageHasCorners(records[k]))
    && (forall m :: 0 <= m < j ==> HasCorners(WordsOf(records[i])[m]))
  }

  /**
   * The text box for one word, the measurement of its text at the baseline
   * size supplied by `measure`; `None` when the word has fewer than four
   * corners. Corners beyond the fourth are ignored.
   */
  function ConvertWord(w: OcrWord, measure: string -> real): (r: Option<TextBox>)
    ensures r.Some? <==> HasCorners(w)
    ensures r.Some? ==> r.value == WordToBox(w.content, Quad(w.points[0], w.points[1], w.points[2], w.points[3]), w.direction, measure(w.content))
  {
    if |w.points| < 4 then None
    else
      var q := Quad(w.points[0], w.points[1], w.points[2], w.points[3]);
      Some(WordToBox(w.content, q, w.direction, measure(w.content)))
  }

  /**
   * Converts every word of every page. Fails before producing any box when
   * the page count differs from the number of OCR records; otherwise yields,
   * per page, exactly one box per word in the record's order, or fails at the
   * first word that lacks corners.
   */
  method ConvertDocument(pageCount: nat, records: seq<PageRecord>, measure: string -> real)
    returns (r: Result<seq<seq<TextBox>>, ConvError>)
    ensures pageCount != |records| ==> r == Failure(PageCountMismatch(pageCount, |records|))
    ensures r.Success? <==> pageCount == |records| && AllHaveCorners(records)
    ensures r.Success? ==> |r.value| == pageCount
    ensures r.Success? ==> forall i :: 0 <= i < |records| ==>
      && |r.value[i]| == |WordsOf(records[i])|
      && (records[i].words.None? ==> r.value[i] == [])
      && (forall j :: 0 <= j < |WordsOf(records[i])| ==>
            ConvertWord(WordsOf(records[i])[j], measure) == Some(r.value[i][j]))
    ensures r.Failure? && pageCount == |records| ==>
      r.error.MissingCorners? && FirstMissingCorners(records, r.error.page, r.error.word)
  {
    if pageCount != |records| {
      return Failure(PageCountMismatch(pageCount, |records|));
    }
    var pages: seq<seq<TextBox>> := [];
    var i := 0;
    while i < |records|
      invariant 0 <= i <= |records|
      invariant |pages| == i
      invariant forall k :: 0 <= k < i ==> PageHasCorners(records[k])
      invariant forall k :: 0 <= k < i ==>
        && |pages[k]| == |WordsOf(records[k])|
        && (forall j :: 0 <= j < |WordsOf(records[k])| ==>
              ConvertWord(WordsOf(records[k])[j], measure) == Some(pages[k][j]))
    {
      var words := WordsOf(records[i]);
      var boxes: seq<TextBox> := [];
      var j := 0;
      while j < |words|
        invariant 0 <= j <= |words|
        invariant |boxes| == j
        invariant forall m :: 0 <= m < j ==> HasCorners(words[m])
        invariant forall m :: 0 <= m < j ==> ConvertWord(words[m], measure) == Some(boxes[m])
      {
        var box := ConvertWord(words[j], measure);
        if box.None? {
          return Failure(MissingCorners(i, j));
        }
        boxes := boxes + [box.value];
        j := j + 1;
      }
      pages := pages + [boxes];
      i := i + 1;
    }
    return Success(pages);
  }
}
