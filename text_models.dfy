/**
 * The roadmapper's text layout values: a measured piece of text and the
 * rows a title is split into. The source's `Text` is a mutable object; it
 * is a value here (see README, "Left out").
 */
module TextModels {
  import opened Wrappers
  import opened BoardModels

  /** What the canvas reports for a string: advance width and the ink box above and below the baseline. */
  datatype TextMeasure = TextMeasure(width: real, height: real, ascent: real, descent: real)

  /** `new TextMeasure()`: every metric is zero. */
  const EMPTY_MEASURE: TextMeasure := TextMeasure(0.0, 0.0, 0.0, 0.0)

  /** A string together with the measure it was laid out with. */
  datatype Text = Text(text: string, measure: TextMeasure) {
    /** The measured height of the text. */
    function Height(): real { measure.height }
    /** The measured width of the text. */
    function Width(): real { measure.width }
  }

  /** `new Text()`: empty text with an all-zero measure. */
  const EMPTY_TEXT: Text := Text("", EMPTY_MEASURE)

  /** `Text.new(text, measure)`. */
  function NewText(text: string, measure: TextMeasure): (t: Text)
    ensures t.text == text && t.Width() == measure.width && t.Height() == measure.height
  {
    Text(text, measure)
  }

  /** The subset of a computed CSS style declaration that text layout reads. */
  datatype CssStyle = CssStyle(
    font: Option<string>,
    lineHeight: string,
    textAlign: string,
    textIndent: string,
    paddingLeft: string,
    paddingRight: string,
    verticalAlign: string,
    paddingTop: string,
    paddingBottom: string)

  /** The style a conversion to pixels is made against, and the root and element font sizes. */
  datatype StyleContext = StyleContext(styles: Option<CssStyle>, remFontSize: real, emFontSize: real)

  /** A text split into rows, with the style it was split under. */
  datatype SplitTextInRowResult = SplitTextInRowResult(rows: seq<Text>, style: Option<CssStyle>)

  /** `rows.reduce((acc, row) => acc + row.height(), 0)`: the left fold of the row heights. */
  function SumHeights(rows: seq<Text>): (h: real)
    ensures rows == [] ==> h == 0.0
    ensures (forall k :: 0 <= k < |rows| ==> rows[k].Height() >= 0.0) ==> h >= 0.0
  {
    if rows == [] then 0.0 else SumHeights(rows[..|rows| - 1]) + rows[|rows| - 1].Height()
  }

  /** Stacking two blocks of rows stacks their heights. */
  lemma {:induction false} SumHeightsAppend(a: seq<Text>, b: seq<Text>)
    ensures SumHeights(a + b) == SumHeights(a) + SumHeights(b)
    decreases |b|
  {
    if b == [] {
      assert a + b == a;
    } else {
      assert (a + b)[..|a + b| - 1] == a + b[..|b| - 1];
      SumHeightsAppend(a, b[..|b| - 1]);
    }
  }

  /** `SplitTextInRowResult.height()`. */
  function ResultHeight(r: SplitTextInRowResult): (h: real)
    ensures r.rows == [] ==> h == 0.0
  {
    SumHeights(r.rows)
  }

  /** `rows.reduce((max, row) => Math.max(max, row.width()), 0)`. */
  function MaxWidth(rows: seq<Text>): (w: real)
    ensures w >= 0.0
    ensures forall k :: 0 <= k < |rows| ==> rows[k].Width() <= w
    ensures w == 0.0 || exists k :: 0 <= k < |rows| && rows[k].Width() == w
  {
    if rows == [] then 0.0 else Max(MaxWidth(rows[..|rows| - 1]), rows[|rows| - 1].Width())
  }

  /** `SplitTextInRowResult.maxWidth()`. */
  function ResultMaxWidth(r: SplitTextInRowResult): (w: real)
    ensures r.rows == [] ==> w == 0.0
    ensures forall k :: 0 <= k < |r.rows| ==> r.rows[k].Width() <= w
  {
    MaxWidth(r.rows)
  }
}
