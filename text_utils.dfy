/**
 * The roadmapper's text helpers: CSS length conversion, word splitting,
 * greedy word wrapping into rows and ellipsizing rows that overflow a
 * height. Canvas measurement (`measureTextCanvas`) and `parseFloat` are
 * foreign and are parameters: `measure(text, font)` and `parseFloat(s)`.
 */
module TextUtils {
  import opened Wrappers
  import opened Strings
  import opened TextModels
  import Collections

  /** A character that `/[0-9.\-]/` matches. */
  predicate IsNumberChar(c: char) {
    ('0' <= c <= '9') || c == '.' || c == '-'
  }

  /** `s.replace(/[0-9.\-]/g, '')`. */
  function StripNumberChars(s: string): (r: string)
    ensures |r| <= |s|
    ensures forall i :: 0 <= i < |r| ==> !IsNumberChar(r[i])
  {
    if s == [] then ""
    else if IsNumberChar(s[0]) then StripNumberChars(s[1..])
    else [s[0]] + StripNumberChars(s[1..])
  }

  /** Stripping distributes over concatenation. */
  lemma {:induction false} StripAppend(a: string, b: string)
    ensures StripNumberChars(a + b) == StripNumberChars(a) + StripNumberChars(b)
    decreases |a|
  {
    if a == [] {
      assert a + b == b;
    } else {
      assert (a + b)[0] == a[0];
      assert (a + b)[1..] == a[1..] + b;
      StripAppend(a[1..], b);
    }
  }

  /** A string without number characters is left alone. */
  lemma {:induction false} StripNothing(s: string)
    requires forall i :: 0 <= i < |s| ==> !IsNumberChar(s[i])
    ensures StripNumberChars(s) == s
    decreases |s|
  {
    if s != [] {
      StripNothing(s[1..]);
    }
  }

  /** A string of number characters only is removed entirely. */
  lemma {:induction false} StripAll(s: string)
    requires forall i :: 0 <= i < |s| ==> IsNumberChar(s[i])
    ensures StripNumberChars(s) == ""
    decreases |s|
  {
    if s != [] {
      StripAll(s[1..]);
    }
  }

  /** The unit of a CSS length: the value with digits, `.` and `-` removed, then trimmed. */
  function UnitOf(css: string): (u: string)
    ensures forall i :: 0 <= i < |u| ==> !IsNumberChar(u[i])
  {
    Trim(StripNumberChars(css))
  }

  /** The unit of a number followed by a unit name is that name. */
  lemma UnitOfNumberAndUnit(num: string, unit: string)
    requires forall i :: 0 <= i < |num| ==> IsNumberChar(num[i])
    requires forall i :: 0 <= i < |unit| ==> !IsNumberChar(unit[i])
    requires unit == [] || (!IsSpace(unit[0]) && !IsSpace(unit[|unit| - 1]))
    ensures UnitOf(num + unit) == unit
  {
    StripAppend(num, unit);
    StripAll(num);
    StripNothing(unit);
    assert StripNumberChars(num + unit) == unit;
    if unit != [] {
      TrimUnchanged(unit);
    }
  }

  /** The units `parseCssValueToPx` converts: pixels (written or implied), `rem` and `em`. */
  predicate KnownUnit(u: string) {
    u == "px" || u == "" || u == "rem" || u == "em"
  }

  /** `parseCssValueToPx`: a CSS length in pixels, or the error it throws for another unit. */
  function ParseCssValueToPx(css: string, ctx: StyleContext, parseFloat: string -> real): (r: Result<real>)
    ensures r.Err? <==> !KnownUnit(UnitOf(css))
    ensures r.Err? ==> r.msg == UnsupportedUnit(UnitOf(css))
  {
    var value := parseFloat(css);
    var unit := UnitOf(css);
    if unit == "px" || unit == "" then Ok(value)
    else if unit == "rem" then Ok(Scaled(value, ctx.remFontSize))
    else if unit == "em" then Ok(Scaled(value, ctx.emFontSize))
    else Err(UnsupportedUnit(unit))
  }

  /** A length in font-relative units converted to pixels. */
  function Scaled(value: real, fontSize: real): real {
    value * fontSize
  }

  /** The message `parseCssValueToPx` throws for a unit it does not convert. */
  function UnsupportedUnit(unit: string): string {
    "Unsupported unit: " + unit
  }

  /** A bare number is taken as pixels. */
  lemma ParseBareNumber(num: string, ctx: StyleContext, parseFloat: string -> real)
    requires forall i :: 0 <= i < |num| ==> IsNumberChar(num[i])
    ensures ParseCssValueToPx(num, ctx, parseFloat) == Ok(parseFloat(num))
  {
    UnitOfNumberAndUnit(num, "");
    assert num + "" == num;
  }

  /** A number in `px` is taken as is. */
  lemma ParsePx(num: string, ctx: StyleContext, parseFloat: string -> real)
    requires forall i :: 0 <= i < |num| ==> IsNumberChar(num[i])
    ensures ParseCssValueToPx(num + "px", ctx, parseFloat) == Ok(parseFloat(num + "px"))
  {
    UnitOfNumberAndUnit(num, "px");
  }

  /** A number in `rem` scales by the root font size. */
  lemma ParseRem(num: string, ctx: StyleContext, parseFloat: string -> real)
    requires forall i :: 0 <= i < |num| ==> IsNumberChar(num[i])
    ensures ParseCssValueToPx(num + "rem", ctx, parseFloat) == Ok(Scaled(parseFloat(num + "rem"), ctx.remFontSize))
  {
    UnitOfNumberAndUnit(num, "rem");
    ParseOfRem(num + "rem", ctx, parseFloat);
  }

  /** A number in `em` scales by the element font size. */
  lemma ParseEm(num: string, ctx: StyleContext, parseFloat: string -> real)
    requires forall i :: 0 <= i < |num| ==> IsNumberChar(num[i])
    ensures ParseCssValueToPx(num + "em", ctx, parseFloat) == Ok(Scaled(parseFloat(num + "em"), ctx.emFontSize))
  {
    UnitOfNumberAndUnit(num, "em");
    ParseOfEm(num + "em", ctx, parseFloat);
  }

  /** The conversion of a length in `rem`. */
  lemma ParseOfRem(css: string, ctx: StyleContext, parseFloat: string -> real)
    requires UnitOf(css) == "rem"
    ensures ParseCssValueToPx(css, ctx, parseFloat) == Ok(Scaled(parseFloat(css), ctx.remFontSize))
  {
    assert "rem" != "px" && "rem" != "";
  }

  /** The conversion of a length in `em`. */
  lemma ParseOfEm(css: string, ctx: StyleContext, parseFloat: string -> real)
    requires UnitOf(css) == "em"
    ensures ParseCssValueToPx(css, ctx, parseFloat) == Ok(Scaled(parseFloat(css), ctx.emFontSize))
  {
    assert "em"[0] != "px"[0];
    assert "em" != "px" && "em" != "" && "em" != "rem";
  }

  /** A number in any other unit, such as `%` or `pt`, is refused with that unit in the message. */
  lemma ParseOtherUnit(num: string, unit: string, ctx: StyleContext, parseFloat: string -> real)
    requires forall i :: 0 <= i < |num| ==> IsNumberChar(num[i])
    requires forall i :: 0 <= i < |unit| ==> !IsNumberChar(unit[i])
    requires unit != [] && !IsSpace(unit[0]) && !IsSpace(unit[|unit| - 1])
    requires !KnownUnit(unit)
    ensures ParseCssValueToPx(num + unit, ctx, parseFloat) == Err(UnsupportedUnit(unit))
  {
    UnitOfNumberAndUnit(num, unit);
  }

  /** The left fold of `convert` over `values` from 0, stopping at the first error (a `reduce` whose callback throws). */
  function SumConverted(values: seq<string>, convert: string -> Result<real>): (r: Result<real>)
    ensures values == [] ==> r == Ok(0.0)
  {
    if values == [] then Ok(0.0)
    else
      match SumConverted(values[..|values| - 1], convert)
      case Err(e) => Err(e)
      case Ok(sum) =>
        match convert(values[|values| - 1])
        case Err(e) => Err(e)
        case Ok(v) => Ok(sum + v)
  }

  /** The fold succeeds exactly when every value converts. */
  lemma {:induction false} SumConvertedOkIff(values: seq<string>, convert: string -> Result<real>)
    ensures SumConverted(values, convert).Ok? <==> forall k :: 0 <= k < |values| ==> convert(values[k]).Ok?
    decreases |values|
  {
    if values != [] {
      var front := values[..|values| - 1];
      SumConvertedOkIff(front, convert);
      assert forall k :: 0 <= k < |front| ==> front[k] == values[k];
    }
  }

  /** A failing fold reports the error of its first failing value. */
  lemma {:induction false} SumConvertedFirstError(values: seq<string>, convert: string -> Result<real>)
    requires SumConverted(values, convert).Err?
    ensures exists k :: (0 <= k < |values|
      && (forall j :: 0 <= j < k ==> convert(values[j]).Ok?)
      && convert(values[k]) == SumConverted(values, convert))
    decreases |values|
  {
    var front := values[..|values| - 1];
    if SumConverted(front, convert).Err? {
      SumConvertedFirstError(front, convert);
      var k :| 0 <= k < |front|
        && (forall j :: 0 <= j < k ==> convert(front[j]).Ok?)
        && convert(front[k]) == SumConverted(front, convert);
      assert front[k] == values[k];
      assert forall j :: 0 <= j < k ==> front[j] == values[j];
    } else {
      var k := |values| - 1;
      SumConvertedOkIff(front, convert);
      assert forall j :: 0 <= j < k ==> values[j] == front[j];
    }
  }

  /** Folding two lists that both succeed adds their sums. */
  lemma {:induction false} SumConvertedAppend(a: seq<string>, b: seq<string>, convert: string -> Result<real>)
    requires SumConverted(a, convert).Ok? && SumConverted(b, convert).Ok?
    ensures SumConverted(a + b, convert) == Ok(SumConverted(a, convert).value + SumConverted(b, convert).value)
    decreases |b|
  {
    if b == [] {
      assert a + b == a;
    } else {
      var front := b[..|b| - 1];
      assert (a + b)[..|a + b| - 1] == a + front;
      assert (a + b)[|a + b| - 1] == b[|b| - 1];
      SumConvertedAppend(a, front, convert);
    }
  }

  /** Every value has a supported unit. */
  predicate AllConvert(values: seq<string>, ctx: StyleContext, parseFloat: string -> real) {
    forall k :: 0 <= k < |values| ==> ParseCssValueToPx(values[k], ctx, parseFloat).Ok?
  }

  /** The conversion `sumCssValuesToPx` applies to each value. */
  function ToPx(ctx: StyleContext, parseFloat: string -> real): string -> Result<real> {
    v => ParseCssValueToPx(v, ctx, parseFloat)
  }

  /** `sumCssValuesToPx`: the sum of the values in pixels, failing exactly when one of them fails to convert. */
  function SumCssValuesToPx(ctx: StyleContext, values: seq<string>, parseFloat: string -> real): (r: Result<real>)
    ensures values == [] ==> r == Ok(0.0)
    ensures r.Ok? <==> AllConvert(values, ctx, parseFloat)
  {
    var convert := ToPx(ctx, parseFloat);
    assert SumConverted(values, convert).Ok? <==> forall k :: 0 <= k < |values| ==> convert(values[k]).Ok? by {
      SumConvertedOkIff(values, convert);
    }
    SumConverted(values, convert)
  }

  /** A failing sum reports the error of its first failing value: an unsupported unit. */
  lemma SumReportsFirstError(ctx: StyleContext, values: seq<string>, parseFloat: string -> real)
    requires SumCssValuesToPx(ctx, values, parseFloat).Err?
    ensures exists k :: (0 <= k < |values|
      && (forall j :: 0 <= j < k ==> ParseCssValueToPx(values[j], ctx, parseFloat).Ok?)
      && ParseCssValueToPx(values[k], ctx, parseFloat) == SumCssValuesToPx(ctx, values, parseFloat))
  {
    SumConvertedFirstError(values, ToPx(ctx, parseFloat));
  }

  /** `splitsText`: the words of `text` between runs of whitespace. */
  function SplitsText(text: string): (words: seq<string>)
    ensures |words| >= 1
    ensures forall k :: 0 <= k < |words| ==> NoSpace(words[k])
  {
    SplitWs(text)
  }

  /** `removeLastWord`: the trimmed text without its last word, the rest re-joined with single spaces. */
  function RemoveLastWord(text: string): string {
    var parts := SplitWs(Trim(text));
    Join(parts[..|parts| - 1], " ")
  }

  /** A text that is a single word, however padded, loses everything. */
  lemma {:induction false} RemoveOnlyWord(text: string)
    requires NoSpace(Trim(text))
    ensures RemoveLastWord(text) == ""
  {
    var t := Trim(text);
    assert FirstSpace(t) == |t|;
  }

  /** Removing the last word of words joined by spaces gives the other words joined by spaces. */
  lemma RemoveLastWordOfWords(words: seq<string>)
    requires |words| >= 1 && forall k :: 0 <= k < |words| ==> |words[k]| > 0 && NoSpace(words[k])
    ensures RemoveLastWord(Join(words, " ")) == Join(words[..|words| - 1], " ")
  {
    JoinWordsTrimmed(words);
    SplitWsJoin(words);
    RemoveLastWordOfParts(Join(words, " "), words);
  }

  /** `removeLastWord` re-joins all but the last of the pieces the trimmed text splits into. */
  lemma RemoveLastWordOfParts(text: string, parts: seq<string>)
    requires parts == SplitWs(Trim(text))
    ensures RemoveLastWord(text) == Join(parts[..|parts| - 1], " ")
  {
  }

  /** The font text is measured with: `${style.font}` renders an absent font as `undefined`. */
  function FontOf(style: CssStyle): string {
    style.font.GetOr("undefined")
  }

  /** The texts of the rows, in order. */
  function Texts(rows: seq<Text>): (r: seq<string>)
    ensures |r| == |rows|
  {
    seq(|rows|, k requires 0 <= k < |rows| => rows[k].text)
  }

  /**
   * One step of `splitsTextInRows`: the word joins the last row, after a space,
   * when the joined text still fits `maxWidth`; otherwise it starts a new row.
   */
  function WrapStep(rows: seq<Text>, word: string, measure: (string, string) -> TextMeasure, font: string, maxWidth: real): (r: seq<Text>)
    requires |rows| >= 1
    ensures |r| >= |rows| && r[..|rows| - 1] == rows[..|rows| - 1]
  {
    var last := |rows| - 1;
    var joined := rows[last].text + " " + word;
    if measure(joined, font).width > maxWidth then rows + [NewText(word, measure(word, font))]
    else rows[..last] + [NewText(joined, measure(joined, font))]
  }

  /** The two outcomes of `WrapStep`, by whether the joined text overflows. */
  lemma WrapStepCases(rows: seq<Text>, word: string, measure: (string, string) -> TextMeasure, font: string, maxWidth: real)
    requires |rows| >= 1
    ensures var last := |rows| - 1; var joined := rows[last].text + " " + word;
      && (measure(joined, font).width > maxWidth ==> WrapStep(rows, word, measure, font, maxWidth) == rows + [NewText(word, measure(word, font))])
      && (measure(joined, font).width <= maxWidth ==> WrapStep(rows, word, measure, font, maxWidth) == rows[..last] + [NewText(joined, measure(joined, font))])
  {
  }

  /** The rows after placing every word of `words`, in order, starting from `rows`. */
  function WrapFrom(rows: seq<Text>, words: seq<string>, measure: (string, string) -> TextMeasure, font: string, maxWidth: real): (r: seq<Text>)
    requires |rows| >= 1
    ensures |rows| <= |r| <= |rows| + |words|
    ensures r[..|rows| - 1] == rows[..|rows| - 1]
    decreases |words|
  {
    if words == [] then rows
    else WrapFrom(WrapStep(rows, words[0], measure, font, maxWidth), words[1..], measure, font, maxWidth)
  }

  /** Placing the words from index `i` on is placing word `i`, then the words after it. */
  lemma WrapFromAt(rows: seq<Text>, words: seq<string>, i: nat, measure: (string, string) -> TextMeasure, font: string, maxWidth: real)
    requires |rows| >= 1 && i < |words|
    ensures WrapFrom(rows, words[i..], measure, font, maxWidth)
      == WrapFrom(WrapStep(rows, words[i], measure, font, maxWidth), words[i + 1..], measure, font, maxWidth)
  {
    assert words[i..][1..] == words[i + 1..];
  }

  /** The rows of `text` split greedily under `maxWidth`, the first row starting empty. */
  function WrappedRows(text: string, measure: (string, string) -> TextMeasure, font: string, maxWidth: real): seq<Text> {
    WrapFrom([EMPTY_TEXT], SplitsText(text), measure, font, maxWidth)
  }

  /** `splitsTextInRows`. */
  method SplitsTextInRows(text: string, style: CssStyle, maxWidth: real, measure: (string, string) -> TextMeasure)
    returns (result: SplitTextInRowResult)
    ensures result.style == Some(style)
    ensures result.rows == WrappedRows(text, measure, FontOf(style), maxWidth)
  {
    var font := FontOf(style);
    var fragments := SplitsText(text);
    var rows := WrapWords(fragments, measure, font, maxWidth);
    result := SplitTextInRowResult(rows, Some(style));
  }

  /**
   * The loop of `splitsTextInRows`: each fragment is appended, after a space,
   * to the current row, which is measured again; when the joined text is
   * wider than `maxWidth` the fragment starts a new row instead.
   */
  method WrapWords(fragments: seq<string>, measure: (string, string) -> TextMeasure, font: string, maxWidth: real)
    returns (rows: seq<Text>)
    ensures rows == WrapFrom([EMPTY_TEXT], fragments, measure, font, maxWidth)
  {
    var rowId := 0;
    rows := [EMPTY_TEXT];
    var i := 0;
    while i < |fragments|
      invariant 0 <= i <= |fragments|
      invariant |rows| >= 1 && rowId == |rows| - 1
      invariant WrapFrom(rows, fragments[i..], measure, font, maxWidth) == WrapFrom([EMPTY_TEXT], fragments, measure, font, maxWidth)
    {
      var fragment := fragments[i];
      var joined := rows[rowId].text + " " + fragment;
      var textSize := measure(joined, font);
      ghost var before := rows;
      WrapFromAt(rows, fragments, i, measure, font, maxWidth);
      WrapStepCases(rows, fragment, measure, font, maxWidth);
      if textSize.width > maxWidth {
        rowId := rowId + 1;
        rows := rows + [NewText(fragment, measure(fragment, font))];
      } else {
        rows := rows[rowId := Text(joined, rows[rowId].measure)];
        rows := rows[rowId := Text(rows[rowId].text, measure(rows[rowId].text, font))];
        assert rows == before[..rowId] + [NewText(joined, measure(joined, font))];
      }
      assert rows == WrapStep(before, fragment, measure, font, maxWidth);
      i := i + 1;
    }
  }

  /** The texts of rows with one more row. */
  lemma TextsSnoc(rows: seq<Text>, t: Text)
    ensures Texts(rows + [t]) == Texts(rows) + [t.text]
  {
    assert (rows + [t])[..|rows|] == rows;
  }

  /** Every step appends the word, after a space, to the space-joined text of the rows. */
  lemma WrapStepText(rows: seq<Text>, word: string, measure: (string, string) -> TextMeasure, font: string, maxWidth: real)
    requires |rows| >= 1
    ensures Join(Texts(WrapStep(rows, word, measure, font, maxWidth)), " ") == Join(Texts(rows), " ") + " " + word
  {
    var r := WrapStep(rows, word, measure, font, maxWidth);
    var last := |rows| - 1;
    var joined := rows[last].text + " " + word;
    if measure(joined, font).width > maxWidth {
      assert r == rows + [Text(word, measure(word, font))];
      TextsSnoc(rows, Text(word, measure(word, font)));
      JoinSnoc(Texts(rows), word, " ");
    } else {
      var front := rows[..last];
      var t := Text(joined, measure(joined, font));
      assert r == front + [t];
      assert rows == front + [rows[last]];
      TextsSnoc(front, t);
      TextsSnoc(front, rows[last]);
      if last == 0 {
        assert Texts(front) == [];
      } else {
        JoinSnoc(Texts(front), joined, " ");
        JoinSnoc(Texts(front), rows[last].text, " ");
      }
    }
  }

  /** Joining two non-empty lists with a separator joins their joins with it. */
  lemma {:induction false} JoinAppend(a: seq<string>, b: seq<string>, sep: string)
    requires |a| >= 1 && |b| >= 1
    ensures Join(a + b, sep) == Join(a, sep) + sep + Join(b, sep)
    decreases |a|
  {
    if |a| == 1 {
      assert (a + b)[1..] == b;
    } else {
      assert (a + b)[1..] == a[1..] + b;
      JoinAppend(a[1..], b, sep);
    }
  }

  /** Wrapping keeps every word, in order: the rows joined by spaces are the starting rows and the words joined by spaces. */
  lemma {:induction false} WrapKeepsWords(rows: seq<Text>, words: seq<string>, measure: (string, string) -> TextMeasure, font: string, maxWidth: real)
    requires |rows| >= 1
    ensures Join(Texts(WrapFrom(rows, words, measure, font, maxWidth)), " ") == Join(Texts(rows) + words, " ")
    decreases |words|
  {
    if words == [] {
      assert Texts(rows) + words == Texts(rows);
    } else {
      var next := WrapStep(rows, words[0], measure, font, maxWidth);
      WrapKeepsWords(next, words[1..], measure, font, maxWidth);
      WrapStepText(rows, words[0], measure, font, maxWidth);
      JoinSnoc(Texts(rows), words[0], " ");
      assert words == [words[0]] + words[1..];
      Collections.AppendAssoc(Texts(rows), [words[0]], words[1..]);
      if words[1..] == [] {
        assert Texts(next) + words[1..] == Texts(next);
        assert Texts(rows) + words == Texts(rows) + [words[0]];
      } else {
        JoinAppend(Texts(next), words[1..], " ");
        JoinAppend(Texts(rows) + [words[0]], words[1..], " ");
      }
    }
  }

  /** The split rows, joined by spaces, are the words of the text joined by single spaces after a leading space. */
  lemma SplitKeepsText(text: string, measure: (string, string) -> TextMeasure, font: string, maxWidth: real)
    ensures Join(Texts(WrappedRows(text, measure, font, maxWidth)), " ") == " " + Join(SplitsText(text), " ")
  {
    WrapFromEmptyRow(SplitsText(text), measure, font, maxWidth);
  }

  /** Wrapping words from a single empty row gives, joined by spaces, the words after a leading space. */
  lemma WrapFromEmptyRow(words: seq<string>, measure: (string, string) -> TextMeasure, font: string, maxWidth: real)
    requires |words| >= 1
    ensures Join(Texts(WrapFrom([EMPTY_TEXT], words, measure, font, maxWidth)), " ") == " " + Join(words, " ")
  {
    WrapKeepsWords([EMPTY_TEXT], words, measure, font, maxWidth);
    assert Texts([EMPTY_TEXT]) == [""];
    JoinAppend([""], words, " ");
    assert Join([""], " ") + " " == " ";
  }

  /** A row fits: it is no wider than `maxWidth`, or it holds a single word of `words` that alone is too wide. */
  predicate RowFits(row: Text, words: seq<string>, maxWidth: real) {
    row.Width() <= maxWidth || row.text in words
  }

  /** Every row fits. */
  predicate AllRowsFit(rows: seq<Text>, words: seq<string>, maxWidth: real) {
    forall k :: 0 <= k < |rows| ==> RowFits(rows[k], words, maxWidth)
  }

  /** Wrapping keeps every row fitting: only a row holding a single word can be wider than `maxWidth`. */
  lemma {:induction false} WrapRowsFit(rows: seq<Text>, words: seq<string>, all: seq<string>, measure: (string, string) -> TextMeasure, font: string, maxWidth: real)
    requires |rows| >= 1
    requires forall k :: 0 <= k < |words| ==> words[k] in all
    requires AllRowsFit(rows, all, maxWidth)
    ensures AllRowsFit(WrapFrom(rows, words, measure, font, maxWidth), all, maxWidth)
    decreases |words|
  {
    if words != [] {
      var next := WrapStep(rows, words[0], measure, font, maxWidth);
      assert AllRowsFit(next, all, maxWidth) by {
        var last := |rows| - 1;
        var joined := rows[last].text + " " + words[0];
        assert words[0] in all;
        if measure(joined, font).width > maxWidth {
          assert next == rows + [Text(words[0], measure(words[0], font))];
        } else {
          assert next == rows[..last] + [Text(joined, measure(joined, font))];
        }
        forall k | 0 <= k < |next|
          ensures RowFits(next[k], all, maxWidth)
        {
          if k < last {
            assert next[k] == next[..last][k] == rows[k];
          }
        }
      }
      assert forall k :: 0 <= k < |words[1..]| ==> words[1..][k] == words[k + 1];
      WrapRowsFit(next, words[1..], all, measure, font, maxWidth);
      assert WrapFrom(rows, words, measure, font, maxWidth) == WrapFrom(next, words[1..], measure, font, maxWidth);
    } else {
      assert WrapFrom(rows, words, measure, font, maxWidth) == rows;
    }
  }

  /** Every row of a split text fits under a non-negative `maxWidth` or is a single over-wide word of the text. */
  lemma SplitRowsFit(text: string, measure: (string, string) -> TextMeasure, font: string, maxWidth: real)
    requires maxWidth >= 0.0
    ensures AllRowsFit(WrappedRows(text, measure, font, maxWidth), SplitsText(text), maxWidth)
  {
    var words := SplitsText(text);
    assert AllRowsFit([EMPTY_TEXT], words, maxWidth);
    assert forall k :: 0 <= k < |words| ==> words[k] in words;
    WrapRowsFit([EMPTY_TEXT], words, words, measure, font, maxWidth);
  }

  /** The last kept row at an overflow: its last word replaced by an ellipsis, then measured again. */
  function Ellipsized(row: Text, measure: (string, string) -> TextMeasure, font: string): (r: Text)
    ensures r.text == RemoveLastWord(row.text) + " ..."
  {
    var t := RemoveLastWord(row.text) + " ...";
    NewText(t, measure(t, font))
  }

  /** The height of `count` rows of `lineHeight` each, added one row at a time. */
  function Stacked(count: nat, lineHeight: real): real {
    if count == 0 then 0.0 else Stacked(count - 1, lineHeight) + lineHeight
  }

  /** Row `j` (from 0), at `lineHeight` per row, ends within `maxHeight`. */
  predicate RowEndsWithin(j: nat, lineHeight: real, maxHeight: real) {
    Stacked(j + 1, lineHeight) <= maxHeight
  }

  /** The index of the first row from `i` on whose cumulative line height exceeds `maxHeight`, or `n` when none does. */
  function FirstOverflow(i: nat, n: nat, lineHeight: real, maxHeight: real): (k: nat)
    requires i <= n
    ensures i <= k <= n
    ensures forall j :: i <= j < k ==> RowEndsWithin(j, lineHeight, maxHeight)
    ensures k < n ==> !RowEndsWithin(k, lineHeight, maxHeight)
    decreases n - i
  {
    if i == n then n
    else if !RowEndsWithin(i, lineHeight, maxHeight) then i
    else FirstOverflow(i + 1, n, lineHeight, maxHeight)
  }

  /** The message `ellipsizeRows` throws for a missing style or font. */
  const STYLE_NOT_DEFINED: string := "style not defined (CSSStyleDeclaration)"

  /** The message of the TypeError raised when the very first row overflows (there is no row to ellipsize). */
  const NO_ROW_TO_ELLIPSIZE: string := "Cannot set properties of undefined (setting 'text')"

  /**
   * What `ellipsizeRows` returns: every row when all fit; otherwise the rows
   * before the first overflowing one, the last of them ellipsized.
   */
  function EllipsizedRows(split: SplitTextInRowResult, maxHeight: real, ctx: StyleContext,
                          parseFloat: string -> real, measure: (string, string) -> TextMeasure): (r: Result<seq<Text>>)
    ensures split.style.None? || split.style.value.font.None? ==> r == Err(STYLE_NOT_DEFINED)
    ensures r.Ok? ==> |r.value| <= |split.rows|
  {
    if split.style.None? || split.style.value.font.None? then Err(STYLE_NOT_DEFINED)
    else StackedRows(split.rows, split.style.value.lineHeight, split.style.value.font.value, maxHeight, ctx, parseFloat, measure)
  }

  /** The loop of `ellipsizeRows` once the font is known: no rows, the line-height error, or the rows kept. */
  function StackedRows(rows: seq<Text>, lineHeight: string, font: string, maxHeight: real, ctx: StyleContext,
                       parseFloat: string -> real, measure: (string, string) -> TextMeasure): Result<seq<Text>>
  {
    if rows == [] then Ok([])
    else
      match ParseCssValueToPx(lineHeight, ctx, parseFloat)
      case Err(e) => Err(e)
      case Ok(lh) => KeptRows(rows, lh, maxHeight, measure, font)
  }

  /** The rows kept at `lineHeight` per row under `maxHeight`, the last one ellipsized when some row overflows. */
  function KeptRows(rows: seq<Text>, lineHeight: real, maxHeight: real, measure: (string, string) -> TextMeasure, font: string): (r: Result<seq<Text>>)
    ensures r.Err? <==> |rows| > 0 && !RowEndsWithin(0, lineHeight, maxHeight)
    ensures r.Ok? ==> |r.value| <= |rows|
    ensures r.Ok? && r.value != [] ==> RowEndsWithin(|r.value| - 1, lineHeight, maxHeight)
    ensures r.Ok? && |r.value| < |rows| ==> !RowEndsWithin(|r.value|, lineHeight, maxHeight)
  {
    var k := FirstOverflow(0, |rows|, lineHeight, maxHeight);
    if k == |rows| then Ok(rows)
    else if k == 0 then Err(NO_ROW_TO_ELLIPSIZE)
    else Ok(rows[..k - 1] + [Ellipsized(rows[k - 1], measure, font)])
  }

  /** `StackedRows` case by case: no rows, the line-height error, or the rows kept at the parsed height. */
  lemma StackedRowsCases(split: seq<Text>, lineHeightCss: string, font: string, maxHeight: real, ctx: StyleContext,
                         parseFloat: string -> real, measure: (string, string) -> TextMeasure)
    ensures var parsed := ParseCssValueToPx(lineHeightCss, ctx, parseFloat);
      var r := StackedRows(split, lineHeightCss, font, maxHeight, ctx, parseFloat, measure);
      && (split == [] ==> r == Ok([]))
      && (split != [] && parsed.Err? ==> r == Err(parsed.msg))
      && (split != [] && parsed.Ok? ==> r == KeptRows(split, parsed.value, maxHeight, measure, font))
  {
  }

  /** `KeptRows` when row `i` is the first to overflow, in terms of the prefix of rows before it. */
  lemma KeptRowsAt(rows: seq<Text>, lineHeight: real, maxHeight: real, measure: (string, string) -> TextMeasure, font: string, i: nat)
    requires i < |rows| && FirstOverflow(0, |rows|, lineHeight, maxHeight) == i
    ensures i == 0 ==> KeptRows(rows, lineHeight, maxHeight, measure, font) == Err(NO_ROW_TO_ELLIPSIZE)
    ensures i > 0 ==> (KeptRows(rows, lineHeight, maxHeight, measure, font)
      == Ok(rows[..i][..i - 1] + [Ellipsized(rows[..i][i - 1], measure, font)]))
  {
    if i > 0 {
      assert rows[..i][..i - 1] == rows[..i - 1];
    }
  }

  /** `StackedRows` when row `i` is the first to overflow: the failure at row 0, else the earlier rows with the last ellipsized. */
  lemma StackedRowsOverflow(split: seq<Text>, lineHeightCss: string, font: string, maxHeight: real, ctx: StyleContext,
                            parseFloat: string -> real, measure: (string, string) -> TextMeasure, i: nat)
    requires i < |split| && ParseCssValueToPx(lineHeightCss, ctx, parseFloat).Ok?
    requires FirstOverflow(0, |split|, ParseCssValueToPx(lineHeightCss, ctx, parseFloat).value, maxHeight) == i
    ensures i == 0 ==> StackedRows(split, lineHeightCss, font, maxHeight, ctx, parseFloat, measure) == Err(NO_ROW_TO_ELLIPSIZE)
    ensures i > 0 ==>
      StackedRows(split, lineHeightCss, font, maxHeight, ctx, parseFloat, measure) == Ok(split[..i - 1] + [Ellipsized(split[i - 1], measure, font)])
  {
    var lh := ParseCssValueToPx(lineHeightCss, ctx, parseFloat).value;
    assert StackedRows(split, lineHeightCss, font, maxHeight, ctx, parseFloat, measure) == KeptRows(split, lh, maxHeight, measure, font);
  }

  /** Where row `i` stands relative to the first overflow, given that no row before it overflowed. */
  lemma FirstOverflowAt(i: nat, n: nat, lineHeight: real, maxHeight: real)
    requires i < n && FirstOverflow(0, n, lineHeight, maxHeight) >= i
    ensures RowEndsWithin(i, lineHeight, maxHeight) ==> FirstOverflow(0, n, lineHeight, maxHeight) >= i + 1
    ensures !RowEndsWithin(i, lineHeight, maxHeight) ==> FirstOverflow(0, n, lineHeight, maxHeight) == i
  {
  }

  /** The overflow step of `ellipsizeRows`: the last kept row, in place, gets its last word replaced by an ellipsis. */
  method EllipsizeLast(rows: seq<Text>, measure: (string, string) -> TextMeasure, font: string) returns (r: Result<seq<Text>>)
    ensures |rows| == 0 ==> r == Err(NO_ROW_TO_ELLIPSIZE)
    ensures |rows| > 0 ==> r == Ok(rows[..|rows| - 1] + [Ellipsized(rows[|rows| - 1], measure, font)])
  {
    if |rows| == 0 {
      return Err(NO_ROW_TO_ELLIPSIZE);
    }
    var lastId := |rows| - 1;
    var last := Ellipsized(rows[lastId], measure, font);
    assert rows[lastId := last] == rows[..lastId] + [last];
    r := Ok(rows[lastId := last]);
  }

  /** `ellipsizeRows`. */
  method EllipsizeRows(split: SplitTextInRowResult, maxHeight: real, ctx: StyleContext,
                       parseFloat: string -> real, measure: (string, string) -> TextMeasure)
    returns (result: Result<seq<Text>>)
    ensures result == EllipsizedRows(split, maxHeight, ctx, parseFloat, measure)
  {
    if split.style.None? || split.style.value.font.None? {
      return Err(STYLE_NOT_DEFINED);
    }
    var style := split.style.value;
    result := StackRows(split.rows, style.lineHeight, style.font.value, maxHeight, ctx, parseFloat, measure);
  }

  /**
   * The loop of `ellipsizeRows`: adds a line height per row and keeps the
   * row while the total fits; at the first row that does not fit, ellipsizes
   * the last kept row and stops.
   */
  method StackRows(split: seq<Text>, lineHeightCss: string, font: string, maxHeight: real, ctx: StyleContext,
                   parseFloat: string -> real, measure: (string, string) -> TextMeasure)
    returns (result: Result<seq<Text>>)
    ensures result == StackedRows(split, lineHeightCss, font, maxHeight, ctx, parseFloat, measure)
  {
    ghost var parsed := ParseCssValueToPx(lineHeightCss, ctx, parseFloat);
    ghost var lhv := if parsed.Ok? then parsed.value else 0.0;
    ghost var n := |split|;
    var rows: seq<Text> := [];
    var height := 0.0;
    var i := 0;
    while i < |split|
      invariant 0 <= i <= n
      invariant rows == split[..i]
      invariant i > 0 ==> parsed == Ok(lhv)
      invariant height == Stacked(i, lhv)
      invariant FirstOverflow(0, n, lhv, maxHeight) >= i
    {
      var row := split[i];
      var lineHeight := ParseCssValueToPx(lineHeightCss, ctx, parseFloat);
      if lineHeight.Err? {
        StackedRowsCases(split, lineHeightCss, font, maxHeight, ctx, parseFloat, measure);
        return Err(lineHeight.msg);
      }
      var lh := lineHeight.value;
      assert lh == lhv && Stacked(i + 1, lhv) == Stacked(i, lhv) + lhv;
      height := height + lh;
      FirstOverflowAt(i, n, lh, maxHeight);
      if height > maxHeight {
        assert FirstOverflow(0, n, lh, maxHeight) == i;
        StackedRowsOverflow(split, lineHeightCss, font, maxHeight, ctx, parseFloat, measure, i);
        result := EllipsizeLast(rows, measure, font);
        if i > 0 {
          assert rows[..i - 1] == split[..i - 1];
        }
        return;
      }
      Collections.TakeSnoc(split, i);
      rows := rows + [row];
      i := i + 1;
    }
    assert rows == split;
    StackedRowsCases(split, lineHeightCss, font, maxHeight, ctx, parseFloat, measure);
    return Ok(rows);
  }

  /**
   * Ellipsizing never adds rows: it returns every row, or a prefix of them
   * whose last row is the ellipsized original.
   */
  lemma EllipsizeKeepsPrefix(split: SplitTextInRowResult, maxHeight: real, ctx: StyleContext,
                             parseFloat: string -> real, measure: (string, string) -> TextMeasure)
    ensures var r := EllipsizedRows(split, maxHeight, ctx, parseFloat, measure);
      r.Ok? ==> (|r.value| <= |split.rows|
        && (r.value == split.rows
            || (|r.value| > 0 && r.value[..|r.value| - 1] == split.rows[..|r.value| - 1]
                && r.value[|r.value| - 1] == Ellipsized(split.rows[|r.value| - 1], measure, split.style.value.font.value))))
  {
    var r := EllipsizedRows(split, maxHeight, ctx, parseFloat, measure);
    if r.Ok? && split.rows != [] {
      var style := split.style.value;
      var lh := ParseCssValueToPx(style.lineHeight, ctx, parseFloat).value;
      var k := FirstOverflow(0, |split.rows|, lh, maxHeight);
      if k < |split.rows| {
        StackedRowsOverflow(split.rows, style.lineHeight, style.font.value, maxHeight, ctx, parseFloat, measure, k);
        assert r.value == split.rows[..k - 1] + [Ellipsized(split.rows[k - 1], measure, style.font.value)];
        assert r.value[..k - 1] == split.rows[..k - 1];
      }
    }
  }

  /** The rows returned fit: their count times the line height is at most `maxHeight`. */
  lemma EllipsizedRowsFit(split: SplitTextInRowResult, maxHeight: real, ctx: StyleContext,
                          parseFloat: string -> real, measure: (string, string) -> TextMeasure)
    requires split.style.Some? && split.rows != []
    requires ParseCssValueToPx(split.style.value.lineHeight, ctx, parseFloat).Ok?
    ensures var r := EllipsizedRows(split, maxHeight, ctx, parseFloat, measure);
      r.Ok? ==> Stacked(|r.value|, ParseCssValueToPx(split.style.value.lineHeight, ctx, parseFloat).value) <= maxHeight
  {
    var r := EllipsizedRows(split, maxHeight, ctx, parseFloat, measure);
    var lh := ParseCssValueToPx(split.style.value.lineHeight, ctx, parseFloat).value;
    var k := FirstOverflow(0, |split.rows|, lh, maxHeight);
    if r.Ok? {
      assert |r.value| == k;
      if k > 0 {
        assert RowEndsWithin(k - 1, lh, maxHeight);
      }
    }
  }

  /** When the first row already overflows, there is no previous row to ellipsize and the call fails. */
  lemma FirstRowOverflowFails(split: SplitTextInRowResult, maxHeight: real, ctx: StyleContext,
                              parseFloat: string -> real, measure: (string, string) -> TextMeasure)
    requires split.style.Some? && split.style.value.font.Some? && split.rows != []
    requires ParseCssValueToPx(split.style.value.lineHeight, ctx, parseFloat).Ok?
    requires ParseCssValueToPx(split.style.value.lineHeight, ctx, parseFloat).value > maxHeight
    ensures EllipsizedRows(split, maxHeight, ctx, parseFloat, measure) == Err(NO_ROW_TO_ELLIPSIZE)
  {
    var lh := ParseCssValueToPx(split.style.value.lineHeight, ctx, parseFloat).value;
    assert Stacked(1, lh) == Stacked(0, lh) + lh;
  }

  /**
   * The rows kept as `ellipsizeRows` evidently intends them: as `KeptRows`,
   * except that a first row that already overflows leaves no row rather
   * than failing.
   */
  function CorrectedKeptRows(rows: seq<Text>, lineHeight: real, maxHeight: real, measure: (string, string) -> TextMeasure, font: string): Result<seq<Text>> {
    var k := FirstOverflow(0, |rows|, lineHeight, maxHeight);
    if k == |rows| then Ok(rows)
    else if k == 0 then Ok([])
    else Ok(rows[..k - 1] + [Ellipsized(rows[k - 1], measure, font)])
  }

  /** `ellipsizeRows` with the first-row overflow guarded. */
  function CorrectedEllipsizedRows(split: SplitTextInRowResult, maxHeight: real, ctx: StyleContext,
                                   parseFloat: string -> real, measure: (string, string) -> TextMeasure): (r: Result<seq<Text>>)
    ensures split.style.None? || split.style.value.font.None? ==> r == Err(STYLE_NOT_DEFINED)
    ensures r.Ok? ==> |r.value| <= |split.rows|
  {
    if split.style.None? || split.style.value.font.None? then Err(STYLE_NOT_DEFINED)
    else if split.rows == [] then Ok([])
    else
      match ParseCssValueToPx(split.style.value.lineHeight, ctx, parseFloat)
      case Err(e) => Err(e)
      case Ok(lh) => CorrectedKeptRows(split.rows, lh, maxHeight, measure, split.style.value.font.value)
  }

  /**
   * With a style, a font and a line height that parses, the guarded version
   * always yields rows, they fit under `maxHeight`, and wherever the version
   * as written succeeds the two agree.
   */
  lemma CorrectedEllipsizedRowsFit(split: SplitTextInRowResult, maxHeight: real, ctx: StyleContext,
                                   parseFloat: string -> real, measure: (string, string) -> TextMeasure)
    requires split.style.Some? && split.style.value.font.Some?
    requires ParseCssValueToPx(split.style.value.lineHeight, ctx, parseFloat).Ok?
    ensures var r := CorrectedEllipsizedRows(split, maxHeight, ctx, parseFloat, measure);
      && r.Ok? && |r.value| <= |split.rows|
      && (|r.value| > 0 ==> Stacked(|r.value|, ParseCssValueToPx(split.style.value.lineHeight, ctx, parseFloat).value) <= maxHeight)
      && (EllipsizedRows(split, maxHeight, ctx, parseFloat, measure).Ok? ==> r == EllipsizedRows(split, maxHeight, ctx, parseFloat, measure))
  {
    if split.rows != [] {
      var lh := ParseCssValueToPx(split.style.value.lineHeight, ctx, parseFloat).value;
      var k := FirstOverflow(0, |split.rows|, lh, maxHeight);
      if k > 0 {
        assert RowEndsWithin(k - 1, lh, maxHeight);
      }
    }
  }

  /** Text placement read from the style: horizontal alignment and indents, vertical alignment and spacing, in pixels. */
  datatype TextPosition = TextPosition(
    horizontalAlign: string, indent: real, paddingLeft: real, paddingRight: real,
    verticalAlign: string, lineHeight: real, paddingTop: real, paddingBottom: real)

  /** The conversions of `values` in order, or the first error. */
  function ConvertEach(values: seq<string>, convert: string -> Result<real>): (r: Result<seq<real>>)
    ensures r.Ok? <==> forall k :: 0 <= k < |values| ==> convert(values[k]).Ok?
    ensures r.Ok? ==> (|r.value| == |values|
      && forall k :: 0 <= k < |values| ==> r.value[k] == convert(values[k]).value)
  {
    if values == [] then Ok([])
    else
      match convert(values[0])
      case Err(e) => Err(e)
      case Ok(v) =>
        match ConvertEach(values[1..], convert)
        case Err(e) => Err(e)
        case Ok(vs) => Ok([v] + vs)
  }

  /** `getTextPosition`: fails without styles or on an unsupported unit; otherwise each length in pixels. */
  function GetTextPosition(ctx: StyleContext, parseFloat: string -> real): (r: Result<TextPosition>)
    ensures ctx.styles.None? ==> r == Err("style not defined")
    ensures r.Ok? ==> (ctx.styles.Some?
      && r.value.horizontalAlign == ctx.styles.value.textAlign
      && r.value.verticalAlign == ctx.styles.value.verticalAlign
      && Ok(r.value.indent) == ParseCssValueToPx(ctx.styles.value.textIndent, ctx, parseFloat)
      && Ok(r.value.paddingLeft) == ParseCssValueToPx(ctx.styles.value.paddingLeft, ctx, parseFloat)
      && Ok(r.value.paddingRight) == ParseCssValueToPx(ctx.styles.value.paddingRight, ctx, parseFloat)
      && Ok(r.value.lineHeight) == ParseCssValueToPx(ctx.styles.value.lineHeight, ctx, parseFloat)
      && Ok(r.value.paddingTop) == ParseCssValueToPx(ctx.styles.value.paddingTop, ctx, parseFloat)
      && Ok(r.value.paddingBottom) == ParseCssValueToPx(ctx.styles.value.paddingBottom, ctx, parseFloat))
    ensures ctx.styles.Some? && r.Err? ==> exists v :: v in StyleLengths(ctx.styles.value) && ParseCssValueToPx(v, ctx, parseFloat).Err?
  {
    if ctx.styles.None? then Err("style not defined")
    else
      var s := ctx.styles.value;
      match ConvertEach(StyleLengths(s), ToPx(ctx, parseFloat))
      case Err(e) => Err(e)
      case Ok(v) => Ok(TextPosition(s.textAlign, v[0], v[1], v[2], s.verticalAlign, v[3], v[4], v[5]))
  }

  /** The six lengths `getTextPosition` converts, in the order it converts them. */
  function StyleLengths(s: CssStyle): (r: seq<string>)
    ensures |r| == 6
  {
    [s.textIndent, s.paddingLeft, s.paddingRight, s.lineHeight, s.paddingTop, s.paddingBottom]
  }
}
