/** Concrete outputs the model computes for inputs taken from the
    repository's test suite. */
module Vectors {
  import opened Results
  import opened Strings
  import opened Style
  import opened Cells
  import opened Utils
  import opened Printer

  /** Every character one terminal column wide. */
  const Narrow: Measure := s => |s|

  /** A number rendering that is never consulted by the examples below. */
  const Unused: NumberFormat := (x, prec) => ""

  /** tests/test_utils.py, `test_format_line`. */
  lemma FormatLineExamples()
    ensures FormatLine(["foo", "bar"], LineStyle("(", "_", "+", ")")) == "(foo+bar)"
    ensures FormatLine(["a", "b", "c"], LineStyle("[", "*", ".", "]")) == "[a.b.c]"
    ensures FormatLine(["_"], LineStyle("o", "", "!", "o")) == "o_o"
    ensures FormatLine([], LineStyle(":", "", "", ")")) == ":)"
    ensures FormatLine([".", ".", "."], LineStyle("★", "_", "╳", "☆")) == "★.╳.╳.☆"
    ensures FormatLine(["☚", "☛"], LineStyle("♪", "*", "♩", "♫")) == "♪☚♩☛♫"
  {
    LineOfTwo("foo", "bar", LineStyle("(", "_", "+", ")"));
    LineOfThree("a", "b", "c", LineStyle("[", "*", ".", "]"));
    LineOfThree(".", ".", ".", LineStyle("★", "_", "╳", "☆"));
    LineOfTwo("☚", "☛", LineStyle("♪", "*", "♩", "♫"));
  }

  lemma LineOfTwo(a: string, b: string, ls: LineStyle)
    ensures FormatLine([a, b], ls) == ls.begin + a + ls.sep + b + ls.end
  {
    assert Join([a, b], ls.sep) == a + ls.sep + Join([b], ls.sep);
  }

  lemma LineOfThree(a: string, b: string, c: string, ls: LineStyle)
    ensures FormatLine([a, b, c], ls) == ls.begin + a + ls.sep + b + ls.sep + c + ls.end
  {
    assert Join([a, b, c], ls.sep) == a + ls.sep + Join([b, c], ls.sep);
    assert Join([b, c], ls.sep) == b + ls.sep + Join([c], ls.sep);
  }

  /** tests/test_utils.py, `humantime` of the whole-second inputs and of a
      non-numeric argument. */
  lemma HumanTimeExamples()
    ensures HumanTime(WholeSeconds(1000000)) == Ok("1 weeks, 4 days, 13 hours, 46 min., 40 s")
    ensures HumanTime(WholeSeconds(200000)) == Ok("2 days, 7 hours, 33 min., 20 s")
    ensures HumanTime(WholeSeconds(5000)) == Ok("1 hours, 23 min., 20 s")
    ensures HumanTime(WholeSeconds(60)) == Ok("1 min., 0 s")
    ensures HumanTime(WholeSeconds(1)) == Ok("1 s")
    ensures HumanTime(WholeSeconds(0)) == Ok("0 s")
    ensures HumanTime(NotANumber) == Err(ValueError(NotNumeric))
  {
    Seconds0();
    Seconds1();
    Seconds60();
    Seconds5000();
    Seconds200000();
    Seconds1000000();
  }

  lemma Seconds0() ensures HumanSeconds(0) == "0 s" { assert NatToString(0) == "0"; }
  lemma Seconds1() ensures HumanSeconds(1) == "1 s" { assert NatToString(1) == "1"; }
  lemma Seconds20() ensures HumanSeconds(20) == "20 s" { assert NatToString(20) == NatToString(2) + "0" == "20"; }
  lemma Seconds40() ensures HumanSeconds(40) == "40 s" { assert NatToString(40) == NatToString(4) + "0" == "40"; }

  /** One step of `humantime`: the count of the largest unit, then the rest. */
  lemma Step(t: nat, u: Unit, q: nat, m: nat, count: string, rest: string, text: string)
    requires t >= 60 && LargestUnit(t) == u
    requires t / UnitSeconds(u) == q && t % UnitSeconds(u) == m
    requires NatToString(q) == count && HumanSeconds(m) == rest
    requires text == count + " " + UnitName(u) + ", " + rest
    ensures HumanSeconds(t) == text
  {
  }

  lemma Seconds60()
    ensures HumanSeconds(60) == "1 min., 0 s"
  {
    assert "1 min., 0 s" == "1" + " " + UnitName(Minutes) + ", " + "0 s";
    Seconds0();
    assert LargestUnit(60) == Minutes;
    assert UnitSeconds(Minutes) == 60 && 60 / 60 == 1 && 60 % 60 == 0;
    Step(60, Minutes, 1, 0, "1", "0 s", "1 min., 0 s");
  }

  lemma Seconds1400()
    ensures HumanSeconds(1400) == "23 min., 20 s"
  {
    assert "23 min., 20 s" == "23" + " " + UnitName(Minutes) + ", " + "20 s";
    Seconds20();
    assert LargestUnit(1400) == Minutes;
    assert UnitSeconds(Minutes) == 60 && 1400 / 60 == 23 && 1400 % 60 == 20;
    Step(1400, Minutes, 23, 20, "23", "20 s", "23 min., 20 s");
  }

  lemma Seconds2000()
    ensures HumanSeconds(2000) == "33 min., 20 s"
  {
    assert "33 min., 20 s" == "33" + " " + UnitName(Minutes) + ", " + "20 s";
    Seconds20();
    assert LargestUnit(2000) == Minutes;
    assert UnitSeconds(Minutes) == 60 && 2000 / 60 == 33 && 2000 % 60 == 20;
    Step(2000, Minutes, 33, 20, "33", "20 s", "33 min., 20 s");
  }

  lemma Seconds2800()
    ensures HumanSeconds(2800) == "46 min., 40 s"
  {
    assert "46 min., 40 s" == "46" + " " + UnitName(Minutes) + ", " + "40 s";
    Seconds40();
    assert LargestUnit(2800) == Minutes;
    assert UnitSeconds(Minutes) == 60 && 2800 / 60 == 46 && 2800 % 60 == 40;
    Step(2800, Minutes, 46, 40, "46", "40 s", "46 min., 40 s");
  }

  lemma Seconds5000()
    ensures HumanSeconds(5000) == "1 hours, 23 min., 20 s"
  {
    assert "1 hours, 23 min., 20 s" == "1" + " " + UnitName(Hours) + ", " + "23 min., 20 s";
    Seconds1400();
    assert LargestUnit(5000) == Hours;
    assert UnitSeconds(Hours) == 3600 && 5000 / 3600 == 1 && 5000 % 3600 == 1400;
    Step(5000, Hours, 1, 1400, "1", "23 min., 20 s", "1 hours, 23 min., 20 s");
  }

  lemma Seconds27200()
    ensures HumanSeconds(27200) == "7 hours, 33 min., 20 s"
  {
    assert "7 hours, 33 min., 20 s" == "7" + " " + UnitName(Hours) + ", " + "33 min., 20 s";
    Seconds2000();
    assert LargestUnit(27200) == Hours;
    assert UnitSeconds(Hours) == 3600 && 27200 / 3600 == 7 && 27200 % 3600 == 2000;
    Step(27200, Hours, 7, 2000, "7", "33 min., 20 s", "7 hours, 33 min., 20 s");
  }

  lemma Seconds49600()
    ensures HumanSeconds(49600) == "13 hours, 46 min., 40 s"
  {
    assert "13 hours, 46 min., 40 s" == "13" + " " + UnitName(Hours) + ", " + "46 min., 40 s";
    Seconds2800();
    assert LargestUnit(49600) == Hours;
    assert UnitSeconds(Hours) == 3600 && 49600 / 3600 == 13 && 49600 % 3600 == 2800;
    Step(49600, Hours, 13, 2800, "13", "46 min., 40 s", "13 hours, 46 min., 40 s");
  }

  /** The words of `humantime(200000)`, glued together. */
  lemma Spelled200000()
    ensures "2 days, 7 hours, 33 min., 20 s" == "2" + " " + UnitName(Days) + ", " + "7 hours, 33 min., 20 s"
  {
  }

  lemma Seconds200000()
    ensures HumanSeconds(200000) == "2 days, 7 hours, 33 min., 20 s"
  {
    Spelled200000();
    Seconds27200();
    assert LargestUnit(200000) == Days;
    assert UnitSeconds(Days) == 86400 && 200000 / 86400 == 2 && 200000 % 86400 == 27200;
    Step(200000, Days, 2, 27200, "2", "7 hours, 33 min., 20 s", "2 days, 7 hours, 33 min., 20 s");
  }

  /** The words of `humantime(395200)`, glued together. */
  lemma Spelled395200()
    ensures "4 days, 13 hours, 46 min., 40 s" == "4" + " " + UnitName(Days) + ", " + "13 hours, 46 min., 40 s"
  {
  }

  lemma Seconds395200()
    ensures HumanSeconds(395200) == "4 days, 13 hours, 46 min., 40 s"
  {
    Spelled395200();
    Seconds49600();
    assert LargestUnit(395200) == Days;
    assert UnitSeconds(Days) == 86400 && 395200 / 86400 == 4 && 395200 % 86400 == 49600;
    Step(395200, Days, 4, 49600, "4", "13 hours, 46 min., 40 s", "4 days, 13 hours, 46 min., 40 s");
  }

  /** The words of `humantime(1000000)`, glued together. */
  lemma Spelled1000000()
    ensures "1 weeks, 4 days, 13 hours, 46 min., 40 s" == "1" + " " + UnitName(Weeks) + ", " + "4 days, 13 hours, 46 min., 40 s"
  {
  }

  lemma Seconds1000000()
    ensures HumanSeconds(1000000) == "1 weeks, 4 days, 13 hours, 46 min., 40 s"
  {
    Spelled1000000();
    Seconds395200();
    assert LargestUnit(1000000) == Weeks;
    assert UnitSeconds(Weeks) == 604800 && 1000000 / 604800 == 1 && 1000000 % 604800 == 395200;
    Step(1000000, Weeks, 1, 395200, "1", "4 days, 13 hours, 46 min., 40 s", "1 weeks, 4 days, 13 hours, 46 min., 40 s");
  }

  /** A rule over `n` columns of one width `w`: `n` copies of one field. */
  lemma UniformRule(n: nat, w: nat, ls: LineStyle, f: string)
    requires n > 0 && IsRule(ls) && f == Repeat(FillChar(ls.hline), w)
    ensures Hrule(n, Uniform(w), ls) == Ok(FormatLine(seq(n, _ => f), ls))
  {
    var ws := ParseWidth(Uniform(w), n).value;
    assert RuleFields(FillChar(ls.hline), ws) == seq(n, _ => f);
  }

  /** tests/test_functions.py, `test_borders`. */
  lemma BorderExamples()
    ensures Top(5, Uniform(2), "round") == Ok("╭────┬────┬────┬────┬────╮")
    ensures Top(5, Uniform(0), "round") == Ok("╭──┬──┬──┬──┬──╮")
    ensures Top(1, Uniform(6), "grid") == Ok("+------+")
    ensures Bottom(3, Uniform(1), "fancy_grid") == Ok("╘═╧═╧═╛")
    ensures Bottom(3, Uniform(4), "clean") == Ok(" ──── ──── ──── ")
  {
    RoundTopWide();
    RoundTopNarrow();
    GridTop();
    FancyBottom();
    CleanBottom();
  }

  lemma RoundTopWide()
    ensures Top(5, Uniform(2), "round") == Ok("╭────┬────┬────┬────┬────╮")
  {
    RoundTop(2, "──", "╭────┬────┬────┬────┬────╮");
  }

  lemma RoundTopNarrow()
    ensures Top(5, Uniform(0), "round") == Ok("╭──┬──┬──┬──┬──╮")
  {
    RoundTop(0, "", "╭──┬──┬──┬──┬──╮");
  }

  lemma RoundTop(w: nat, f: string, line: string)
    requires f == Repeat('─', w)
    requires line == "╭─" + (f + "─┬─" + (f + "─┬─" + (f + "─┬─" + (f + "─┬─" + f)))) + "─╮"
    ensures Top(5, Uniform(w), "round") == Ok(line)
  {
    var ls := Styles["round"].top;
    assert IsRule(ls) && ls == LineStyle("╭─", "─", "─┬─", "─╮");
    UniformRule(5, w, ls, f);
    assert seq(5, _ => f) == [f, f, f, f, f];
    LineOfFive(f, ls);
    assert Top(5, Uniform(w), "round") == Hrule(5, Uniform(w), ls);
  }

  lemma GridTop()
    ensures Top(1, Uniform(6), "grid") == Ok("+------+")
  {
    var ls := Styles["grid"].top;
    assert IsRule(ls) && ls == LineStyle("+", "-", "+", "+");
    var f := Repeat('-', 6);
    assert f == "------";
    UniformRule(1, 6, ls, f);
    assert seq(1, _ => f) == [f];
    assert FormatLine([f], ls) == "+------+";
    assert Top(1, Uniform(6), "grid") == Hrule(1, Uniform(6), ls);
  }

  lemma FancyBottom()
    ensures Bottom(3, Uniform(1), "fancy_grid") == Ok("╘═╧═╧═╛")
  {
    var ls := Styles["fancy_grid"].bottom;
    assert IsRule(ls) && ls == LineStyle("╘", "═", "╧", "╛");
    assert Repeat('═', 1) == "═";
    RuleOfThree(1, ls, "═", "╘═╧═╧═╛");
    assert Bottom(3, Uniform(1), "fancy_grid") == Hrule(3, Uniform(1), ls);
  }

  lemma CleanBottom()
    ensures Bottom(3, Uniform(4), "clean") == Ok(" ──── ──── ──── ")
  {
    var ls := Styles["clean"].bottom;
    assert IsRule(ls) && ls == LineStyle(" ", "─", " ", " ");
    assert Repeat('─', 4) == "────";
    RuleOfThree(4, ls, "────", " ──── ──── ──── ");
    assert Bottom(3, Uniform(4), "clean") == Hrule(3, Uniform(4), ls);
  }

  lemma RuleOfThree(w: nat, ls: LineStyle, f: string, line: string)
    requires IsRule(ls) && f == Repeat(FillChar(ls.hline), w)
    requires line == ls.begin + f + ls.sep + f + ls.sep + f + ls.end
    ensures Hrule(3, Uniform(w), ls) == Ok(line)
  {
    UniformRule(3, w, ls, f);
    assert seq(3, _ => f) == [f, f, f];
    LineOfThree(f, f, f, ls);
  }

  lemma LineOfFive(f: string, ls: LineStyle)
    ensures FormatLine([f, f, f, f, f], ls)
      == ls.begin + (f + ls.sep + (f + ls.sep + (f + ls.sep + (f + ls.sep + f)))) + ls.end
  {
    var five, four, three, two := [f, f, f, f, f], [f, f, f, f], [f, f, f], [f, f];
    assert five[1..] == four && four[1..] == three && three[1..] == two && two[1..] == [f];
    assert Join(two, ls.sep) == f + ls.sep + f;
    assert Join(three, ls.sep) == f + ls.sep + Join(two, ls.sep);
    assert Join(four, ls.sep) == f + ls.sep + Join(three, ls.sep);
    assert Join(five, ls.sep) == f + ls.sep + Join(four, ls.sep);
  }

  /** A one-character text is padded on the left to its column's width. */
  lemma PlainCell(t: string, w: nat, prec: string, num: NumberFormat)
    requires |t| == 1
    ensures RowCell(Text(t), w, prec, Narrow, num) == Ok(AlignRight(t, w))
  {
    assert !HasEscape(t);
    assert AnsiLen(t, Narrow) == 0;
  }

  /** A row of three values under one width and the default specifier. */
  lemma RowOfThree(values: seq<Cell>, w: nat, style: string, num: NumberFormat, a: string, b: string, c: string, line: string)
    requires |values| == 3 && style in Styles
    requires RowCell(values[0], w, DefaultFormat, Narrow, num) == Ok(a)
    requires RowCell(values[1], w, DefaultFormat, Narrow, num) == Ok(b)
    requires RowCell(values[2], w, DefaultFormat, Narrow, num) == Ok(c)
    requires var ls := Styles[style].row; line == ls.begin + a + ls.sep + b + ls.sep + c + ls.end
    ensures Row(values, Uniform(w), Shared(DefaultFormat), style, Narrow, num) == Ok(line)
  {
    LineOfThree(a, b, c, Styles[style].row);
    var ws := ParseWidth(Uniform(w), 3).value;
    var specs := Specs(Shared(DefaultFormat), 3).value;
    assert ws == [w, w, w] && specs == [DefaultFormat, DefaultFormat, DefaultFormat];
    CellsOfThree(values, w, num, a, b, c);
  }

  lemma CellsOfThree(values: seq<Cell>, w: nat, num: NumberFormat, a: string, b: string, c: string)
    requires |values| == 3
    requires RowCell(values[0], w, DefaultFormat, Narrow, num) == Ok(a)
    requires RowCell(values[1], w, DefaultFormat, Narrow, num) == Ok(b)
    requires RowCell(values[2], w, DefaultFormat, Narrow, num) == Ok(c)
    ensures RowCells(values, [w, w, w], [DefaultFormat, DefaultFormat, DefaultFormat], Narrow, num) == Ok([a, b, c])
  {
    var cells := RowCells(values, [w, w, w], [DefaultFormat, DefaultFormat, DefaultFormat], Narrow, num);
    assert cells.Ok?;
    assert cells.value == [a, b, c];
  }

  /** tests/test_functions.py, `test_row`, for the texts of `"abc"`. The
      number rendering is a parameter; the example needs only that it writes
      1, 2 and 3 as single digits. */
  lemma RowExamples(num: NumberFormat)
    requires num(1.0, DefaultFormat) == "1" && num(2.0, DefaultFormat) == "2" && num(3.0, DefaultFormat) == "3"
    ensures Row([Text("a"), Text("b"), Text("c")], Uniform(3), Shared(DefaultFormat), "round", Narrow, num)
      == Ok("│   a │   b │   c │")
    ensures Row([Text("a"), Text("b"), Text("c")], Uniform(0), Shared(DefaultFormat), "round", Narrow, num)
      == Ok("│ a │ b │ c │")
    ensures Row([Number(1.0), Number(2.0), Number(3.0)], Uniform(3), Shared(DefaultFormat), "clean", Narrow, num)
      == Ok("   1   2   3 ")
  {
    PaddedLetters(num);
    BareLetters(num);
    PaddedDigits(num);
  }

  lemma PaddedLetters(num: NumberFormat)
    ensures Row([Text("a"), Text("b"), Text("c")], Uniform(3), Shared(DefaultFormat), "round", Narrow, num)
      == Ok("│   a │   b │   c │")
  {
    RoundLetters(3, "  a", "  b", "  c", "│   a │   b │   c │", num);
  }

  lemma BareLetters(num: NumberFormat)
    ensures Row([Text("a"), Text("b"), Text("c")], Uniform(0), Shared(DefaultFormat), "round", Narrow, num)
      == Ok("│ a │ b │ c │")
  {
    RoundLetters(0, "a", "b", "c", "│ a │ b │ c │", num);
  }

  /** The letters of `"abc"` right-aligned to width `w` on a `round` row. */
  lemma RoundLetters(w: nat, a: string, b: string, c: string, line: string, num: NumberFormat)
    requires var pad := Spaces(if w > 0 then w - 1 else 0); a == pad + "a" && b == pad + "b" && c == pad + "c"
    requires line == "│ " + a + " │ " + b + " │ " + c + " │"
    ensures Row([Text("a"), Text("b"), Text("c")], Uniform(w), Shared(DefaultFormat), "round", Narrow, num) == Ok(line)
  {
    LettersPadded(w, a, b, c);
    RoundLettersLine(a, b, c, line);
    LettersRow(w, "round", Styles["round"].row, num, a, b, c, line);
  }

  /** The letters of `"abc"`, each right-aligned to width `w`. */
  lemma LettersPadded(w: nat, a: string, b: string, c: string)
    requires var pad := Spaces(if w > 0 then w - 1 else 0); a == pad + "a" && b == pad + "b" && c == pad + "c"
    ensures AlignRight("a", w) == a && AlignRight("b", w) == b && AlignRight("c", w) == c
  {
  }

  /** A line of three cells in the `round` style. */
  lemma RoundLettersLine(a: string, b: string, c: string, line: string)
    requires line == "│ " + a + " │ " + b + " │ " + c + " │"
    ensures var ls := Styles["round"].row; line == ls.begin + a + ls.sep + b + ls.sep + c + ls.end
  {
    assert Styles["round"].row == LineStyle("│ ", "", " │ ", " │");
  }

  /** The row of the letters of `"abc"`, each padded to width `w`. */
  lemma LettersRow(w: nat, style: string, ls: LineStyle, num: NumberFormat, a: string, b: string, c: string, line: string)
    requires style in Styles && Styles[style].row == ls
    requires AlignRight("a", w) == a && AlignRight("b", w) == b && AlignRight("c", w) == c
    requires line == ls.begin + a + ls.sep + b + ls.sep + c + ls.end
    ensures Row([Text("a"), Text("b"), Text("c")], Uniform(w), Shared(DefaultFormat), style, Narrow, num) == Ok(line)
  {
    LetterCells(w, num);
    RowOfThree([Text("a"), Text("b"), Text("c")], w, style, num, a, b, c, line);
  }

  lemma LetterCells(w: nat, num: NumberFormat)
    ensures RowCell(Text("a"), w, DefaultFormat, Narrow, num) == Ok(AlignRight("a", w))
    ensures RowCell(Text("b"), w, DefaultFormat, Narrow, num) == Ok(AlignRight("b", w))
    ensures RowCell(Text("c"), w, DefaultFormat, Narrow, num) == Ok(AlignRight("c", w))
  {
    PlainCell("a", w, DefaultFormat, num);
    PlainCell("b", w, DefaultFormat, num);
    PlainCell("c", w, DefaultFormat, num);
  }

  lemma PaddedDigits(num: NumberFormat)
    requires num(1.0, DefaultFormat) == "1" && num(2.0, DefaultFormat) == "2" && num(3.0, DefaultFormat) == "3"
    ensures Row([Number(1.0), Number(2.0), Number(3.0)], Uniform(3), Shared(DefaultFormat), "clean", Narrow, num)
      == Ok("   1   2   3 ")
  {
    DigitInThree(1.0, "1", num, "  1");
    DigitInThree(2.0, "2", num, "  2");
    DigitInThree(3.0, "3", num, "  3");
    CleanDigitsLine();
    RowOfThree([Number(1.0), Number(2.0), Number(3.0)], 3, "clean", num, "  1", "  2", "  3", "   1   2   3 ");
  }

  /** A number written as one digit, right-aligned in three columns. */
  lemma DigitInThree(x: real, d: string, num: NumberFormat, cell: string)
    requires num(x, DefaultFormat) == d && |d| == 1 && cell == "  " + d
    ensures RowCell(Number(x), 3, DefaultFormat, Narrow, num) == Ok(cell)
  {
    assert Spaces(2) == "  ";
  }

  /** The digits line of the `clean` style. */
  lemma CleanDigitsLine()
    ensures var ls := Styles["clean"].row;
      "   1   2   3 " == ls.begin + "  1" + ls.sep + "  2" + ls.sep + "  3" + ls.end
  {
    assert Styles["clean"].row == LineStyle(" ", "", " ", " ");
  }


  /** A rule over one column of width `w`: one field between the ends. */
  lemma OneColumnRule(w: nat, ls: LineStyle, f: string)
    requires IsRule(ls) && f == Repeat(FillChar(ls.hline), w)
    ensures Hrule(1, Uniform(w), ls) == Ok(ls.begin + f + ls.end)
  {
    UniformRule(1, w, ls, f);
    assert seq(1, _ => f) == [f];
  }

  /** The banner of a plain message exactly as wide as its column. */
  lemma PlainBanner(message: string, style: string, ts: TableStyle, above: string, below: string,
                     first: string, second: string, third: string, out: string)
    requires style in Styles && Styles[style] == ts
    requires !HasEscape(message)
    requires above == Repeat(FillChar(ts.top.hline), |message|) && below == Repeat(FillChar(ts.belowHeader.hline), |message|)
    requires first == ts.top.begin + above + ts.top.end
    requires second == ts.row.begin + message + ts.row.end
    requires third == ts.belowHeader.begin + below + ts.belowHeader.end
    requires out == first + "\n" + second + "\n" + third + "\n"
    ensures Banner(message, |message|, style, Narrow) == Ok(out)
  {
    RegistryWellFormed(style);
    var w := |message|;
    assert AnsiLen(message, Narrow) == 0 && TextField(message, w, Narrow) == w;
    assert Center(message, w) == message;
    OneColumnRule(w, ts.top, above);
    OneColumnRule(w, ts.belowHeader, below);
    assert Top(1, Uniform(w), style) == Hrule(1, Uniform(w), ts.top);
    assert Max(w, |message|) == w;
    var r := Banner(message, w, style, Narrow);
    assert r.Ok?;
    assert r.value == Top(1, Uniform(w), style).value + "\n"
      + (ts.row.begin + Center(message, w) + ts.row.end) + "\n"
      + Hrule(1, Uniform(w), ts.belowHeader).value + "\n";
  }

  /** tests/test_io.py, `test_banner`. */
  lemma BannerExamples()
    ensures Banner("hello world", 11, "clean", Narrow) == Ok(" ─────────── \n hello world \n ─────────── \n")
    ensures Banner("!", 1, "banner", Narrow) == Ok("╒═╕\n│!│\n╘═╛\n")
  {
    CleanBanner();
    ExclamationBanner();
  }

  /** The three lines of the `clean` banner, glued together. */
  lemma SpelledCleanBanner()
    ensures " ─────────── \n hello world \n ─────────── \n"
      == " ─────────── " + "\n" + " hello world " + "\n" + " ─────────── " + "\n"
  {
  }

  lemma CleanBanner()
    ensures Banner("hello world", 11, "clean", Narrow) == Ok(" ─────────── \n hello world \n ─────────── \n")
  {
    SpelledCleanBanner();
    var ts := Styles["clean"];
    assert ts.top == LineStyle(" ", "─", " ", " ") && ts.belowHeader == ts.top && ts.row == LineStyle(" ", "", " ", " ");
    var message := "hello world";
    assert |message| == 11 && FillChar(ts.top.hline) == '─';
    var f := Repeat('─', 11);
    assert f == "───────────";
    assert !HasEscape(message);
    PlainBanner(message, "clean", ts, f, f, " ─────────── ", " hello world ", " ─────────── ",
      " ─────────── \n hello world \n ─────────── \n");
  }

  lemma ExclamationBanner()
    ensures Banner("!", 1, "banner", Narrow) == Ok("╒═╕\n│!│\n╘═╛\n")
  {
    var ts := Styles["banner"];
    assert ts.top == LineStyle("╒", "═", "╤", "╕") && ts.belowHeader == LineStyle("╘", "═", "╧", "╛");
    assert ts.row == LineStyle("│", "", "│", "│");
    assert Repeat('═', 1) == "═";
    PlainBanner("!", "banner", ts, "═", "═", "╒═╕", "│!│", "╘═╛", "╒═╕\n│!│\n╘═╛\n");
  }

  /** tests/test_functions.py, `row([{}])` raises a ValueError. */
  lemma RowRejectsDict()
    ensures Row([Other(Some(0))], Uniform(0), Shared(DefaultFormat), DefaultStyle, Narrow, Unused) == Err(ValueError(BadElement))
  {
    assert DefaultStyle in Styles;
    assert ParseWidth(Uniform(0), 1).value == [0];
    assert Specs(Shared(DefaultFormat), 1).value == [DefaultFormat];
    assert RowCells([Other(Some(0))], [0], [DefaultFormat], Narrow, Unused) == Err(ValueError(BadElement));
  }
}
