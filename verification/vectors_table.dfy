/** Concrete outputs of `table`, `TableContext` and a failing table, for
    inputs taken from the repository's test suite. */
module TableVectors {
  import opened Results
  import opened Strings
  import opened Style
  import opened Cells
  import opened Utils
  import opened Printer
  import opened Context
  import opened Vectors

  /** A number rendering that writes the whole numbers the examples use as
      their digits. How Python renders other numbers is not consulted. */
  predicate WritesDigits(num: NumberFormat) {
    && num(1.0, DefaultFormat) == "1" && num(2.0, DefaultFormat) == "2" && num(3.0, DefaultFormat) == "3"
    && num(4.0, DefaultFormat) == "4" && num(5.0, DefaultFormat) == "5" && num(6.0, DefaultFormat) == "6"
  }

  // ---------------------------------------------------------------------
  // building blocks

  /** A rule over three columns of width `w`, given as a list of widths. */
  lemma RuleOverThree(w: nat, ls: LineStyle, f: string, line: string)
    requires IsRule(ls) && f == Repeat(FillChar(ls.hline), w)
    requires line == ls.begin + f + ls.sep + f + ls.sep + f + ls.end
    ensures Hrule(3, PerColumn([w, w, w]), ls) == Ok(line)
  {
    SameWidthList(w);
    HruleSameWidths(3, PerColumn([w, w, w]), Uniform(w), ls);
    RuleOfThree(w, ls, f, line);
  }

  /** Three columns of width `w`, listed or given once. */
  lemma SameWidthList(w: nat)
    ensures ParseWidth(PerColumn([w, w, w]), 3) == ParseWidth(Uniform(w), 3)
  {
    assert seq(3, _ => w) == [w, w, w];
  }

  /** The header block of three one-character titles over columns of width
      `w`: the top rule, the centred titles, the below-header rule. */
  lemma HeaderOfThree(a: string, b: string, c: string, w: nat, style: string, ts: TableStyle,
                      ca: string, cb: string, cc: string, top: string, mid: string, below: string)
    requires |a| == 1 && |b| == 1 && |c| == 1
    requires style in Styles && Styles[style] == ts
    requires Center(a, w) == ca && Center(b, w) == cb && Center(c, w) == cc
    requires Hrule(3, PerColumn([w, w, w]), ts.top) == Ok(top)
    requires Hrule(3, PerColumn([w, w, w]), ts.belowHeader) == Ok(below)
    requires mid == ts.row.begin + ca + ts.row.sep + cb + ts.row.sep + cc + ts.row.end
    ensures Header([a, b, c], PerColumn([w, w, w]), style, true, Narrow) == Ok(top + "\n" + mid + "\n" + below)
  {
    var titles, ws := [a, b, c], [w, w, w];
    OneCharField(a, w);
    OneCharField(b, w);
    OneCharField(c, w);
    CenteredThree(a, b, c, w, ca, cb, cc);
    LineOfThree(ca, cb, cc, ts.row);
    assert Top(3, PerColumn(ws), style) == Hrule(3, PerColumn(ws), ts.top);
  }

  /** Three one-character titles, each centred in its column. */
  lemma CenteredThree(a: string, b: string, c: string, w: nat, ca: string, cb: string, cc: string)
    requires |a| == 1 && |b| == 1 && |c| == 1
    requires Center(a, w) == ca && Center(b, w) == cb && Center(c, w) == cc
    ensures TitlesFit([a, b, c], [w, w, w], Narrow)
    ensures CenteredTitles([a, b, c], [w, w, w], Narrow) == [ca, cb, cc]
  {
    CenteredOnes(a, b, c, w);
  }

  lemma CenteredOnes(a: string, b: string, c: string, w: nat)
    requires |a| == 1 && |b| == 1 && |c| == 1
    ensures TitlesFit([a, b, c], [w, w, w], Narrow)
    ensures CenteredTitles([a, b, c], [w, w, w], Narrow) == [Center(a, w), Center(b, w), Center(c, w)]
  {
    OneCharField(a, w);
    OneCharField(b, w);
    OneCharField(c, w);
    var ct := CenteredTitles([a, b, c], [w, w, w], Narrow);
    assert |ct| == 3 && ct[0] == Center(a, w) && ct[1] == Center(b, w) && ct[2] == Center(c, w);
    ThreeItems(ct, Center(a, w), Center(b, w), Center(c, w));
  }

  /** A list of three items, given item by item. */
  lemma ThreeItems<T>(s: seq<T>, x: T, y: T, z: T)
    requires |s| == 3 && s[0] == x && s[1] == y && s[2] == z
    ensures s == [x, y, z]
  {
  }

  /** A one-character text needs no widening for escape sequences. */
  lemma OneCharField(t: string, w: nat)
    requires |t| == 1
    ensures TextField(t, w, Narrow) == w
  {
    assert !HasEscape(t);
  }

  /** A record of three values, laid out over a list of three widths. */
  lemma RecordOfThree(values: seq<Cell>, w: nat, style: string, num: NumberFormat, a: string, b: string, c: string, line: string)
    requires |values| == 3 && style in Styles
    requires RowCell(values[0], w, DefaultFormat, Narrow, num) == Ok(a)
    requires RowCell(values[1], w, DefaultFormat, Narrow, num) == Ok(b)
    requires RowCell(values[2], w, DefaultFormat, Narrow, num) == Ok(c)
    requires var ls := Styles[style].row; line == ls.begin + a + ls.sep + b + ls.sep + c + ls.end
    ensures Row(values, PerColumn([w, w, w]), Shared(DefaultFormat), style, Narrow, num) == Ok(line)
  {
    SameWidthList(w);
    RowSameWidths(values, PerColumn([w, w, w]), Uniform(w), Shared(DefaultFormat), style, Narrow, num);
    RowOfThree(values, w, style, num, a, b, c, line);
  }

  /** The blocks of a table with headers whose widths, header block,
      records and bottom rule are known. */
  lemma TableOfBlocks(data: seq<seq<Cell>>, headers: seq<string>, width: int, style: string, num: NumberFormat,
                      ws: seq<nat>, head: string, rows: seq<string>, bottom: string)
    requires |data| > 0 && |rows| == |data| && style in Styles
    requires TableWidths(data, Some(headers), width, |headers|) == Ok(ws)
    requires Header(headers, PerColumn(ws), style, true, Narrow) == Ok(head)
    requires forall k :: 0 <= k < |data| ==> Row(data[k], PerColumn(ws), Shared(DefaultFormat), style, Narrow, num) == Ok(rows[k])
    requires Hrule(|headers|, PerColumn(ws), Styles[style].bottom) == Ok(bottom)
    ensures TableBlocks(data, Some(headers), Shared(DefaultFormat), width, style, Narrow, num) == Ok([head] + rows + [bottom])
  {
    var spec := Shared(DefaultFormat);
    assert ColumnCount(data, Some(headers)) == Ok(|headers|);
    assert Rows(data, ws, spec, style, Narrow, num).Ok?;
    var r := TableBlocks(data, Some(headers), spec, width, style, Narrow, num);
    assert r.Ok?;
    var blocks := r.value;
    assert |blocks| == |rows| + 2 && blocks[0] == head && blocks[|blocks| - 1] == bottom;
    forall k | 0 <= k < |rows|
      ensures blocks[1 + k] == rows[k]
    {
      assert Ok(blocks[1 + k]) == Row(data[k], PerColumn(ws), spec, style, Narrow, num);
    }
    Framed(blocks, head, rows, bottom);
  }

  /** A list is its first element, its middle and its last element. */
  lemma Framed(blocks: seq<string>, head: string, rows: seq<string>, bottom: string)
    requires |blocks| == |rows| + 2 && blocks[0] == head && blocks[|blocks| - 1] == bottom
    requires forall k :: 0 <= k < |rows| ==> blocks[1 + k] == rows[k]
    ensures blocks == [head] + rows + [bottom]
  {
  }

  /** Two records, each laid out as its line. */
  lemma TwoRows(data: seq<seq<Cell>>, ws: seq<nat>, style: string, num: NumberFormat, r1: string, r2: string)
    requires |data| == 2
    requires Row(data[0], PerColumn(ws), Shared(DefaultFormat), style, Narrow, num) == Ok(r1)
    requires Row(data[1], PerColumn(ws), Shared(DefaultFormat), style, Narrow, num) == Ok(r2)
    ensures forall k :: 0 <= k < |data| ==> Row(data[k], PerColumn(ws), Shared(DefaultFormat), style, Narrow, num) == Ok([r1, r2][k])
  {
  }

  lemma FourBlocks(head: string, r1: string, r2: string, bottom: string)
    ensures [head] + [r1, r2] + [bottom] == [head, r1, r2, bottom]
  {
  }

  lemma ThreeBlocks(head: string, r1: string, bottom: string)
    ensures [head] + [r1] + [bottom] == [head, r1, bottom]
  {
  }

  /** The text of a table with a three-line header block and two records. */
  lemma TwoRecordText(top: string, titles: string, rule: string, r1: string, r2: string, bottom: string)
    ensures Join([top + "\n" + titles + "\n" + rule, r1, r2, bottom], "\n") + "\n"
      == top + "\n" + titles + "\n" + rule + "\n" + r1 + "\n" + r2 + "\n" + bottom + "\n"
  {
    var h := top + "\n" + titles + "\n" + rule;
    assert Join([h, r1, r2, bottom], "\n") == h + "\n" + Join([r1, r2, bottom], "\n");
    JoinThree(r1, r2, bottom, "\n");
  }

  /** The text of a table with a three-line header block and one record. */
  lemma OneRecordText(top: string, titles: string, rule: string, r1: string, bottom: string)
    ensures Join([top + "\n" + titles + "\n" + rule, r1, bottom], "\n") + "\n"
      == top + "\n" + titles + "\n" + rule + "\n" + r1 + "\n" + bottom + "\n"
  {
    JoinThree(top + "\n" + titles + "\n" + rule, r1, bottom, "\n");
  }

  /** A table with headers and two records, from its lines. */
  lemma TwoRecordTable(data: seq<seq<Cell>>, headers: seq<string>, width: int, style: string, num: NumberFormat,
                       ws: seq<nat>, top: string, titles: string, rule: string, r1: string, r2: string, bottom: string)
    requires |data| == 2 && style in Styles
    requires TableWidths(data, Some(headers), width, |headers|) == Ok(ws)
    requires Header(headers, PerColumn(ws), style, true, Narrow) == Ok(top + "\n" + titles + "\n" + rule)
    requires Row(data[0], PerColumn(ws), Shared(DefaultFormat), style, Narrow, num) == Ok(r1)
    requires Row(data[1], PerColumn(ws), Shared(DefaultFormat), style, Narrow, num) == Ok(r2)
    requires Hrule(|headers|, PerColumn(ws), Styles[style].bottom) == Ok(bottom)
    ensures Table(data, Some(headers), Shared(DefaultFormat), width, style, Narrow, num)
      == Ok(top + "\n" + titles + "\n" + rule + "\n" + r1 + "\n" + r2 + "\n" + bottom + "\n")
  {
    var head := top + "\n" + titles + "\n" + rule;
    TwoRows(data, ws, style, num, r1, r2);
    TableOfBlocks(data, headers, width, style, num, ws, head, [r1, r2], bottom);
    TableJoinsBlocks(data, Some(headers), Shared(DefaultFormat), width, style, Narrow, num);
    FourBlocks(head, r1, r2, bottom);
    TwoRecordText(top, titles, rule, r1, r2, bottom);
  }

  /** A table with headers and one record, from its lines. */
  lemma OneRecordTable(data: seq<seq<Cell>>, headers: seq<string>, width: int, style: string, num: NumberFormat,
                       ws: seq<nat>, top: string, titles: string, rule: string, r1: string, bottom: string)
    requires |data| == 1 && style in Styles
    requires TableWidths(data, Some(headers), width, |headers|) == Ok(ws)
    requires Header(headers, PerColumn(ws), style, true, Narrow) == Ok(top + "\n" + titles + "\n" + rule)
    requires Row(data[0], PerColumn(ws), Shared(DefaultFormat), style, Narrow, num) == Ok(r1)
    requires Hrule(|headers|, PerColumn(ws), Styles[style].bottom) == Ok(bottom)
    ensures Table(data, Some(headers), Shared(DefaultFormat), width, style, Narrow, num)
      == Ok(top + "\n" + titles + "\n" + rule + "\n" + r1 + "\n" + bottom + "\n")
  {
    var head := top + "\n" + titles + "\n" + rule;
    assert forall k :: 0 <= k < |data| ==> Row(data[k], PerColumn(ws), Shared(DefaultFormat), style, Narrow, num) == Ok([r1][k]);
    TableOfBlocks(data, headers, width, style, num, ws, head, [r1], bottom);
    TableJoinsBlocks(data, Some(headers), Shared(DefaultFormat), width, style, Narrow, num);
    ThreeBlocks(head, r1, bottom);
    OneRecordText(top, titles, rule, r1, bottom);
  }

  /** Three columns of width `w` given once, as a table's widths. */
  lemma UniformTableWidths(data: seq<seq<Cell>>, headers: seq<string>, w: nat)
    requires |headers| == 3 && w > 0
    ensures TableWidths(data, Some(headers), w, 3) == Ok([w, w, w])
  {
    assert seq(3, _ => w) == [w, w, w];
  }

  /** A one-character text right-aligned in five columns. */
  lemma RightInFive(d: string)
    requires |d| == 1
    ensures AlignRight(d, 5) == "    " + d
  {
    assert Spaces(4) == "    ";
  }

  /** A number written as one digit, right-aligned in five columns. */
  lemma DigitCell(x: real, d: string, num: NumberFormat, cell: string)
    requires num(x, DefaultFormat) == d && |d| == 1 && cell == "    " + d
    ensures RowCell(Number(x), 5, DefaultFormat, Narrow, num) == Ok(cell)
  {
    RightInFive(d);
  }

  /** A one-character text centred in five columns. */
  lemma CentredInFive(t: string, ct: string)
    requires |t| == 1 && ct == "  " + t + "  "
    ensures Center(t, 5) == ct
  {
    assert Spaces(2) == "  ";
  }

  // ---------------------------------------------------------------------
  // tests/test_io.py, `test_table` and `test_context`: `round` style, width 5

  /** The records `[[1, 2, 3], [4, 5, 6]]`. */
  const Digits: seq<seq<Cell>> := [[Number(1.0), Number(2.0), Number(3.0)], [Number(4.0), Number(5.0), Number(6.0)]]

  lemma RoundTopRule()
    ensures Hrule(3, PerColumn([5, 5, 5]), Styles["round"].top) == Ok("╭───────┬───────┬───────╮")
  {
    assert Styles["round"].top == LineStyle("╭─", "─", "─┬─", "─╮");
    FiveDashes();
    RuleOverThree(5, LineStyle("╭─", "─", "─┬─", "─╮"), "─────", "╭───────┬───────┬───────╮");
  }

  lemma RoundMiddleRule()
    ensures Hrule(3, PerColumn([5, 5, 5]), Styles["round"].belowHeader) == Ok("├───────┼───────┼───────┤")
  {
    assert Styles["round"].belowHeader == LineStyle("├─", "─", "─┼─", "─┤");
    FiveDashes();
    RuleOverThree(5, LineStyle("├─", "─", "─┼─", "─┤"), "─────", "├───────┼───────┼───────┤");
  }

  lemma RoundBottomRule()
    ensures Hrule(3, PerColumn([5, 5, 5]), Styles["round"].bottom) == Ok("╰───────┴───────┴───────╯")
  {
    assert Styles["round"].bottom == LineStyle("╰─", "─", "─┴─", "─╯");
    FiveDashes();
    RuleOverThree(5, LineStyle("╰─", "─", "─┴─", "─╯"), "─────", "╰───────┴───────┴───────╯");
  }

  lemma FiveDashes()
    ensures Repeat('─', 5) == "─────"
  {
  }

  lemma RoundHeader()
    ensures Header(["A", "B", "C"], PerColumn([5, 5, 5]), "round", true, Narrow)
      == Ok("╭───────┬───────┬───────╮" + "\n" + "│   A   │   B   │   C   │" + "\n" + "├───────┼───────┼───────┤")
  {
    RoundTitles();
    RoundTopRule();
    RoundMiddleRule();
    RoundTitleLine();
    HeaderOfThree("A", "B", "C", 5, "round", Styles["round"], "  A  ", "  B  ", "  C  ",
                  "╭───────┬───────┬───────╮", "│   A   │   B   │   C   │", "├───────┼───────┼───────┤");
  }

  /** The titles `ABC`, each centred in five columns. */
  lemma RoundTitles()
    ensures Center("A", 5) == "  A  " && Center("B", 5) == "  B  " && Center("C", 5) == "  C  "
  {
    CentredInFive("A", "  A  ");
    CentredInFive("B", "  B  ");
    CentredInFive("C", "  C  ");
  }

  /** The titles line of the `round` header. */
  lemma RoundTitleLine()
    ensures var ls := Styles["round"].row;
      "│   A   │   B   │   C   │" == ls.begin + "  A  " + ls.sep + "  B  " + ls.sep + "  C  " + ls.end
  {
    assert Styles["round"].row == LineStyle("│ ", "", " │ ", " │");
  }

  lemma RoundFirstRecord(num: NumberFormat)
    requires WritesDigits(num)
    ensures Row(Digits[0], PerColumn([5, 5, 5]), Shared(DefaultFormat), "round", Narrow, num) == Ok("│     1 │     2 │     3 │")
  {
    RoundRecord(1.0, 2.0, 3.0, "1", "2", "3", num, "│     1 │     2 │     3 │");
  }

  lemma RoundSecondRecord(num: NumberFormat)
    requires WritesDigits(num)
    ensures Row(Digits[1], PerColumn([5, 5, 5]), Shared(DefaultFormat), "round", Narrow, num) == Ok("│     4 │     5 │     6 │")
  {
    RoundRecord(4.0, 5.0, 6.0, "4", "5", "6", num, "│     4 │     5 │     6 │");
  }

  /** A record of three one-digit numbers in the `round` style. */
  lemma RoundRecord(x: real, y: real, z: real, dx: string, dy: string, dz: string, num: NumberFormat, line: string)
    requires num(x, DefaultFormat) == dx && num(y, DefaultFormat) == dy && num(z, DefaultFormat) == dz
    requires |dx| == 1 && |dy| == 1 && |dz| == 1
    requires line == "│     " + dx + " │     " + dy + " │     " + dz + " │"
    ensures Row([Number(x), Number(y), Number(z)], PerColumn([5, 5, 5]), Shared(DefaultFormat), "round", Narrow, num) == Ok(line)
  {
    DigitCell(x, dx, num, "    " + dx);
    DigitCell(y, dy, num, "    " + dy);
    DigitCell(z, dz, num, "    " + dz);
    RoundRecordLine(dx, dy, dz, line);
    RecordOfThree([Number(x), Number(y), Number(z)], 5, "round", num, "    " + dx, "    " + dy, "    " + dz, line);
  }

  /** A line of three cells in the `round` style. */
  lemma RoundRecordLine(dx: string, dy: string, dz: string, line: string)
    requires line == "│     " + dx + " │     " + dy + " │     " + dz + " │"
    ensures var ls := Styles["round"].row;
      line == ls.begin + ("    " + dx) + ls.sep + ("    " + dy) + ls.sep + ("    " + dz) + ls.end
  {
    assert Styles["round"].row == LineStyle("│ ", "", " │ ", " │");
  }

  /** `table([[1, 2, 3], [4, 5, 6]], 'ABC', style='round', width=5)`. */
  lemma RoundTable(num: NumberFormat)
    requires WritesDigits(num)
    ensures Table(Digits, Some(["A", "B", "C"]), Shared(DefaultFormat), 5, "round", Narrow, num) == Ok(
      "╭───────┬───────┬───────╮" + "\n" +
      "│   A   │   B   │   C   │" + "\n" +
      "├───────┼───────┼───────┤" + "\n" +
      "│     1 │     2 │     3 │" + "\n" +
      "│     4 │     5 │     6 │" + "\n" +
      "╰───────┴───────┴───────╯" + "\n")
  {
    RoundHeader();
    RoundFirstRecord(num);
    RoundSecondRecord(num);
    RoundBottomRule();
    UniformTableWidths(Digits, ["A", "B", "C"], 5);
    TwoRecordTable(Digits, ["A", "B", "C"], 5, "round", num, [5, 5, 5],
                   "╭───────┬───────┬───────╮", "│   A   │   B   │   C   │", "├───────┼───────┼───────┤",
                   "│     1 │     2 │     3 │", "│     4 │     5 │     6 │", "╰───────┴───────┴───────╯");
  }

  /** `with TableContext('ABC', style='round', width=5) as t: t([1, 2, 3]); t([4, 5, 6])`
      writes the same text as the table of those records. */
  lemma RoundContext(num: NumberFormat)
    requires WritesDigits(num)
    ensures NewContext(["A", "B", "C"], Uniform(5), "round", true, Narrow).Ok?
    ensures RunWith(NewContext(["A", "B", "C"], Uniform(5), "round", true, Narrow).value, Calls(Digits), Narrow, num).raised.None?
    ensures Concat(RunWith(NewContext(["A", "B", "C"], Uniform(5), "round", true, Narrow).value, Calls(Digits), Narrow, num).writes) ==
      "╭───────┬───────┬───────╮" + "\n" +
      "│   A   │   B   │   C   │" + "\n" +
      "├───────┼───────┼───────┤" + "\n" +
      "│     1 │     2 │     3 │" + "\n" +
      "│     4 │     5 │     6 │" + "\n" +
      "╰───────┴───────┴───────╯" + "\n"
  {
    RoundTable(num);
    UniformTableWidths(Digits, ["A", "B", "C"], 5);
    assert ParseWidth(Uniform(5), 3) == Ok([5, 5, 5]) by {
      assert seq(3, _ => 5) == [5, 5, 5];
    }
    ContextMatchesTable(Digits, ["A", "B", "C"], 5, "round", Uniform(5), Narrow, num);
  }

  // ---------------------------------------------------------------------
  // tests/test_io.py, `test_table`: `grid` style, width 3

  /** Every rule of the `grid` style over three columns of width 3. */
  lemma GridRules()
    ensures Hrule(3, PerColumn([3, 3, 3]), Styles["grid"].top) == Ok("+---+---+---+")
    ensures Hrule(3, PerColumn([3, 3, 3]), Styles["grid"].belowHeader) == Ok("+---+---+---+")
    ensures Hrule(3, PerColumn([3, 3, 3]), Styles["grid"].bottom) == Ok("+---+---+---+")
  {
    var ls := LineStyle("+", "-", "+", "+");
    assert Styles["grid"].top == ls && Styles["grid"].belowHeader == ls && Styles["grid"].bottom == ls;
    assert Repeat('-', 3) == "---";
    RuleOverThree(3, ls, "---", "+---+---+---+");
  }

  /** A one-character text centred in three columns. */
  lemma CentredInThree(t: string, ct: string)
    requires |t| == 1 && ct == " " + t + " "
    ensures Center(t, 3) == ct
  {
    assert Spaces(1) == " ";
  }

  /** The header block `foo` of the `grid` style. */
  lemma GridHeader()
    ensures Header(["f", "o", "o"], PerColumn([3, 3, 3]), "grid", true, Narrow)
      == Ok("+---+---+---+" + "\n" + "| f | o | o |" + "\n" + "+---+---+---+")
  {
    GridTitles();
    GridRules();
    GridTitleLine();
    HeaderOfThree("f", "o", "o", 3, "grid", Styles["grid"], " f ", " o ", " o ",
                  "+---+---+---+", "| f | o | o |", "+---+---+---+");
  }

  /** The titles `foo`, each centred in three columns. */
  lemma GridTitles()
    ensures Center("f", 3) == " f " && Center("o", 3) == " o "
  {
    CentredInThree("f", " f ");
    CentredInThree("o", " o ");
  }

  /** The titles line of the `grid` header. */
  lemma GridTitleLine()
    ensures var ls := Styles["grid"].row;
      "| f | o | o |" == ls.begin + " f " + ls.sep + " o " + ls.sep + " o " + ls.end
  {
    assert Styles["grid"].row == LineStyle("|", "", "|", "|");
  }

  /** The record `bar` of the `grid` style: each text right-aligned. */
  lemma GridRecord(num: NumberFormat)
    ensures Row([Text("b"), Text("a"), Text("r")], PerColumn([3, 3, 3]), Shared(DefaultFormat), "grid", Narrow, num) == Ok("|  b|  a|  r|")
  {
    GridTexts("b", "a", "r", num, "|  b|  a|  r|");
  }

  /** A record of three one-character texts in the `grid` style. */
  lemma GridTexts(a: string, b: string, c: string, num: NumberFormat, line: string)
    requires |a| == 1 && |b| == 1 && |c| == 1
    requires line == "|" + ("  " + a) + "|" + ("  " + b) + "|" + ("  " + c) + "|"
    ensures Row([Text(a), Text(b), Text(c)], PerColumn([3, 3, 3]), Shared(DefaultFormat), "grid", Narrow, num) == Ok(line)
  {
    RightInThree(a, num);
    RightInThree(b, num);
    RightInThree(c, num);
    assert Styles["grid"].row == LineStyle("|", "", "|", "|");
    RecordOfThree([Text(a), Text(b), Text(c)], 3, "grid", num, "  " + a, "  " + b, "  " + c, line);
  }

  /** A one-character text right-aligned in three columns. */
  lemma RightInThree(t: string, num: NumberFormat)
    requires |t| == 1
    ensures RowCell(Text(t), 3, DefaultFormat, Narrow, num) == Ok("  " + t)
  {
    assert Spaces(2) == "  ";
    PlainCell(t, 3, DefaultFormat, num);
  }

  /** `table(["bar"], "foo", style='grid', width=3)`: the string `"bar"`
      is a record of three one-character values. */
  lemma GridTable(num: NumberFormat)
    ensures Table([[Text("b"), Text("a"), Text("r")]], Some(["f", "o", "o"]), Shared(DefaultFormat), 3, "grid", Narrow, num) == Ok(
      "+---+---+---+" + "\n" +
      "| f | o | o |" + "\n" +
      "+---+---+---+" + "\n" +
      "|  b|  a|  r|" + "\n" +
      "+---+---+---+" + "\n")
  {
    var data := [[Text("b"), Text("a"), Text("r")]];
    GridHeader();
    GridRecord(num);
    GridRules();
    UniformTableWidths(data, ["f", "o", "o"], 3);
    OneRecordTable(data, ["f", "o", "o"], 3, "grid", num, [3, 3, 3],
                   "+---+---+---+", "| f | o | o |", "+---+---+---+", "|  b|  a|  r|", "+---+---+---+");
  }

  // ---------------------------------------------------------------------
  // tests/test_io.py, `test_table`: numbers with automatic widths

  /** `table([[111, 2, 3], [4, 55, 6]], 'ABC', style='round')`: with the
      default width the widths are measured with `len`, which numbers do
      not have, so the call fails. */
  lemma AutoWidthNumbers(num: NumberFormat)
    ensures Table([[Number(111.0), Number(2.0), Number(3.0)], [Number(4.0), Number(55.0), Number(6.0)]],
                  Some(["A", "B", "C"]), Shared(DefaultFormat), 0, "round", Narrow, num) == Err(TypeError(NoLength))
  {
    var data := [[Number(111.0), Number(2.0), Number(3.0)], [Number(4.0), Number(55.0), Number(6.0)]];
    assert Len(data[0][0]).Err?;
    assert !Measurable(data);
    assert ColumnCount(data, Some(["A", "B", "C"])) == Ok(3);
    assert TableWidths(data, Some(["A", "B", "C"]), 0, 3) == Err(TypeError(NoLength));
  }
}
