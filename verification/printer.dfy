/** The table printer: horizontal rules, the header block, data rows, a whole
    table and a banner, each built as a string. Writing the string to the
    output stream and flushing it is left to the caller.

    Header titles are always centred and data values always right-aligned;
    the printer has no alignment option.
 */
module Printer {
  import opened Results
  import opened Strings
  import opened Style
  import opened Cells
  import opened Utils

  /** `FMT`: the precision specifier used for numbers unless another is given. */
  const DefaultFormat := "5g"

  /** The `format_spec` argument of `row`: one specifier for every value, a
      list with one specifier per value, or a value of any other type. */
  datatype FormatSpec = Shared(spec: string) | PerValue(specs: seq<string>) | Unsupported

  // ---------------------------------------------------------------------
  // hrule, top, bottom

  /** One field per width, each that many copies of `c`. */
  function RuleFields(c: char, widths: seq<nat>): (r: seq<string>)
    ensures |r| == |widths|
    ensures forall i :: 0 <= i < |widths| ==> r[i] == Repeat(c, widths[i])
    decreases |widths|
  {
    if |widths| == 0 then [] else [Repeat(c, widths[0])] + RuleFields(c, widths[1..])
  }

  /** The fields of a rule: one empty field per width, filled with `hline`.
      Python formats them one by one, so an empty width list never looks at
      the fill. */
  function RuleCells(hline: string, widths: seq<nat>): (r: Result<seq<string>>)
    ensures r.Ok? <==> |widths| == 0 || ValidFill(hline)
    ensures r.Ok? ==> |r.value| == |widths|
    ensures r.Ok? ==> forall i :: 0 <= i < |widths| ==> r.value[i] == Repeat(FillChar(hline), widths[i])
    ensures r.Err? ==> r.error == ValueError(InvalidFormatSpecifier)
    decreases |widths|
  {
    if |widths| == 0 then Ok([])
    else
      var field :- FillField(hline, widths[0]);
      var rest := RuleCells(hline, widths[1..]);
      Ok([field] + rest.value)
  }

  /** `hrule(n, width, linestyle)`: a horizontal rule over `n` columns. */
  function Hrule(n: nat, width: WidthSpec, ls: LineStyle): (r: Result<string>)
    ensures r.Ok? <==> ParseWidth(width, n).Ok? && (n == 0 || ValidFill(ls.hline))
    ensures ParseWidth(width, n).Err? ==> r == Err(AssertionError(WidthsMismatch))
    ensures r.Ok? && n == 0 ==> r.value == ls.begin + ls.end
    ensures r.Ok? && n > 0 ==>
      var ws := ParseWidth(width, n).value;
      && r.value == FormatLine(RuleFields(FillChar(ls.hline), ws), ls)
      && |r.value| == |ls.begin| + |ls.end| + Sum(ws) + (n - 1) * |ls.sep|
    ensures r.Ok? && n > 0 && width.Uniform? ==>
      |r.value| == |ls.begin| + |ls.end| + n * width.width + (n - 1) * |ls.sep|
  {
    var ws :- ParseWidth(width, n);
    var cells :- RuleCells(ls.hline, ws);
    if n == 0 then Ok(FormatLine(cells, ls))
    else
      assert cells == RuleFields(FillChar(ls.hline), ws);
      FormatLineLength(cells, ls);
      TotalLengthOfWidths(cells, ws);
      if width.Uniform? then
        assert ws == seq(n, _ => width.width);
        SumUniform(n, width.width);
        Ok(FormatLine(cells, ls))
      else
        Ok(FormatLine(cells, ls))
  }

  /** A rule depends on its width argument only through the widths it
      stands for: a uniform width and the list repeating it give one rule. */
  lemma HruleSameWidths(n: nat, a: WidthSpec, b: WidthSpec, ls: LineStyle)
    requires ParseWidth(a, n) == ParseWidth(b, n)
    ensures Hrule(n, a, ls) == Hrule(n, b, ls)
  {
  }

  /** `top(n, width, style)`: the style's top rule. A registered rule always
      has a usable fill, so only the style name and the widths can fail, and
      the rule is as long as a row of the style over the same widths. */
  function Top(n: nat, width: WidthSpec, style: string): (r: Result<string>)
    ensures style !in Styles ==> r == Err(KeyError(style))
    ensures style in Styles ==> r == Hrule(n, width, Styles[style].top)
    ensures r.Ok? <==> style in Styles && ParseWidth(width, n).Ok?
    ensures r.Ok? && n > 0 ==>
      var row := Styles[style].row;
      |r.value| == |row.begin| + |row.end| + Sum(ParseWidth(width, n).value) + (n - 1) * |row.sep|
  {
    var ts :- Lookup(style);
    RegistryWellFormed(style);
    Hrule(n, width, ts.top)
  }

  /** `bottom(n, width, style)`: the style's closing rule, with the same
      guarantees as `Top`. */
  function Bottom(n: nat, width: WidthSpec, style: string): (r: Result<string>)
    ensures style !in Styles ==> r == Err(KeyError(style))
    ensures style in Styles ==> r == Hrule(n, width, Styles[style].bottom)
    ensures r.Ok? <==> style in Styles && ParseWidth(width, n).Ok?
    ensures r.Ok? && n > 0 ==>
      var row := Styles[style].row;
      |r.value| == |row.begin| + |row.end| + Sum(ParseWidth(width, n).value) + (n - 1) * |row.sep|
  {
    var ts :- Lookup(style);
    RegistryWellFormed(style);
    Hrule(n, width, ts.bottom)
  }

  // ---------------------------------------------------------------------
  // header

  /** The field width of a text in a column of width `w`: widened by the
      text's escape-sequence correction. */
  function TextField(text: string, w: nat, dw: Measure): int {
    w + AnsiLen(text, dw)
  }

  /** `'{:^%d}' % (w + ansi_len(title))` applied to `title`: a negative field
      width is a signed specifier, which Python rejects for text. */
  function HeaderCell(title: string, w: nat, dw: Measure): (r: Result<string>)
    ensures r.Ok? <==> TextField(title, w, dw) >= 0
    ensures r.Ok? ==> r.value == Center(title, TextField(title, w, dw))
    ensures r.Err? ==> r.error == ValueError(SignNotAllowed)
  {
    var field := TextField(title, w, dw);
    if field < 0 then Err(ValueError(SignNotAllowed)) else Ok(Center(title, field))
  }

  /** The centred titles of a header row, formatted left to right. */
  function HeaderCells(titles: seq<string>, widths: seq<nat>, dw: Measure): (r: Result<seq<string>>)
    requires |widths| == |titles|
    ensures r.Ok? <==> forall i :: 0 <= i < |titles| ==> TextField(titles[i], widths[i], dw) >= 0
    ensures r.Ok? ==> |r.value| == |titles|
    ensures r.Ok? ==> forall i :: 0 <= i < |titles| ==> r.value[i] == Center(titles[i], TextField(titles[i], widths[i], dw))
    ensures r.Err? ==> r.error == ValueError(SignNotAllowed)
    decreases |titles|
  {
    if |titles| == 0 then Ok([])
    else
      var first :- HeaderCell(titles[0], widths[0], dw);
      var rest :- HeaderCells(titles[1..], widths[1..], dw);
      Ok([first] + rest)
  }

  /** Every title fits a non-negative field. */
  predicate TitlesFit(titles: seq<string>, widths: seq<nat>, dw: Measure)
    requires |widths| == |titles|
  {
    forall i :: 0 <= i < |titles| ==> TextField(titles[i], widths[i], dw) >= 0
  }

  /** Each title centred in its widened field. */
  function CenteredTitles(titles: seq<string>, widths: seq<nat>, dw: Measure): (r: seq<string>)
    requires |widths| == |titles| && TitlesFit(titles, widths, dw)
    ensures |r| == |titles|
    ensures forall i :: 0 <= i < |titles| ==> r[i] == Center(titles[i], TextField(titles[i], widths[i], dw) as nat)
  {
    seq(|titles|, i requires 0 <= i < |titles| => Center(titles[i], TextField(titles[i], widths[i], dw) as nat))
  }

  /** The header row: each title centred in its widened field, on the row
      line of the style. */
  function HeaderRow(titles: seq<string>, widths: seq<nat>, ts: TableStyle, dw: Measure): string
    requires |widths| == |titles| && TitlesFit(titles, widths, dw)
  {
    FormatLine(CenteredTitles(titles, widths, dw), ts.row)
  }

  /** `header(headers, width, style, add_hr)`: the header row alone, or with
      the top rule above it and the below-header rule under it. */
  function Header(titles: seq<string>, width: WidthSpec, style: string, addHr: bool, dw: Measure): (r: Result<string>)
    ensures style !in Styles ==> r == Err(KeyError(style))
    ensures style in Styles && ParseWidth(width, |titles|).Err? ==> r == Err(AssertionError(WidthsMismatch))
    ensures r.Ok? <==>
      && style in Styles
      && ParseWidth(width, |titles|).Ok?
      && TitlesFit(titles, ParseWidth(width, |titles|).value, dw)
    ensures style in Styles && ParseWidth(width, |titles|).Ok? && !TitlesFit(titles, ParseWidth(width, |titles|).value, dw) ==>
      r == Err(ValueError(SignNotAllowed))
    ensures r.Ok? ==>
      var ws := ParseWidth(width, |titles|).value;
      var line := HeaderRow(titles, ws, Styles[style], dw);
      if addHr then
        && Top(|titles|, width, style).Ok?
        && Hrule(|titles|, width, Styles[style].belowHeader).Ok?
        && r.value == Top(|titles|, width, style).value + "\n" + line + "\n"
                      + Hrule(|titles|, width, Styles[style].belowHeader).value
      else r.value == line
  {
    var ts :- Lookup(style);
    var ws :- ParseWidth(width, |titles|);
    var cells :- HeaderCells(titles, ws, dw);
    var line := FormatLine(cells, ts.row);
    assert cells == CenteredTitles(titles, ws, dw);
    if !addHr then Ok(line)
    else
      RegistryWellFormed(style);
      var upper := Hrule(|titles|, PerColumn(ws), ts.top);
      var lower := Hrule(|titles|, PerColumn(ws), ts.belowHeader);
      HruleSameWidths(|titles|, PerColumn(ws), width, ts.top);
      HruleSameWidths(|titles|, PerColumn(ws), width, ts.belowHeader);
      Ok(upper.value + "\n" + line + "\n" + lower.value)
  }

  /** A line of a style whose pieces and cells hold no newline is a single
      line. */
  lemma LineExcludesNewline(cells: seq<string>, ls: LineStyle)
    requires SingleLine(ls)
    requires forall k :: 0 <= k < |cells| ==> '\n' !in cells[k]
    ensures '\n' !in FormatLine(cells, ls)
  {
    JoinExcludes(cells, ls.sep, '\n');
  }

  /** A rule of a style without newlines is a single line. */
  lemma RuleExcludesNewline(n: nat, width: WidthSpec, ls: LineStyle)
    requires Hrule(n, width, ls).Ok? && SingleLine(ls)
    ensures '\n' !in Hrule(n, width, ls).value
  {
    if n > 0 {
      var ws := ParseWidth(width, n).value;
      var fill := FillChar(ls.hline);
      assert fill != '\n' by {
        if |ls.hline| > 0 { assert ls.hline[0] in ls.hline; }
      }
      var cells := RuleFields(fill, ws);
      LineExcludesNewline(cells, ls);
    }
  }

  /** The centred titles of a header row form a single line when no title
      holds a newline. */
  lemma HeaderRowExcludesNewline(titles: seq<string>, widths: seq<nat>, ts: TableStyle, dw: Measure)
    requires |widths| == |titles| && TitlesFit(titles, widths, dw) && SingleLine(ts.row)
    requires forall i :: 0 <= i < |titles| ==> '\n' !in titles[i]
    ensures '\n' !in HeaderRow(titles, widths, ts, dw)
  {
    var cells := CenteredTitles(titles, widths, dw);
    forall k | 0 <= k < |cells|
      ensures '\n' !in cells[k]
    {
      CenterExcludes(titles[k], TextField(titles[k], widths[k], dw) as nat, '\n');
    }
    LineExcludesNewline(cells, ts.row);
  }

  /** With `add_hr` the header block is exactly three lines: the top rule,
      the centred titles, and the below-header rule. */
  lemma HeaderLines(titles: seq<string>, width: WidthSpec, style: string, dw: Measure)
    requires Header(titles, width, style, true, dw).Ok?
    requires forall i :: 0 <= i < |titles| ==> '\n' !in titles[i]
    ensures style in Styles && ParseWidth(width, |titles|).Ok?
    ensures TitlesFit(titles, ParseWidth(width, |titles|).value, dw)
    ensures Split(Header(titles, width, style, true, dw).value, '\n') ==
      [ Top(|titles|, width, style).value,
        HeaderRow(titles, ParseWidth(width, |titles|).value, Styles[style], dw),
        Hrule(|titles|, width, Styles[style].belowHeader).value ]
  {
    var ts := Styles[style];
    var ws := ParseWidth(width, |titles|).value;
    RegistryWellFormed(style);
    var upper := Top(|titles|, width, style).value;
    var line := HeaderRow(titles, ws, ts, dw);
    var lower := Hrule(|titles|, width, ts.belowHeader).value;
    assert Header(titles, width, style, true, dw).value == upper + "\n" + line + "\n" + lower;
    RuleExcludesNewline(|titles|, width, ts.top);
    RuleExcludesNewline(|titles|, width, ts.belowHeader);
    HeaderRowExcludesNewline(titles, ws, ts, dw);
    SplitJoin([upper, line, lower], '\n');
    JoinThree(upper, line, lower, "\n");
  }

  // ---------------------------------------------------------------------
  // row

  /** `format_spec` as a list: a single specifier is repeated for every
      value; anything but a string or a list fails the assertion. */
  function Specs(spec: FormatSpec, n: nat): (r: Result<seq<string>>)
    ensures r.Ok? <==> !spec.Unsupported?
    ensures spec.Shared? ==> r.Ok? && |r.value| == n && forall i :: 0 <= i < n ==> r.value[i] == spec.spec
    ensures spec.PerValue? ==> r == Ok(spec.specs)
    ensures r.Err? ==> r.error == AssertionError(FormatSpecNotStringOrList)
  {
    match spec
    case Shared(s) => Ok(seq(n, _ => s))
    case PerValue(ss) => Ok(ss)
    case Unsupported => Err(AssertionError(FormatSpecNotStringOrList))
  }

  /** One value of a row in a column of width `w`: text right-aligned in its
      widened field, a number rendered with its precision then right-aligned
      in `w` columns, anything else a ValueError. */
  function RowCell(v: Cell, w: nat, prec: string, dw: Measure, num: NumberFormat): (r: Result<string>)
    ensures r.Ok? <==> v.Number? || (v.Text? && TextField(v.text, w, dw) >= 0)
    ensures v.Text? && r.Ok? ==> r.value == AlignRight(v.text, TextField(v.text, w, dw))
    ensures v.Text? && r.Err? ==> r.error == ValueError(SignNotAllowed)
    ensures v.Number? ==> r == Ok(AlignRight(num(v.value, prec), w))
    ensures v.Other? ==> r == Err(ValueError(BadElement))
  {
    match v
    case Text(s) =>
      var field := TextField(s, w, dw);
      if field < 0 then Err(ValueError(SignNotAllowed)) else Ok(AlignRight(s, field))
    case Number(x) => Ok(AlignRight(num(x, prec), w))
    case Other(_) => Err(ValueError(BadElement))
  }

  /** The formatting of each value `zip` pairs with a width and a
      specifier; `zip` stops at the shortest list. */
  function CellResults(values: seq<Cell>, widths: seq<nat>, specs: seq<string>, dw: Measure, num: NumberFormat): (r: seq<Result<string>>)
    requires |widths| == |values|
    ensures |r| == Min(|values|, |specs|)
    ensures forall i :: 0 <= i < |r| ==> r[i] == RowCell(values[i], widths[i], specs[i], dw, num)
  {
    seq(Min(|values|, |specs|), i requires 0 <= i < Min(|values|, |specs|) => RowCell(values[i], widths[i], specs[i], dw, num))
  }

  /** `map(mapdata, zip(widths, values, format_spec))`: values past the end
      of a short specifier list are neither formatted nor checked; the first
      failing value raises. */
  function RowCells(values: seq<Cell>, widths: seq<nat>, specs: seq<string>, dw: Measure, num: NumberFormat): (r: Result<seq<string>>)
    requires |widths| == |values|
    ensures r.Ok? <==> forall i :: 0 <= i < Min(|values|, |specs|) ==> RowCell(values[i], widths[i], specs[i], dw, num).Ok?
    ensures r.Ok? ==> |r.value| == Min(|values|, |specs|)
    ensures r.Ok? ==> forall i :: 0 <= i < |r.value| ==> Ok(r.value[i]) == RowCell(values[i], widths[i], specs[i], dw, num)
  {
    Collect(CellResults(values, widths, specs, dw, num))
  }

  /** A failing row raises the error of its first failing value. */
  lemma RowCellsFailure(values: seq<Cell>, widths: seq<nat>, specs: seq<string>, dw: Measure, num: NumberFormat, e: Error)
    requires |widths| == |values|
    requires RowCells(values, widths, specs, dw, num) == Err(e)
    ensures exists i :: (0 <= i < Min(|values|, |specs|)
      && (forall j :: 0 <= j < i ==> RowCell(values[j], widths[j], specs[j], dw, num).Ok?)
      && RowCell(values[i], widths[i], specs[i], dw, num) == Err(e))
  {
    var rs := CellResults(values, widths, specs, dw, num);
    var i := FirstFailure(rs, e);
    assert rs[i] == RowCell(values[i], widths[i], specs[i], dw, num);
  }

  /** `row(values, width, format_spec, style)`: one data line. The style is
      looked up first, then the widths are checked against the number of
      values, then the specifier's type. */
  function Row(values: seq<Cell>, width: WidthSpec, spec: FormatSpec, style: string, dw: Measure, num: NumberFormat): (r: Result<string>)
    ensures style !in Styles ==> r == Err(KeyError(style))
    ensures style in Styles && ParseWidth(width, |values|).Err? ==> r == Err(AssertionError(WidthsMismatch))
    ensures style in Styles && ParseWidth(width, |values|).Ok? && spec.Unsupported? ==>
      r == Err(AssertionError(FormatSpecNotStringOrList))
    ensures r.Ok? ==>
      && style in Styles && ParseWidth(width, |values|).Ok? && !spec.Unsupported?
      && var cells := RowCells(values, ParseWidth(width, |values|).value, Specs(spec, |values|).value, dw, num);
      && cells.Ok?
      && r.value == FormatLine(cells.value, Styles[style].row)
    ensures style in Styles && ParseWidth(width, |values|).Ok? && !spec.Unsupported? ==>
      var cells := RowCells(values, ParseWidth(width, |values|).value, Specs(spec, |values|).value, dw, num);
      && (cells.Ok? ==> r.Ok?)
      && (cells.Err? ==> r == Err(cells.error))
  {
    var ts :- Lookup(style);
    var ws :- ParseWidth(width, |values|);
    var specs :- Specs(spec, |values|);
    var cells :- RowCells(values, ws, specs, dw, num);
    Ok(FormatLine(cells, ts.row))
  }

  /** With a single specifier every value is formatted, so one value that
      is neither text nor a number makes the row fail. */
  lemma RowRejectsOther(values: seq<Cell>, width: WidthSpec, spec: FormatSpec, style: string, dw: Measure, num: NumberFormat, i: nat)
    requires i < |values| && values[i].Other? && !spec.PerValue?
    ensures Row(values, width, spec, style, dw, num).Err?
    ensures (&& style in Styles && ParseWidth(width, |values|).Ok? && spec.Shared?
             && forall j :: 0 <= j < i && values[j].Text? ==>
                  TextField(values[j].text, ParseWidth(width, |values|).value[j], dw) >= 0) ==>
      Row(values, width, spec, style, dw, num) == Err(ValueError(BadElement))
  {
    if style in Styles && ParseWidth(width, |values|).Ok? && spec.Shared? {
      var ws := ParseWidth(width, |values|).value;
      var specs := Specs(spec, |values|).value;
      if forall j :: 0 <= j < i && values[j].Text? ==> TextField(values[j].text, ws[j], dw) >= 0 {
        CellsRejectOther(values, ws, specs, dw, num, i);
      } else {
        assert RowCell(values[i], ws[i], specs[i], dw, num).Err?;
      }
    }
  }

  /** When every earlier text fits its field, the first value that is
      neither text nor a number is the one that raises. */
  lemma CellsRejectOther(values: seq<Cell>, ws: seq<nat>, specs: seq<string>, dw: Measure, num: NumberFormat, i: nat)
    requires |ws| == |values| && i < Min(|values|, |specs|) && values[i].Other?
    requires forall j :: 0 <= j < i && values[j].Text? ==> TextField(values[j].text, ws[j], dw) >= 0
    ensures RowCells(values, ws, specs, dw, num) == Err(ValueError(BadElement))
  {
    var rs := CellResults(values, ws, specs, dw, num);
    assert rs[i].Err?;
    var e := Collect(rs).error;
    var k := FirstFailure(rs, e);
    assert k <= i;
    assert rs[k] == RowCell(values[k], ws[k], specs[k], dw, num);
  }

  /** Plain texts that fit their columns are padded to exactly the columns'
      widths. */
  lemma PlainCellsFill(values: seq<Cell>, ws: seq<nat>, specs: seq<string>, dw: Measure, num: NumberFormat, cells: seq<string>)
    requires |ws| == |values| <= |specs|
    requires RowCells(values, ws, specs, dw, num) == Ok(cells)
    requires forall i :: 0 <= i < |values| ==>
      (values[i].Text? && AnsiLen(values[i].text, dw) == 0 && |values[i].text| <= ws[i])
    ensures |cells| == |ws|
    ensures forall i :: 0 <= i < |cells| ==> |cells[i]| == ws[i]
  {
    forall i | 0 <= i < |cells|
      ensures |cells[i]| == ws[i]
    {
      assert Ok(cells[i]) == RowCell(values[i], ws[i], specs[i], dw, num);
    }
  }

  /** A row whose values all fit their fields is exactly as long as a rule of
      its style over the same widths. */
  lemma RowMatchesRule(values: seq<Cell>, width: WidthSpec, spec: FormatSpec, style: string, dw: Measure, num: NumberFormat)
    requires |values| > 0
    requires Row(values, width, spec, style, dw, num).Ok?
    requires !spec.PerValue? || |spec.specs| >= |values|
    requires forall i :: 0 <= i < |values| ==>
      (values[i].Text? && AnsiLen(values[i].text, dw) == 0 && |values[i].text| <= ParseWidth(width, |values|).value[i])
    ensures |Row(values, width, spec, style, dw, num).value| == |Top(|values|, width, style).value|
  {
    var ws := ParseWidth(width, |values|).value;
    var specs := Specs(spec, |values|).value;
    var cells := RowCells(values, ws, specs, dw, num).value;
    PlainCellsFill(values, ws, specs, dw, num, cells);
    FormatLineOverWidths(cells, ws, Styles[style].row);
  }

  // ---------------------------------------------------------------------
  // table

  /** The number of columns: the headers', else the first record's. Without
      headers an empty table has no first record. */
  function ColumnCount(data: seq<seq<Cell>>, headers: Option<seq<string>>): (r: Result<nat>)
    ensures headers.Some? ==> r == Ok(|headers.value|)
    ensures headers.None? && |data| > 0 ==> r == Ok(|data[0]|)
    ensures headers.None? && |data| == 0 ==> r == Err(IndexError(IndexOutOfRange))
  {
    if headers.Some? then Ok(|headers.value|)
    else if |data| == 0 then Err(IndexError(IndexOutOfRange))
    else Ok(|data[0]|)
  }

  /** The column widths of a table: a positive `width` for every column,
      otherwise computed from the headers and the values (without headers,
      `calculate_widths` iterates `None`). */
  function TableWidths(data: seq<seq<Cell>>, headers: Option<seq<string>>, width: int, ncols: nat): (r: Result<seq<nat>>)
    ensures width > 0 ==> r.Ok? && |r.value| == ncols && forall i :: 0 <= i < ncols ==> r.value[i] == width
    ensures width <= 0 && headers.None? ==> r == Err(TypeError(NoneNotIterable))
    ensures width <= 0 && headers.Some? ==> r == CalculateWidths(data, headers.value)
  {
    if width > 0 then ParseWidth(Uniform(width), ncols)
    else if headers.None? then Err(TypeError(NoneNotIterable))
    else CalculateWidths(data, headers.value)
  }

  /** Each record formatted as a row of the table's widths and style. */
  function RowResults(data: seq<seq<Cell>>, widths: seq<nat>, spec: FormatSpec, style: string, dw: Measure, num: NumberFormat): (r: seq<Result<string>>)
    ensures |r| == |data|
    ensures forall k :: 0 <= k < |data| ==> r[k] == Row(data[k], PerColumn(widths), spec, style, dw, num)
  {
    seq(|data|, k requires 0 <= k < |data| => Row(data[k], PerColumn(widths), spec, style, dw, num))
  }

  /** One formatted line per record, in input order; the first record that
      fails stops the table. */
  function Rows(data: seq<seq<Cell>>, widths: seq<nat>, spec: FormatSpec, style: string, dw: Measure, num: NumberFormat): (r: Result<seq<string>>)
    ensures r.Ok? <==> forall k :: 0 <= k < |data| ==> Row(data[k], PerColumn(widths), spec, style, dw, num).Ok?
    ensures r.Ok? ==> |r.value| == |data|
    ensures r.Ok? ==> forall k :: 0 <= k < |data| ==> Ok(r.value[k]) == Row(data[k], PerColumn(widths), spec, style, dw, num)
  {
    Collect(RowResults(data, widths, spec, style, dw, num))
  }

  /** A failing table raises the error of its first failing record. */
  lemma RowsFailure(data: seq<seq<Cell>>, widths: seq<nat>, spec: FormatSpec, style: string, dw: Measure, num: NumberFormat, e: Error)
    requires Rows(data, widths, spec, style, dw, num) == Err(e)
    ensures exists k :: (0 <= k < |data|
      && (forall j :: 0 <= j < k ==> Row(data[j], PerColumn(widths), spec, style, dw, num).Ok?)
      && Row(data[k], PerColumn(widths), spec, style, dw, num) == Err(e))
  {
    var rs := RowResults(data, widths, spec, style, dw, num);
    var k := FirstFailure(rs, e);
    assert rs[k] == Row(data[k], PerColumn(widths), spec, style, dw, num);
  }

  /** The blocks of a table once its column count and widths are known. */
  function Blocks(data: seq<seq<Cell>>, headers: Option<seq<string>>, spec: FormatSpec, style: string,
                  ncols: nat, ws: seq<nat>, dw: Measure, num: NumberFormat): (r: Result<seq<string>>)
    requires style in Styles && (headers.Some? ==> ncols == |headers.value|)
    ensures r.Ok? ==>
      && |ws| == ncols
      && |r.value| == 1 + |data| + (if |data| > 0 then 1 else 0)
      && (headers.Some? ==> Ok(r.value[0]) == Header(headers.value, PerColumn(ws), style, true, dw))
      && (headers.None? ==> Ok(r.value[0]) == Hrule(ncols, PerColumn(ws), Styles[style].top))
      && (forall k :: 0 <= k < |data| ==> Ok(r.value[1 + k]) == Row(data[k], PerColumn(ws), spec, style, dw, num))
      && (|data| > 0 ==> Ok(r.value[|r.value| - 1]) == Hrule(ncols, PerColumn(ws), Styles[style].bottom))
    ensures headers.None? && |ws| != ncols ==> r == Err(AssertionError(WidthsMismatch))
    ensures headers.Some? && Header(headers.value, PerColumn(ws), style, true, dw).Err? ==>
      r == Err(Header(headers.value, PerColumn(ws), style, true, dw).error)
    ensures |ws| == ncols && (headers.Some? ==> Header(headers.value, PerColumn(ws), style, true, dw).Ok?) ==>
      var rows := Rows(data, ws, spec, style, dw, num);
      && (rows.Ok? ==> r.Ok?)
      && (rows.Err? ==> r == Err(rows.error))
  {
    var ts := Styles[style];
    RegistryWellFormed(style);
    var first := if headers.None? then Hrule(ncols, PerColumn(ws), ts.top)
                 else Header(headers.value, PerColumn(ws), style, true, dw);
    if first.Err? then Err(first.error)
    else
      assert |ws| == ncols;
      var lines := Rows(data, ws, spec, style, dw, num);
      if lines.Err? then Err(lines.error)
      else if |data| > 0 then
        var last := Hrule(ncols, PerColumn(ws), ts.bottom);
        Framed(first.value, lines.value, last.value);
        Ok([first.value] + lines.value + [last.value])
      else
        Ok([first.value] + lines.value)
  }

  /** The lines of `table(data, headers, format_spec, width, style)` before
      they are joined: the header block when there are headers, else the top
      rule; one line per record in order; and the bottom rule only when
      there is at least one record. */
  function TableBlocks(data: seq<seq<Cell>>, headers: Option<seq<string>>, spec: FormatSpec, width: int, style: string, dw: Measure, num: NumberFormat): (r: Result<seq<string>>)
    ensures headers.None? && |data| == 0 ==> r == Err(IndexError(IndexOutOfRange))
    ensures (headers.Some? || |data| > 0) && style !in Styles ==> r == Err(KeyError(style))
    ensures (headers.Some? || |data| > 0) && style in Styles && width <= 0 && headers.None? ==>
      r == Err(TypeError(NoneNotIterable))
    ensures r.Ok? ==> style in Styles && ColumnCount(data, headers).Ok?
    ensures r.Ok? ==> TableWidths(data, headers, width, ColumnCount(data, headers).value).Ok?
    ensures r.Ok? ==>
      var ncols := ColumnCount(data, headers).value;
      var ws := TableWidths(data, headers, width, ncols).value;
      && |ws| == ncols
      && |r.value| == 1 + |data| + (if |data| > 0 then 1 else 0)
      && (headers.Some? ==> Ok(r.value[0]) == Header(headers.value, PerColumn(ws), style, true, dw))
      && (headers.None? ==> Ok(r.value[0]) == Hrule(ncols, PerColumn(ws), Styles[style].top))
      && (forall k :: 0 <= k < |data| ==> Ok(r.value[1 + k]) == Row(data[k], PerColumn(ws), spec, style, dw, num))
      && (|data| > 0 ==> Ok(r.value[|r.value| - 1]) == Hrule(ncols, PerColumn(ws), Styles[style].bottom))
    ensures (&& ColumnCount(data, headers).Ok? && style in Styles
             && TableWidths(data, headers, width, ColumnCount(data, headers).value).Err?) ==>
      r == Err(TableWidths(data, headers, width, ColumnCount(data, headers).value).error)
    ensures (&& ColumnCount(data, headers).Ok? && style in Styles
             && TableWidths(data, headers, width, ColumnCount(data, headers).value).Ok?) ==>
      var ws := TableWidths(data, headers, width, ColumnCount(data, headers).value).value;
      var head := if headers.Some? then Header(headers.value, PerColumn(ws), style, true, dw) else Ok("");
      var rows := Rows(data, ws, spec, style, dw, num);
      && (head.Err? ==> r == Err(head.error))
      && (head.Ok? && rows.Err? ==> r == Err(rows.error))
      && (head.Ok? && rows.Ok? ==> r.Ok?)
  {
    var ncols :- ColumnCount(data, headers);
    var ts :- Lookup(style);
    var ws :- TableWidths(data, headers, width, ncols);
    Blocks(data, headers, spec, style, ncols, ws, dw, num)
  }

  /** `table(...)`: the lines joined by newlines, with a final newline. */
  function Table(data: seq<seq<Cell>>, headers: Option<seq<string>>, spec: FormatSpec, width: int, style: string, dw: Measure, num: NumberFormat): (r: Result<string>)
    ensures r.Ok? <==> TableBlocks(data, headers, spec, width, style, dw, num).Ok?
    ensures r.Err? ==> r.error == TableBlocks(data, headers, spec, width, style, dw, num).error
    ensures r.Ok? ==> |r.value| > 0 && r.value[|r.value| - 1] == '\n'
  {
    var blocks :- TableBlocks(data, headers, spec, width, style, dw, num);
    Ok(Join(blocks, "\n") + "\n")
  }

  /** The printed table is its blocks, one per line. */
  lemma TableJoinsBlocks(data: seq<seq<Cell>>, headers: Option<seq<string>>, spec: FormatSpec, width: int, style: string, dw: Measure, num: NumberFormat)
    requires TableBlocks(data, headers, spec, width, style, dw, num).Ok?
    ensures Table(data, headers, spec, width, style, dw, num).Ok?
    ensures Table(data, headers, spec, width, style, dw, num).value
      == Join(TableBlocks(data, headers, spec, width, style, dw, num).value, "\n") + "\n"
  {
  }

  // ---------------------------------------------------------------------
  // banner

  /** `banner(message, width, style)`: a one-column header block at least
      `width` wide and never narrower than the message, followed by a
      newline. */
  function Banner(message: string, width: int, style: string, dw: Measure): (r: Result<string>)
    ensures r.Ok? <==> style in Styles && TextField(message, Max(width, |message|), dw) >= 0
    ensures style !in Styles ==> r == Err(KeyError(style))
    ensures r.Ok? ==>
      var w: nat := Max(width, |message|);
      var row := Styles[style].row;
      && Top(1, Uniform(w), style).Ok?
      && Hrule(1, Uniform(w), Styles[style].belowHeader).Ok?
      && r.value == Top(1, Uniform(w), style).value + "\n"
           + (row.begin + Center(message, TextField(message, w, dw) as nat) + row.end) + "\n"
           + Hrule(1, Uniform(w), Styles[style].belowHeader).value + "\n"
  {
    var w: nat := Max(width, |message|);
    var h :- Header([message], Uniform(w), style, true, dw);
    BannerHeader(message, w, style, dw);
    Ok(h + "\n")
  }

  /** The header block of a single title. */
  lemma BannerHeader(message: string, w: nat, style: string, dw: Measure)
    requires style in Styles && TextField(message, w, dw) >= 0
    ensures Top(1, Uniform(w), style).Ok? && Hrule(1, Uniform(w), Styles[style].belowHeader).Ok?
    ensures Header([message], Uniform(w), style, true, dw) ==
      Ok(Top(1, Uniform(w), style).value + "\n"
         + (Styles[style].row.begin + Center(message, TextField(message, w, dw) as nat) + Styles[style].row.end) + "\n"
         + Hrule(1, Uniform(w), Styles[style].belowHeader).value)
  {
    var ws := ParseWidth(Uniform(w), 1).value;
    assert ws == [w];
    BannerRow(message, w, Styles[style], dw);
    var h := Header([message], Uniform(w), style, true, dw);
    assert h.Ok?;
    assert h.value == Top(1, Uniform(w), style).value + "\n" + HeaderRow([message], ws, Styles[style], dw) + "\n"
                      + Hrule(1, Uniform(w), Styles[style].belowHeader).value;
  }

  /** A one-title header row is the title centred between the row's ends. */
  lemma BannerRow(message: string, w: nat, ts: TableStyle, dw: Measure)
    requires TextField(message, w, dw) >= 0
    ensures TitlesFit([message], [w], dw)
    ensures HeaderRow([message], [w], ts, dw) == ts.row.begin + Center(message, TextField(message, w, dw) as nat) + ts.row.end
  {
    assert CenteredTitles([message], [w], dw) == [Center(message, TextField(message, w, dw) as nat)];
  }
}
