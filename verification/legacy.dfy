/** The single-module formatter of release 0.1.5: ASCII tables with one
    column width for every column, an outer character around each line, a
    corner character where rules cross column edges, and a line character
    for the rules. Each line is returned as a string; printing is left to the
    caller.
 */
module Legacy {
  import opened Results
  import opened Strings
  import opened Cells
  import opened Style
  import opened Utils
  import Printer

  /** `s[1:-1]`: the string without its first and last character; Python
      gives the empty string for a string shorter than two. */
  function Inner(s: string): (r: string)
    ensures |s| >= 2 ==> |r| == |s| - 2 && s == [s[0]] + r + [s[|s| - 1]]
    ensures |s| < 2 ==> r == ""
  {
    if |s| >= 2 then s[1..|s| - 1] else ""
  }

  /** `hr(ncols, column_width, corner_char, line_char)`: `ncols` fields of
      `column_width + 2` line characters joined by the corner, with one line
      character trimmed from each end and a corner put in its place. */
  function Hr(ncols: nat, cw: nat, corner: string, line: string): (r: Result<string>)
    ensures r.Ok? <==> ncols == 0 || ValidFill(line)
    ensures r.Err? ==> r.error == ValueError(InvalidFormatSpecifier)
    ensures r.Ok? ==> |r.value| >= 2 * |corner|
    ensures r.Ok? ==> r.value[..|corner|] == corner && r.value[|r.value| - |corner|..] == corner
    ensures r.Ok? && ncols == 0 ==> r.value == corner + corner
    ensures r.Ok? && ncols == 1 ==> r.value == corner + Repeat(FillChar(line), cw) + corner
    ensures r.Ok? && ncols >= 2 ==> |r.value| >= 2 * |corner| + cw + 1
    ensures r.Ok? && ncols >= 2 ==>
      && r.value[|corner|..|corner| + cw + 1] == Repeat(FillChar(line), cw + 1)
      && r.value[|corner| + cw + 1..2 * |corner| + cw + 1] == corner
    ensures r.Ok? && ncols > 0 ==> |r.value| == ncols * (cw + 2) + (ncols + 1) * |corner| - 2
  {
    var field :- if ncols == 0 then Ok("") else FillField(line, cw + 2);
    var hrstr := Join(seq(ncols, _ => field), corner);
    HrShape(ncols, cw, corner, field);
    Ok(corner + Inner(hrstr) + corner)
  }

  /** The shape of a rule built from `ncols` copies of one field. */
  lemma HrShape(ncols: nat, cw: nat, corner: string, field: string)
    requires ncols > 0 ==> |field| == cw + 2
    ensures var r := corner + Inner(Join(seq(ncols, _ => field), corner)) + corner;
      && (ncols == 1 ==> r == corner + field[1..cw + 1] + corner)
      && (ncols > 0 ==> |r| == ncols * (cw + 2) + (ncols + 1) * |corner| - 2)
      && (ncols >= 2 ==> |r| >= 2 * |corner| + cw + 1)
      && (ncols >= 2 ==> r[|corner|..|corner| + cw + 1] == field[1..] && r[|corner| + cw + 1..2 * |corner| + cw + 1] == corner)
  {
    if ncols > 0 {
      HrLength(ncols, cw, corner, field);
    }
    if ncols == 1 {
      assert seq(ncols, _ => field) == [field];
    }
    if ncols >= 2 {
      HrFirstColumn(ncols, cw, corner, field);
    }
  }

  lemma HrLength(ncols: nat, cw: nat, corner: string, field: string)
    requires ncols > 0 && |field| == cw + 2
    ensures |corner + Inner(Join(seq(ncols, _ => field), corner)) + corner| == ncols * (cw + 2) + (ncols + 1) * |corner| - 2
  {
    var fields := seq(ncols, _ => field);
    var hrstr := Join(fields, corner);
    FieldsLength(fields, cw, corner);
    RuleArith(ncols, cw, |corner|, |hrstr|);
    assert |Inner(hrstr)| == |hrstr| - 2;
  }

  /** The arithmetic of trimming one character off each end of the joined
      fields and adding a corner in its place. */
  lemma RuleArith(n: nat, cw: nat, c: nat, len: nat)
    requires n > 0 && len == n * (cw + 2) + (n - 1) * c
    ensures len >= 2
    ensures 2 * c + len - 2 == n * (cw + 2) + (n + 1) * c - 2
  {
    assert n * (cw + 2) == (n - 1) * (cw + 2) + cw + 2;
    assert (n - 1) * c == n * c - c;
    assert (n + 1) * c == n * c + c;
  }

  /** Fields of one width joined by the corner. */
  lemma FieldsLength(fields: seq<string>, cw: nat, corner: string)
    requires |fields| > 0 && forall i :: 0 <= i < |fields| ==> |fields[i]| == cw + 2
    ensures |Join(fields, corner)| == |fields| * (cw + 2) + (|fields| - 1) * |corner|
  {
    JoinLength(fields, corner);
    TotalLengthOfWidths(fields, seq(|fields|, _ => cw + 2));
    SumUniform(|fields|, cw + 2);
  }

  lemma HrFirstColumn(ncols: nat, cw: nat, corner: string, field: string)
    requires ncols >= 2 && |field| == cw + 2
    ensures var r := corner + Inner(Join(seq(ncols, _ => field), corner)) + corner;
      && |r| >= 2 * |corner| + cw + 1
      && r[|corner|..|corner| + cw + 1] == field[1..]
      && r[|corner| + cw + 1..2 * |corner| + cw + 1] == corner
  {
    var fields := seq(ncols, _ => field);
    var hrstr := Join(fields, corner);
    var rest := Join(fields[1..], corner);
    assert hrstr == field + corner + rest;
    JoinStartsWith(fields[1..], corner);
    var r := corner + Inner(hrstr) + corner;
    assert Inner(hrstr) == field[1..] + corner + rest[..|rest| - 1];
  }

  /** The text between two cells: the outer character with a space on each
      side. */
  function Separator(outer: string): string {
    " " + outer + " "
  }

  /** `header(headers, column_width, outer_char)`: each title left-aligned
      to the column width, never truncated. */
  function Header(titles: seq<string>, cw: nat, outer: string): (r: string)
    ensures r == FormatLine(seq(|titles|, i requires 0 <= i < |titles| => AlignLeft(titles[i], cw)), LineStyle(outer, "", Separator(outer), outer))
    ensures |titles| == 0 ==> r == outer + outer
    ensures r[..|outer|] == outer && r[|r| - |outer|..] == outer
    ensures Fit(titles, cw) ==> forall i :: 0 <= i < |titles| ==> HasTitle(r, titles, cw, outer, i)
  {
    var cells := seq(|titles|, i requires 0 <= i < |titles| => AlignLeft(titles[i], cw));
    var r := outer + Join(cells, Separator(outer)) + outer;
    assert Fit(titles, cw) ==> forall i :: 0 <= i < |titles| ==> HasTitle(r, titles, cw, outer, i) by {
      if Fit(titles, cw) {
        forall i | 0 <= i < |titles|
          ensures HasTitle(r, titles, cw, outer, i)
        {
          HeaderField(titles, cw, outer, i, cells, r);
        }
      }
    }
    r
  }

  /** Every title fits the column width. */
  predicate Fit(titles: seq<string>, cw: nat) {
    forall k :: 0 <= k < |titles| ==> |titles[k]| <= cw
  }

  /** Where field `i` of a line starts: after the outer character and `i`
      fields of `cw` columns, each followed by a separator. */
  function FieldOffset(cw: nat, outer: string, i: nat): nat {
    |outer| + FieldStart(i, cw + |Separator(outer)|)
  }

  /** Field `i` of the header line `r` is title `i` followed by spaces up to
      the column width, and a separator follows it unless it is the last. */
  predicate HasTitle(r: string, titles: seq<string>, cw: nat, outer: string, i: nat)
    requires i < |titles| && |titles[i]| <= cw
  {
    && HasAt(r, FieldOffset(cw, outer, i), titles[i] + Spaces(cw - |titles[i]|))
    && (i + 1 < |titles| ==> HasAt(r, FieldOffset(cw, outer, i) + cw, Separator(outer)))
  }

  /** Title `i` of a header whose titles all fit sits left-aligned in its
      field. */
  lemma HeaderField(titles: seq<string>, cw: nat, outer: string, i: nat, cells: seq<string>, r: string)
    requires Fit(titles, cw) && i < |titles|
    requires cells == seq(|titles|, i requires 0 <= i < |titles| => AlignLeft(titles[i], cw))
    requires r == outer + Join(cells, Separator(outer)) + outer
    ensures HasTitle(r, titles, cw, outer, i)
  {
    var sep := Separator(outer);
    FittedTitles(titles, cw, cells);
    FramedJoinField(outer, cells, sep, outer, cw, i, Join(cells, sep));
  }

  /** Titles that fit are padded with spaces to exactly the column width. */
  lemma FittedTitles(titles: seq<string>, cw: nat, cells: seq<string>)
    requires Fit(titles, cw)
    requires cells == seq(|titles|, i requires 0 <= i < |titles| => AlignLeft(titles[i], cw))
    ensures forall k :: 0 <= k < |cells| ==> |cells[k]| == cw && cells[k] == titles[k] + Spaces(cw - |titles[k]|)
  {
  }

  /** One value of a row: text and rendered numbers right-aligned to the
      column width; anything else a ValueError. */
  function RowCell(v: Cell, cw: nat, prec: string, num: NumberFormat): (r: Result<string>)
    ensures r.Ok? <==> !v.Other?
    ensures v.Text? ==> r == Ok(AlignRight(v.text, cw))
    ensures v.Number? ==> r == Ok(AlignRight(num(v.value, prec), cw))
    ensures r.Err? ==> r.error == ValueError(BadElement)
  {
    match v
    case Text(s) => Ok(AlignRight(s, cw))
    case Number(x) => Ok(AlignRight(num(x, prec), cw))
    case Other(_) => Err(ValueError(BadElement))
  }

  /** The formatting of each value `zip` pairs with a specifier. */
  function CellResults(values: seq<Cell>, cw: nat, specs: seq<string>, num: NumberFormat): (r: seq<Result<string>>)
    ensures |r| == Min(|values|, |specs|)
    ensures forall i :: 0 <= i < |r| ==> r[i] == RowCell(values[i], cw, specs[i], num)
  {
    seq(Min(|values|, |specs|), i requires 0 <= i < Min(|values|, |specs|) => RowCell(values[i], cw, specs[i], num))
  }

  /** `map(mapdata, zip(values, format_spec))`: values past the end of a
      short specifier list are dropped; the first bad value raises. */
  function RowCells(values: seq<Cell>, cw: nat, specs: seq<string>, num: NumberFormat): (r: Result<seq<string>>)
    ensures r.Ok? <==> forall i :: 0 <= i < Min(|values|, |specs|) ==> !values[i].Other?
    ensures r.Ok? ==> |r.value| == Min(|values|, |specs|)
    ensures r.Ok? ==> forall i :: 0 <= i < |r.value| ==> Ok(r.value[i]) == RowCell(values[i], cw, specs[i], num)
    ensures r.Err? ==> r.error == ValueError(BadElement)
  {
    var rs := CellResults(values, cw, specs, num);
    var r := Collect(rs);
    if r.Err? then
      FailureFromItem(rs, r.error);
      r
    else r
  }

  /** `row(values, column_width, format_spec, outer_char)`. */
  function Row(values: seq<Cell>, cw: nat, spec: Printer.FormatSpec, outer: string, num: NumberFormat): (r: Result<string>)
    ensures spec.Unsupported? ==> r == Err(AssertionError(FormatSpecNotStringOrList))
    ensures r.Ok? <==> !spec.Unsupported? && RowCells(values, cw, Printer.Specs(spec, |values|).value, num).Ok?
    ensures r.Ok? ==>
      r.value == FormatLine(RowCells(values, cw, Printer.Specs(spec, |values|).value, num).value,
                            LineStyle(outer, "", Separator(outer), outer))
  {
    var specs :- Printer.Specs(spec, |values|);
    var cells :- RowCells(values, cw, specs, num);
    Ok(outer + Join(cells, Separator(outer)) + outer)
  }

  /** With a single specifier every value is formatted, so one value that
      is neither text nor a number makes the row raise. */
  lemma RowRejectsOther(values: seq<Cell>, cw: nat, spec: Printer.FormatSpec, outer: string, num: NumberFormat, i: nat)
    requires i < |values| && values[i].Other? && spec.Shared?
    ensures Row(values, cw, spec, outer, num) == Err(ValueError(BadElement))
  {
    var specs := Printer.Specs(spec, |values|).value;
    assert i < Min(|values|, |specs|);
  }

  /** Each record through `Row`. */
  function RowResults(data: seq<seq<Cell>>, cw: nat, spec: Printer.FormatSpec, outer: string, num: NumberFormat): (r: seq<Result<string>>)
    ensures |r| == |data|
    ensures forall k :: 0 <= k < |data| ==> r[k] == Row(data[k], cw, spec, outer, num)
  {
    seq(|data|, k requires 0 <= k < |data| => Row(data[k], cw, spec, outer, num))
  }

  /** Every record through `Row`, in order; the first failure stops. */
  function Rows(data: seq<seq<Cell>>, cw: nat, spec: Printer.FormatSpec, outer: string, num: NumberFormat): (r: Result<seq<string>>)
    ensures r.Ok? <==> forall k :: 0 <= k < |data| ==> Row(data[k], cw, spec, outer, num).Ok?
    ensures r.Ok? ==> |r.value| == |data|
    ensures r.Ok? ==> forall k :: 0 <= k < |data| ==> Ok(r.value[k]) == Row(data[k], cw, spec, outer, num)
  {
    Collect(RowResults(data, cw, spec, outer, num))
  }

  /** A failing table raises the error of its first failing record. */
  lemma RowsFailure(data: seq<seq<Cell>>, cw: nat, spec: Printer.FormatSpec, outer: string, num: NumberFormat, e: Error)
    requires Rows(data, cw, spec, outer, num) == Err(e)
    ensures exists k :: (0 <= k < |data|
      && (forall j :: 0 <= j < k ==> Row(data[j], cw, spec, outer, num).Ok?)
      && Row(data[k], cw, spec, outer, num) == Err(e))
  {
    var rs := RowResults(data, cw, spec, outer, num);
    var k := FirstFailure(rs, e);
    assert rs[k] == Row(data[k], cw, spec, outer, num);
  }

  /** The lines `table` prints: the rule, the header, the rule again, one
      line per record, and the rule once more only when there are records.
      The rule is built once and reused. */
  function TableLines(data: seq<seq<Cell>>, titles: seq<string>, spec: Printer.FormatSpec, cw: nat,
                      outer: string, corner: string, line: string, num: NumberFormat): (r: Result<seq<string>>)
    ensures Hr(|titles|, cw, corner, line).Err? ==> r == Err(ValueError(InvalidFormatSpecifier))
    ensures r.Ok? <==> Hr(|titles|, cw, corner, line).Ok? && Rows(data, cw, spec, outer, num).Ok?
    ensures r.Ok? ==>
      var rule := Hr(|titles|, cw, corner, line).value;
      && |r.value| == 3 + |data| + (if |data| > 0 then 1 else 0)
      && r.value[0] == rule && r.value[1] == Header(titles, cw, outer) && r.value[2] == rule
      && (forall k :: 0 <= k < |data| ==> Ok(r.value[3 + k]) == Row(data[k], cw, spec, outer, num))
      && (|data| > 0 ==> r.value[|r.value| - 1] == rule)
  {
    var rule :- Hr(|titles|, cw, corner, line);
    var head := Header(titles, cw, outer);
    var lines :- Rows(data, cw, spec, outer, num);
    Ok([rule, head, rule] + lines + (if |data| > 0 then [rule] else []))
  }

  /** `table(...)`: the lines joined by newlines; `print` adds the final
      newline. */
  function Table(data: seq<seq<Cell>>, titles: seq<string>, spec: Printer.FormatSpec, cw: nat,
                 outer: string, corner: string, line: string, num: NumberFormat): (r: Result<string>)
    ensures r.Ok? <==> TableLines(data, titles, spec, cw, outer, corner, line, num).Ok?
    ensures r.Err? ==> r.error == TableLines(data, titles, spec, cw, outer, corner, line, num).error
    ensures r.Ok? ==> |r.value| > 0 && r.value[|r.value| - 1] == '\n'
  {
    var lines :- TableLines(data, titles, spec, cw, outer, corner, line, num);
    Ok(Join(lines, "\n") + "\n")
  }

  // ---------------------------------------------------------------------
  // line lengths

  /** A value fits its column: text or a rendered number no wider than the
      column width. */
  predicate CellFits(v: Cell, cw: nat, prec: string, num: NumberFormat) {
    || (v.Text? && |v.text| <= cw)
    || (v.Number? && |num(v.value, prec)| <= cw)
  }

  /** A line of `n >= 1` cells of width `cw` between single outer
      characters is `n * (cw + 3) - 1` long. */
  lemma LineLength(cells: seq<string>, cw: nat, outer: string)
    requires |cells| > 0 && |outer| == 1
    requires forall i :: 0 <= i < |cells| ==> |cells[i]| == cw
    ensures |FormatLine(cells, LineStyle(outer, "", Separator(outer), outer))| == |cells| * (cw + 3) - 1
  {
    var ls := LineStyle(outer, "", Separator(outer), outer);
    FormatLineLength(cells, ls);
    TotalLengthOfWidths(cells, seq(|cells|, _ => cw));
    SumUniform(|cells|, cw);
  }

  /** With single-character borders and every title within the column
      width, the header is exactly as long as the rule. */
  lemma HeaderMatchesHr(titles: seq<string>, cw: nat, outer: string, corner: string, line: string)
    requires |titles| > 0 && |outer| == 1 && |corner| == 1 && ValidFill(line)
    requires forall i :: 0 <= i < |titles| ==> |titles[i]| <= cw
    ensures |Header(titles, cw, outer)| == |Hr(|titles|, cw, corner, line).value| == |titles| * (cw + 3) - 1
  {
    var cells := seq(|titles|, i requires 0 <= i < |titles| => AlignLeft(titles[i], cw));
    LineLength(cells, cw, outer);
  }

  /** Values that fit the column are padded to exactly its width. */
  lemma CellsFillColumn(values: seq<Cell>, cw: nat, specs: seq<string>, num: NumberFormat)
    requires |specs| >= |values|
    requires forall i :: 0 <= i < |values| ==> CellFits(values[i], cw, specs[i], num)
    ensures RowCells(values, cw, specs, num).Ok?
    ensures |RowCells(values, cw, specs, num).value| == |values|
    ensures forall i :: 0 <= i < |values| ==> |RowCells(values, cw, specs, num).value[i]| == cw
  {
    var cells := RowCells(values, cw, specs, num).value;
    forall i | 0 <= i < |values|
      ensures |cells[i]| == cw
    {
      assert Ok(cells[i]) == RowCell(values[i], cw, specs[i], num);
    }
  }

  /** With single-character borders, a full specifier list and every value
      within the column width, a row is exactly as long as the rule. */
  lemma RowMatchesHr(values: seq<Cell>, cw: nat, spec: Printer.FormatSpec, outer: string, corner: string, line: string, num: NumberFormat)
    requires |values| > 0 && |outer| == 1 && |corner| == 1 && ValidFill(line)
    requires !spec.Unsupported? && (spec.PerValue? ==> |spec.specs| >= |values|)
    requires forall i :: 0 <= i < |values| ==> CellFits(values[i], cw, Printer.Specs(spec, |values|).value[i], num)
    ensures Row(values, cw, spec, outer, num).Ok?
    ensures |Row(values, cw, spec, outer, num).value| == |Hr(|values|, cw, corner, line).value| == |values| * (cw + 3) - 1
  {
    var specs := Printer.Specs(spec, |values|).value;
    CellsFillColumn(values, cw, specs, num);
    LineLength(RowCells(values, cw, specs, num).value, cw, outer);
  }

  /** When the rule, the header and every record's row have one length,
      every line of the table has it. */
  lemma UniformLines(data: seq<seq<Cell>>, titles: seq<string>, spec: Printer.FormatSpec, cw: nat,
                     outer: string, corner: string, line: string, num: NumberFormat, n: int)
    requires TableLines(data, titles, spec, cw, outer, corner, line, num).Ok?
    requires |Hr(|titles|, cw, corner, line).value| == n && |Header(titles, cw, outer)| == n
    requires forall k :: 0 <= k < |data| ==> Row(data[k], cw, spec, outer, num).Ok? && |Row(data[k], cw, spec, outer, num).value| == n
    ensures forall j :: 0 <= j < |TableLines(data, titles, spec, cw, outer, corner, line, num).value| ==>
      |TableLines(data, titles, spec, cw, outer, corner, line, num).value[j]| == n
  {
    var lines := TableLines(data, titles, spec, cw, outer, corner, line, num).value;
    forall j | 0 <= j < |lines|
      ensures |lines[j]| == n
    {
      if 3 <= j < 3 + |data| {
        assert Ok(lines[j]) == Row(data[j - 3], cw, spec, outer, num);
      }
    }
  }

  /** A printable table whose records all have one value per title, each
      within the column width, is a rectangle: every line has the length of
      the rule. */
  lemma TableIsRectangular(data: seq<seq<Cell>>, titles: seq<string>, spec: Printer.FormatSpec, cw: nat,
                           outer: string, corner: string, line: string, num: NumberFormat)
    requires |titles| > 0 && |outer| == 1 && |corner| == 1 && ValidFill(line)
    requires forall i :: 0 <= i < |titles| ==> |titles[i]| <= cw
    requires !spec.Unsupported? && (spec.PerValue? ==> |spec.specs| >= |titles|)
    requires forall k :: 0 <= k < |data| ==> |data[k]| == |titles|
    requires forall k, i :: 0 <= k < |data| && 0 <= i < |titles| ==>
      CellFits(data[k][i], cw, Printer.Specs(spec, |titles|).value[i], num)
    ensures TableLines(data, titles, spec, cw, outer, corner, line, num).Ok?
    ensures var lines := TableLines(data, titles, spec, cw, outer, corner, line, num).value;
      forall j :: 0 <= j < |lines| ==> |lines[j]| == |titles| * (cw + 3) - 1
  {
    var n := |titles| * (cw + 3) - 1;
    HeaderMatchesHr(titles, cw, outer, corner, line);
    forall k | 0 <= k < |data|
      ensures Row(data[k], cw, spec, outer, num).Ok? && |Row(data[k], cw, spec, outer, num).value| == n
    {
      RowMatchesHr(data[k], cw, spec, outer, corner, line, num);
    }
    UniformLines(data, titles, spec, cw, outer, corner, line, num, n);
  }
}
