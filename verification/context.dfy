/** `TableContext`: a table printed one row at a time inside a `with`
    statement. The header block and the bottom rule are computed once, when
    the context is created; entering writes the header block, each call
    writes one row, and leaving writes the bottom rule, whether or not the
    body of the `with` statement raised.

    The output stream is modelled as the sequence of strings written to it,
    in order.
 */
module Context {
  import opened Results
  import opened Strings
  import opened Style
  import opened Cells
  import opened Utils
  import opened Printer

  /** The configuration kept by the context and its two precomputed blocks. */
  datatype Context = Context(width: WidthSpec, style: string, headerBlock: string, bottomRule: string)

  /** `TableContext(headers, width, style, add_hr)`: creating the context
      fails exactly when the header block does; once the header is built the
      bottom rule over the same columns cannot fail. */
  function NewContext(headers: seq<string>, width: WidthSpec, style: string, addHr: bool, dw: Measure): (r: Result<Context>)
    ensures r.Ok? <==> Header(headers, width, style, addHr, dw).Ok?
    ensures r.Err? ==> r.error == Header(headers, width, style, addHr, dw).error
    ensures r.Ok? ==>
      && Bottom(|headers|, width, style).Ok?
      && r.value == Context(width, style, Header(headers, width, style, addHr, dw).value, Bottom(|headers|, width, style).value)
  {
    var block :- Header(headers, width, style, addHr, dw);
    var closing := Bottom(|headers|, width, style);
    Ok(Context(width, style, block, closing.value))
  }

  /** `__enter__`: the header block and a newline. */
  function Enter(ctx: Context): string {
    ctx.headerBlock + "\n"
  }

  /** `__call__(data)`: one row in the context's widths and style, numbers
      rendered with the default precision, and a newline. */
  function Call(ctx: Context, values: seq<Cell>, dw: Measure, num: NumberFormat): (r: Result<string>)
    ensures r.Ok? <==> Row(values, ctx.width, Shared(DefaultFormat), ctx.style, dw, num).Ok?
    ensures r.Ok? ==> r.value == Row(values, ctx.width, Shared(DefaultFormat), ctx.style, dw, num).value + "\n"
    ensures r.Err? ==> r.error == Row(values, ctx.width, Shared(DefaultFormat), ctx.style, dw, num).error
  {
    var line :- Row(values, ctx.width, Shared(DefaultFormat), ctx.style, dw, num);
    Ok(line + "\n")
  }

  /** `__exit__`: the bottom rule and a newline. */
  function Exit(ctx: Context): string {
    ctx.bottomRule + "\n"
  }

  /** One statement of the body of the `with` statement: a call of the
      context with a record, or an exception raised by other code. */
  datatype Step = Emit(values: seq<Cell>) | Raise(error: Error)

  /** One call of the context per record, in order. */
  function Calls(data: seq<seq<Cell>>): (steps: seq<Step>)
    ensures |steps| == |data|
    ensures forall k :: 0 <= k < |data| ==> steps[k] == Emit(data[k])
  {
    seq(|data|, k requires 0 <= k < |data| => Emit(data[k]))
  }

  /** What a with-statement leaves behind: everything written, in order,
      and the exception that escaped it, if any. */
  datatype Outcome = Outcome(writes: seq<string>, raised: Option<Error>)

  /** A step's effect: the line it writes or the exception it raises. */
  function Attempt(ctx: Context, step: Step, dw: Measure, num: NumberFormat): Result<string> {
    match step
    case Emit(values) => Call(ctx, values, dw, num)
    case Raise(e) => Err(e)
  }

  /** The effect each step would have, in order. */
  function Attempts(ctx: Context, steps: seq<Step>, dw: Measure, num: NumberFormat): (r: seq<Result<string>>)
    ensures |r| == |steps|
    ensures forall i :: 0 <= i < |steps| ==> r[i] == Attempt(ctx, steps[i], dw, num)
    decreases |steps|
  {
    if |steps| == 0 then [] else [Attempt(ctx, steps[0], dw, num)] + Attempts(ctx, steps[1..], dw, num)
  }

  /** Every line written, none raised. */
  function Oks(lines: seq<string>): (r: seq<Result<string>>)
    ensures |r| == |lines|
    ensures forall i :: 0 <= i < |lines| ==> r[i] == Ok(lines[i])
    decreases |lines|
  {
    if |lines| == 0 then [] else [Ok(lines[0])] + Oks(lines[1..])
  }

  /** Effects taken in order until the first exception. */
  function RunLines(results: seq<Result<string>>): Outcome
    decreases |results|
  {
    if |results| == 0 then Outcome([], None)
    else if results[0].Err? then Outcome([], Some(results[0].error))
    else
      var rest := RunLines(results[1..]);
      Outcome([results[0].value] + rest.writes, rest.raised)
  }

  /** Each effect before the first exception wrote its line, and nothing
      after the exception happens. */
  lemma {:induction false} RunLinesSteps(results: seq<Result<string>>)
    ensures var o := RunLines(results);
      && |o.writes| <= |results|
      && (forall j :: 0 <= j < |o.writes| ==> results[j] == Ok(o.writes[j]))
      && (o.raised.None? ==> |o.writes| == |results|)
      && (o.raised.Some? ==> |o.writes| < |results| && results[|o.writes|] == Err(o.raised.value))
    decreases |results|
  {
    if |results| > 0 && results[0].Ok? {
      var rest := RunLines(results[1..]);
      RunLinesSteps(results[1..]);
      Prepended(results[0].value, rest.writes);
      Prepended(results[0], results[1..]);
      assert [results[0]] + results[1..] == results;
    }
  }

  /** When every effect writes its line, exactly those lines are written
      and nothing is raised. */
  lemma RunLinesAllWritten(lines: seq<string>)
    ensures RunLines(Oks(lines)) == Outcome(lines, None)
  {
    var o := RunLines(Oks(lines));
    RunLinesSteps(Oks(lines));
    assert o.raised.None?;
    assert forall j :: 0 <= j < |lines| ==> Ok(o.writes[j]) == Ok(lines[j]);
  }

  /** The body of the with-statement: steps run in order until one raises. */
  function RunBody(ctx: Context, steps: seq<Step>, dw: Measure, num: NumberFormat): Outcome {
    RunLines(Attempts(ctx, steps, dw, num))
  }

  /** Every step before the one that raised wrote its line; none after it
      ran. */
  lemma RunBodySteps(ctx: Context, steps: seq<Step>, dw: Measure, num: NumberFormat)
    ensures var o := RunBody(ctx, steps, dw, num);
      && |o.writes| <= |steps|
      && (forall j :: 0 <= j < |o.writes| ==> Attempt(ctx, steps[j], dw, num) == Ok(o.writes[j]))
      && (o.raised.None? ==> |o.writes| == |steps|)
      && (o.raised.Some? ==>
            |o.writes| < |steps| && Attempt(ctx, steps[|o.writes|], dw, num) == Err(o.raised.value))
  {
    var o := RunBody(ctx, steps, dw, num);
    var r := Attempts(ctx, steps, dw, num);
    RunLinesSteps(r);
    assert forall j :: 0 <= j < |o.writes| ==> r[j] == Ok(o.writes[j]);
  }

  /** `with ctx: <steps>`: the header block first, then the lines of the
      body, then the bottom rule, which is written even when the body
      raised; the body's exception then propagates. */
  function RunWith(ctx: Context, steps: seq<Step>, dw: Measure, num: NumberFormat): Outcome {
    var body := RunBody(ctx, steps, dw, num);
    Outcome([Enter(ctx)] + body.writes + [Exit(ctx)], body.raised)
  }

  /** The header block comes first and the bottom rule last, whether or not
      the body raised; the lines between are those of the steps that ran,
      in order; no exception escapes exactly when every step is a call and
      every call wrote its line, and otherwise the exception is that of the
      first step that did not write. */
  lemma RunWithOutcome(ctx: Context, steps: seq<Step>, dw: Measure, num: NumberFormat)
    ensures var o := RunWith(ctx, steps, dw, num);
      && 2 <= |o.writes| <= |steps| + 2
      && o.writes[0] == ctx.headerBlock + "\n"
      && o.writes[|o.writes| - 1] == ctx.bottomRule + "\n"
      && (forall j :: 1 <= j < |o.writes| - 1 ==> Attempt(ctx, steps[j - 1], dw, num) == Ok(o.writes[j]))
      && (o.raised.None? <==> |o.writes| == |steps| + 2 && forall i :: 0 <= i < |steps| ==> steps[i].Emit?)
      && (o.raised.Some? ==>
            |o.writes| < |steps| + 2 && Attempt(ctx, steps[|o.writes| - 2], dw, num) == Err(o.raised.value))
  {
    var body := RunBody(ctx, steps, dw, num);
    RunBodySteps(ctx, steps, dw, num);
    Framed(Enter(ctx), body.writes, Exit(ctx));
    assert body.raised.None? ==> forall i :: 0 <= i < |steps| ==> Attempt(ctx, steps[i], dw, num).Ok?;
  }

  /** When every step writes its line, the body writes exactly those lines
      and raises nothing. */
  lemma RunBodyAllWritten(ctx: Context, steps: seq<Step>, lines: seq<string>, dw: Measure, num: NumberFormat)
    requires |lines| == |steps|
    requires forall k :: 0 <= k < |steps| ==> Attempt(ctx, steps[k], dw, num) == Ok(lines[k])
    ensures RunBody(ctx, steps, dw, num) == Outcome(lines, None)
  {
    assert Attempts(ctx, steps, dw, num) == Oks(lines);
    RunLinesAllWritten(lines);
  }

  /** A row's widths matter only through the list they stand for. */
  lemma RowSameWidths(values: seq<Cell>, a: WidthSpec, b: WidthSpec, spec: FormatSpec, style: string, dw: Measure, num: NumberFormat)
    requires ParseWidth(a, |values|) == ParseWidth(b, |values|)
    ensures Row(values, a, spec, style, dw, num) == Row(values, b, spec, style, dw, num)
  {
  }

  /** A header's widths matter only through the list they stand for. */
  lemma HeaderSameWidths(titles: seq<string>, a: WidthSpec, b: WidthSpec, style: string, dw: Measure)
    requires ParseWidth(a, |titles|) == ParseWidth(b, |titles|)
    ensures Header(titles, a, style, true, dw) == Header(titles, b, style, true, dw)
  {
    if Header(titles, a, style, true, dw).Ok? {
      HruleSameWidths(|titles|, a, b, Styles[style].top);
      HruleSameWidths(|titles|, a, b, Styles[style].belowHeader);
    }
  }

  /** A context over the table's widths opens with the table's header block
      and closes with its bottom rule. */
  lemma ContextFrame(data: seq<seq<Cell>>, headers: seq<string>, spec: FormatSpec, width: int, style: string,
                     ctxWidth: WidthSpec, dw: Measure, num: NumberFormat)
    requires |data| > 0
    requires TableBlocks(data, Some(headers), spec, width, style, dw, num).Ok?
    requires ParseWidth(ctxWidth, |headers|) == TableWidths(data, Some(headers), width, |headers|)
    ensures NewContext(headers, ctxWidth, style, true, dw).Ok?
    ensures var blocks := TableBlocks(data, Some(headers), spec, width, style, dw, num).value;
      var ctx := NewContext(headers, ctxWidth, style, true, dw).value;
      && ctx.width == ctxWidth && ctx.style == style
      && ctx.headerBlock == blocks[0] && ctx.bottomRule == blocks[|blocks| - 1]
  {
    var blocks := TableBlocks(data, Some(headers), spec, width, style, dw, num).value;
    var ncols := |headers|;
    assert ColumnCount(data, Some(headers)) == Ok(ncols);
    var ws := TableWidths(data, Some(headers), width, ncols).value;
    assert ParseWidth(PerColumn(ws), ncols) == ParseWidth(ctxWidth, ncols);
    HeaderSameWidths(headers, PerColumn(ws), ctxWidth, style, dw);
    HruleSameWidths(ncols, PerColumn(ws), ctxWidth, Styles[style].bottom);
  }

  /** Each record of a printable table, passed to a context over the
      table's widths, writes the table's line for it. */
  lemma ContextRow(data: seq<seq<Cell>>, headers: seq<string>, width: int, style: string,
                   ctxWidth: WidthSpec, dw: Measure, num: NumberFormat, ctx: Context, k: nat)
    requires k < |data|
    requires TableBlocks(data, Some(headers), Shared(DefaultFormat), width, style, dw, num).Ok?
    requires ParseWidth(ctxWidth, |headers|) == TableWidths(data, Some(headers), width, |headers|)
    requires ctx.width == ctxWidth && ctx.style == style
    ensures var blocks := TableBlocks(data, Some(headers), Shared(DefaultFormat), width, style, dw, num).value;
      1 + k < |blocks| && Call(ctx, data[k], dw, num) == Ok(blocks[1 + k] + "\n")
  {
    var spec := Shared(DefaultFormat);
    var blocks := TableBlocks(data, Some(headers), spec, width, style, dw, num).value;
    var ncols := |headers|;
    assert ColumnCount(data, Some(headers)) == Ok(ncols);
    var ws := TableWidths(data, Some(headers), width, ncols).value;
    assert Ok(blocks[1 + k]) == Row(data[k], PerColumn(ws), spec, style, dw, num);
    assert |data[k]| == ncols;
    RowSameWidths(data[k], PerColumn(ws), ctxWidth, spec, style, dw, num);
  }

  /** When every step writes its line, the with-statement writes the header
      block, those lines and the bottom rule, and raises nothing. */
  lemma RunWithAllWritten(ctx: Context, steps: seq<Step>, lines: seq<string>, dw: Measure, num: NumberFormat)
    requires Attempts(ctx, steps, dw, num) == Oks(lines)
    ensures RunWith(ctx, steps, dw, num) == Outcome([Enter(ctx)] + lines + [Exit(ctx)], None)
  {
    RunLinesAllWritten(lines);
  }

  /** A context whose blocks frame lines that every step writes writes
      every block, each with its newline, and raises nothing: that is the
      text of the blocks joined by newlines plus a final newline. */
  lemma RunWithBlocks(ctx: Context, steps: seq<Step>, blocks: seq<string>, dw: Measure, num: NumberFormat, text: string)
    requires |blocks| == |steps| + 2
    requires ctx.headerBlock == blocks[0] && ctx.bottomRule == blocks[|blocks| - 1]
    requires Attempts(ctx, steps, dw, num) == Oks(Terminated(blocks[1..|blocks| - 1]))
    requires text == Join(blocks, "\n") + "\n"
    ensures RunWith(ctx, steps, dw, num).raised.None?
    ensures Concat(RunWith(ctx, steps, dw, num).writes) == text
  {
    var rows := Terminated(blocks[1..|blocks| - 1]);
    JoinTerminated(blocks);
    TerminatedMiddle(blocks, rows);
    RunWithAllWritten(ctx, steps, rows, dw, num);
    TerminatedFrame(blocks, rows);
    assert Enter(ctx) == blocks[0] + "\n" && Exit(ctx) == blocks[|blocks| - 1] + "\n";
  }

  /** A table with headers and records has one line per record between its
      header block and its bottom rule. */
  lemma TableBlockCount(data: seq<seq<Cell>>, headers: seq<string>, spec: FormatSpec, width: int, style: string,
                        dw: Measure, num: NumberFormat)
    requires |data| > 0
    requires TableBlocks(data, Some(headers), spec, width, style, dw, num).Ok?
    ensures |TableBlocks(data, Some(headers), spec, width, style, dw, num).value| == |data| + 2
  {
  }

  /** Every record of a printable table, passed to a context over the
      table's widths, writes the table's line for it. */
  lemma ContextCalls(data: seq<seq<Cell>>, headers: seq<string>, width: int, style: string,
                     ctxWidth: WidthSpec, dw: Measure, num: NumberFormat, ctx: Context)
    requires |data| > 0
    requires TableBlocks(data, Some(headers), Shared(DefaultFormat), width, style, dw, num).Ok?
    requires ParseWidth(ctxWidth, |headers|) == TableWidths(data, Some(headers), width, |headers|)
    requires ctx.width == ctxWidth && ctx.style == style
    ensures |TableBlocks(data, Some(headers), Shared(DefaultFormat), width, style, dw, num).value| == |data| + 2
    ensures forall k :: 0 <= k < |data| ==>
      Call(ctx, data[k], dw, num) == Ok(TableBlocks(data, Some(headers), Shared(DefaultFormat), width, style, dw, num).value[1 + k] + "\n")
  {
    TableBlockCount(data, headers, Shared(DefaultFormat), width, style, dw, num);
    forall k | 0 <= k < |data|
      ensures Call(ctx, data[k], dw, num) == Ok(TableBlocks(data, Some(headers), Shared(DefaultFormat), width, style, dw, num).value[1 + k] + "\n")
    {
      ContextRow(data, headers, width, style, ctxWidth, dw, num, ctx, k);
    }
  }

  /** Calls that write the lines between the first and the last block write
      those lines, each ended by its newline. */
  lemma CallsAsRows(ctx: Context, data: seq<seq<Cell>>, blocks: seq<string>, rows: seq<string>, dw: Measure, num: NumberFormat)
    requires |blocks| == |data| + 2
    requires rows == Terminated(blocks[1..|blocks| - 1])
    requires forall k :: 0 <= k < |data| ==> Call(ctx, data[k], dw, num) == Ok(blocks[1 + k] + "\n")
    ensures |rows| == |data|
    ensures forall k :: 0 <= k < |data| ==> Call(ctx, data[k], dw, num) == Ok(rows[k])
  {
    TerminatedMiddle(blocks, rows);
  }

  /** Records whose calls each write their line are, as steps of the
      with-statement, steps that each write that line. */
  lemma CallsWrite(ctx: Context, data: seq<seq<Cell>>, lines: seq<string>, dw: Measure, num: NumberFormat)
    requires |lines| == |data|
    requires forall k :: 0 <= k < |data| ==> Call(ctx, data[k], dw, num) == Ok(lines[k])
    ensures Attempts(ctx, Calls(data), dw, num) == Oks(lines)
  {
    forall k | 0 <= k < |data|
      ensures Attempts(ctx, Calls(data), dw, num)[k] == Oks(lines)[k]
    {
      assert Calls(data)[k] == Emit(data[k]);
    }
  }

  /** Records whose calls write the lines between the first and the last
      block write exactly those lines when fed to the context in order. */
  lemma CallsWriteRows(ctx: Context, data: seq<seq<Cell>>, blocks: seq<string>, dw: Measure, num: NumberFormat)
    requires |blocks| == |data| + 2
    requires forall k :: 0 <= k < |data| ==> Call(ctx, data[k], dw, num) == Ok(blocks[1 + k] + "\n")
    ensures Attempts(ctx, Calls(data), dw, num) == Oks(Terminated(blocks[1..|blocks| - 1]))
  {
    var rows := Terminated(blocks[1..|blocks| - 1]);
    CallsAsRows(ctx, data, blocks, rows, dw, num);
    CallsWrite(ctx, data, rows, dw, num);
  }

  /** A context over a printable table's widths frames the table's records
      with the table's first and last blocks, and each record writes the
      table's line for it. */
  lemma ContextAgrees(data: seq<seq<Cell>>, headers: seq<string>, width: int, style: string,
                      ctxWidth: WidthSpec, dw: Measure, num: NumberFormat)
    requires |data| > 0
    requires TableBlocks(data, Some(headers), Shared(DefaultFormat), width, style, dw, num).Ok?
    requires ParseWidth(ctxWidth, |headers|) == TableWidths(data, Some(headers), width, |headers|)
    ensures NewContext(headers, ctxWidth, style, true, dw).Ok?
    ensures |TableBlocks(data, Some(headers), Shared(DefaultFormat), width, style, dw, num).value| == |Calls(data)| + 2
    ensures NewContext(headers, ctxWidth, style, true, dw).value.headerBlock == TableBlocks(data, Some(headers), Shared(DefaultFormat), width, style, dw, num).value[0]
    ensures NewContext(headers, ctxWidth, style, true, dw).value.bottomRule == TableBlocks(data, Some(headers), Shared(DefaultFormat), width, style, dw, num).value[|TableBlocks(data, Some(headers), Shared(DefaultFormat), width, style, dw, num).value| - 1]
    ensures Attempts(NewContext(headers, ctxWidth, style, true, dw).value, Calls(data), dw, num) == Oks(Terminated(TableBlocks(data, Some(headers), Shared(DefaultFormat), width, style, dw, num).value[1..|TableBlocks(data, Some(headers), Shared(DefaultFormat), width, style, dw, num).value| - 1]))
  {
    ContextFrame(data, headers, Shared(DefaultFormat), width, style, ctxWidth, dw, num);
    var ctx := NewContext(headers, ctxWidth, style, true, dw).value;
    ContextCalls(data, headers, width, style, ctxWidth, dw, num, ctx);
    CallsWriteRows(ctx, data, TableBlocks(data, Some(headers), Shared(DefaultFormat), width, style, dw, num).value, dw, num);
  }

  /** Printing records one by one through a context gives, character for
      character, the table of the same records, provided the context uses
      the widths the table would use and every record prints. */
  lemma ContextMatchesTable(data: seq<seq<Cell>>, headers: seq<string>, width: int, style: string,
                            ctxWidth: WidthSpec, dw: Measure, num: NumberFormat)
    requires |data| > 0
    requires Table(data, Some(headers), Shared(DefaultFormat), width, style, dw, num).Ok?
    requires ParseWidth(ctxWidth, |headers|) == TableWidths(data, Some(headers), width, |headers|)
    ensures NewContext(headers, ctxWidth, style, true, dw).Ok?
    ensures RunWith(NewContext(headers, ctxWidth, style, true, dw).value, Calls(data), dw, num).raised.None?
    ensures Concat(RunWith(NewContext(headers, ctxWidth, style, true, dw).value, Calls(data), dw, num).writes)
      == Table(data, Some(headers), Shared(DefaultFormat), width, style, dw, num).value
  {
    ContextAgrees(data, headers, width, style, ctxWidth, dw, num);
    TableJoinsBlocks(data, Some(headers), Shared(DefaultFormat), width, style, dw, num);
    RunWithBlocks(NewContext(headers, ctxWidth, style, true, dw).value, Calls(data),
                  TableBlocks(data, Some(headers), Shared(DefaultFormat), width, style, dw, num).value, dw, num,
                  Table(data, Some(headers), Shared(DefaultFormat), width, style, dw, num).value);
  }
}
