/** Table styles: the closed registry of named border sets.

    A line style gives the text before the first cell, the fill character of
    a horizontal rule, the text between cells and the text after the last
    cell. A table style gives four of them: the rule above the header, the
    rule below it, the rule closing the table, and the line style of every
    header and data row.
 */
module Style {
  import opened Results
  import opened Strings

  datatype LineStyle = LineStyle(begin: string, hline: string, sep: string, end: string)

  datatype TableStyle = TableStyle(top: LineStyle, belowHeader: LineStyle, bottom: LineStyle, row: LineStyle)

  /** The style the printer uses when none is named. */
  const DefaultStyle := "round"

  const Styles: map<string, TableStyle> := map[
    "grid" := TableStyle(
      LineStyle("+", "-", "+", "+"),
      LineStyle("+", "-", "+", "+"),
      LineStyle("+", "-", "+", "+"),
      LineStyle("|", "", "|", "|")),
    "fancy_grid" := TableStyle(
      LineStyle("╒", "═", "╤", "╕"),
      LineStyle("╞", "═", "╪", "╡"),
      LineStyle("╘", "═", "╧", "╛"),
      LineStyle("│", "", "│", "│")),
    "clean" := TableStyle(
      LineStyle(" ", "─", " ", " "),
      LineStyle(" ", "─", " ", " "),
      LineStyle(" ", "─", " ", " "),
      LineStyle(" ", "", " ", " ")),
    "round" := TableStyle(
      LineStyle("╭─", "─", "─┬─", "─╮"),
      LineStyle("├─", "─", "─┼─", "─┤"),
      LineStyle("╰─", "─", "─┴─", "─╯"),
      LineStyle("│ ", "", " │ ", " │")),
    "banner" := TableStyle(
      LineStyle("╒", "═", "╤", "╕"),
      LineStyle("╘", "═", "╧", "╛"),
      LineStyle("╘", "═", "╧", "╛"),
      LineStyle("│", "", "│", "│")),
    "block" := TableStyle(
      LineStyle("◢", "■", "■", "◣"),
      LineStyle(" ", "━", "━", " "),
      LineStyle("◥", "■", "■", "◤"),
      LineStyle(" ", "", " ", " "))
  ]

  /** `STYLES[name]`: a KeyError for a name outside the registry. */
  function Lookup(name: string): (r: Result<TableStyle>)
    ensures r.Ok? <==> name in {"grid", "fancy_grid", "clean", "round", "banner", "block"}
    ensures r.Ok? ==> r.value == Styles[name]
    ensures r.Err? ==> r.error == KeyError(name)
  {
    if name in Styles then Ok(Styles[name]) else Err(KeyError(name))
  }

  /** A rule is drawn with exactly one fill character that Python can use. */
  predicate IsRule(ls: LineStyle) {
    |ls.hline| == 1 && ValidFill(ls.hline)
  }

  /** A rule whose begin, separator and end are as wide as the row's, so a
      rule and a row over the same column widths have the same length. */
  predicate SameShape(rule: LineStyle, row: LineStyle) {
    |rule.begin| == |row.begin| && |rule.sep| == |row.sep| && |rule.end| == |row.end|
  }

  predicate SingleLine(ls: LineStyle) {
    '\n' !in ls.begin && '\n' !in ls.hline && '\n' !in ls.sep && '\n' !in ls.end
  }

  predicate WellFormed(ts: TableStyle) {
    && ts.row.hline == ""
    && IsRule(ts.top) && IsRule(ts.belowHeader) && IsRule(ts.bottom)
    && SameShape(ts.top, ts.row) && SameShape(ts.belowHeader, ts.row) && SameShape(ts.bottom, ts.row)
    && SingleLine(ts.top) && SingleLine(ts.belowHeader) && SingleLine(ts.bottom) && SingleLine(ts.row)
  }

  /** The registry holds exactly the six named styles. */
  lemma RegistryNames()
    ensures Styles.Keys == {"grid", "fancy_grid", "clean", "round", "banner", "block"}
    ensures DefaultStyle in Styles
  {
  }

  /** Every registered style has an empty row fill, one-character rule fills,
      rules shaped like its row line, and no newline anywhere. */
  lemma RegistryWellFormed(name: string)
    requires name in Styles
    ensures WellFormed(Styles[name])
  {
  }

  /** The banner style closes its header with its bottom rule. */
  lemma BannerReusesBottom()
    ensures Styles["banner"].belowHeader == Styles["banner"].bottom
  {
  }
}
