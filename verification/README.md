# tableprint layout engine in Dafny

This project models the layout core of **tableprint**, a Python library that
prints tables of data to a console. The model is pure string construction:

- **Line utilities** (`tableprint/utils.py`):
  - assembling a line from a line style and its cells;
  - expanding a width argument into column widths;
  - computing automatic column widths;
  - correcting field widths for ANSI escape sequences;
  - rendering a duration in whole seconds as weeks, days, hours, minutes and seconds.
- **Style registry** (`tableprint/style.py`): six named table styles. Each is made of four line styles: top, below-header, bottom and row.
- **Renderers** (`tableprint/printer.py`):
  - horizontal rules, including top and bottom;
  - the header block, where titles are centred;
  - data rows, where values are right-aligned;
  - whole tables and banners.
- **`TableContext`** (`tableprint/printer.py`): a table printed row by row inside a `with` statement. It is modelled as the ordered sequence of strings written to the output, plus the exception that escapes, if any.
- **Legacy formatter** (`tableprint.py`, release 0.1.5): `hr`, `header`, `row` and `table`, with ASCII borders.

Every Python exception the core raises is modelled as an `Err` value that carries the exception kind and a message code (`Results.Error`). The codes stand for Python's messages but do not reproduce every wording. The same applies to exceptions that `str.format` raises. So every error path is a value that contracts can state.

Two collaborators are parameters and are never interpreted:
- the terminal display width of a string (the `wcwidth` library's `wcswidth`), as `Cells.Measure`;
- Python's rendering of a number with a precision specifier such as `'5g'`, as `Cells.NumberFormat`.

Module layout:

| file | module | contents |
|---|---|---|
| results.dfy | Results | error kinds and messages, `Option`, `Result` |
| strings.dfy | Strings | `str.format` padding, `join`, `split`, decimal digits |
| style.dfy | Style | `LineStyle`, `TableStyle`, the registry |
| cells.dfy | Cells | data values, `len()`, the two collaborators |
| utils.dfy | Utils | `format_line`, `parse_width`, `calculate_widths`, `ansi_len`, `humantime` |
| printer.dfy | Printer | `hrule`, `top`, `bottom`, `header`, `row`, `table`, `banner` |
| context.dfy | Context | `TableContext` and the `with` statement around it |
| legacy.dfy | Legacy | the 0.1.5 `hr`, `header`, `row`, `table` |
| vectors.dfy | Vectors | concrete outputs from the test suite: lines, rules, rows, banners, durations |
| vectors_table.dfy | TableVectors | concrete outputs from the test suite: whole tables and a `TableContext` |

The concrete outputs take every character to be one terminal column wide. Where the records hold numbers, they take any number rendering that writes the numbers used as single digits.

### Where the code differs from its documentation or its tests (the model follows the code)

- **No alignment option.** `header` always centres its titles and `row` always right-aligns its values.
- **Per-column widths.** `calculate_widths` takes the maximum separately for each column, not one maximum over the whole table. It uses `map` over two lists, so the result is only as long as the shortest row (or the header list, if that is shorter).
- **Short format-spec lists truncate.** `row` combines widths, values and a per-value format-spec list with `zip`. A list that is too short therefore drops the trailing values instead of raising an error.
- **Automatic widths reject numbers.** The test suite expects `table([[111, 2, 3], [4, 55, 6]], 'ABC', style='round')` to print a table with widths 5, 4 and 3. With the default width of 0, `table` calls `calculate_widths`, which applies `len` to every value. `len(111)` raises a TypeError, so the code fails. The model follows the code (`TableVectors.AutoWidthNumbers`).
- **`table` needs an int width.** `table` tests `width > 0`, so its width must be an `int`. The table model takes an integer width; `header`, `row` and `hrule` also accept lists.

## Model

| member | source | states |
|---|---|---|
| Results.Collect | tableprint/printer.py:107 | a list evaluated item by item succeeds exactly when every item does, with the items' values in order |
| Results.FirstFailure | tableprint/printer.py:107 | a failing list raises the error of an item all of whose predecessors succeeded |
| Strings.AlignRight | tableprint/printer.py:193 | `{:>w}`: the text ends the field, only spaces precede it, and the field is max(len, w) wide (never truncated) |
| Strings.AlignLeft | tableprint.py:92 | `{:<w}`: the text starts the field, only spaces follow it, and the field is max(len, w) wide |
| Strings.Center | tableprint/printer.py:142 | `{:^w}`: the text sits after floor(spare/2) spaces, with the odd spare column on the right; the field is never truncated |
| Strings.FillField | tableprint/printer.py:229 | an empty field with a fill succeeds exactly for an empty or one-character non-brace fill, giving w copies of it; otherwise ValueError "Invalid format specifier" |
| Strings.JoinLength | tableprint/utils.py:77 | a join of k ≥ 1 parts is the parts' total length plus k−1 separators |
| Strings.SplitJoin | tableprint/printer.py:150 | splitting a newline join gives back the parts when none holds a newline |
| Strings.JoinSplit | tableprint/printer.py:150 | joining the pieces of a split restores the string |
| Strings.FramedJoinField | tableprint/utils.py:77 | in a join of equal-length parts placed between `a` and `b`, part i starts at \|a\| + i·(w + \|sep\|), and a separator follows every part but the last |
| Strings.JoinTerminated | tableprint/printer.py:115 | writing each line followed by a newline equals `'\n'.join(lines) + '\n'` |
| Strings.NatToStringRoundTrip | tableprint/utils.py:34 | the decimal rendering of a count reads back as that count |
| Style.Lookup | tableprint/style.py:12-49 | a name resolves exactly when it is one of the six registered names; otherwise KeyError with that name |
| Style.RegistryNames | tableprint/style.py:12-49 | the registry holds exactly grid, fancy_grid, clean, round, banner and block, including the default `round` |
| Style.RegistryWellFormed | tableprint/style.py:13-48 | every registered style: the row fill is empty, each rule fill is one usable character, each rule's begin/sep/end are as wide as the row's, and nothing holds a newline |
| Style.BannerReusesBottom | tableprint/style.py:39-40 | the banner style closes its header with its bottom rule |
| Cells.Len | tableprint/utils.py:106-108 | `len()` succeeds for text (its length) and for sized objects, and is a TypeError for numbers |
| Utils.FormatLine | tableprint/utils.py:75-77 | the line starts with `begin` and ends with `end`; zero cells give begin+end; one cell gives begin+cell+end |
| Utils.FormatLineLength | tableprint/utils.py:77 | for k ≥ 1 cells the line length is begin + end + Σ cells + (k−1)·sep |
| Utils.FormatLineOverWidths | tableprint/utils.py:77 | a line whose cells exactly fill their widths is begin + end + Σw + (k−1)·sep long |
| Utils.FormatLineSameShape | tableprint/utils.py:77 | two line styles with equally wide pieces give equally long lines over cells of equal lengths |
| Utils.ParseWidth | tableprint/utils.py:80-95 | an int gives n copies of itself; a list succeeds exactly when it has n entries and is returned unchanged; otherwise AssertionError "Widths and data do not match" |
| Utils.CalculateWidths | tableprint/utils.py:98-110 | succeeds exactly when every value has a length; each entry is at least every contributing header and value length and equal to one of them; no rows gives the header lengths; the length is the shortest of the headers and rows |
| Utils.StripAnsi | tableprint/utils.py:72 | the stripped string is no longer than the input, uses only its characters, and has no ESC followed later by `m` |
| Utils.StripAnsiPlain | tableprint/utils.py:72 | a string without an escape sequence is left unchanged |
| Utils.StripAnsiShortens | tableprint/utils.py:72 | a string with an escape sequence gets strictly shorter |
| Utils.StripAnsiFixedPoint | tableprint/utils.py:72 | stripping leaves a string unchanged exactly when it holds no escape sequence |
| Utils.StripAnsiIdempotent | tableprint/utils.py:72 | stripping twice is stripping once |
| Utils.StripAnsiRemovesSequence | tableprint/utils.py:72 | an escape sequence ESC … `m` (no `m` inside) after text without ESC is removed, and the text before it and the stripping of what follows are kept: strip(p + ESC q m + rest) = p + strip(rest) |
| Utils.AnsiLen | tableprint/utils.py:70-72 | the correction equals the number of stripped characters when display width equals length, and is 0 for plain text of ordinary width |
| Utils.AnsiLenOfSequence | tableprint/utils.py:70-72 | for one escape sequence ESC q `m` before plain text one column per character, the correction is exactly the sequence's length \|q\| + 2 |
| Utils.HumanTime | tableprint/utils.py:26-53 | a non-numeric argument gives ValueError "Input must be numeric"; the text contains a comma exactly when t ≥ 60; below a minute it is "t s"; in general it is the rendering of the greedy breakdown of t |
| Utils.HumanSecondsSingleGroup | tableprint/utils.py:47-53 | the text is a single "t s" group exactly when t < 60 |
| Utils.Breakdown | tableprint/utils.py:31-49 | the breakdown's counts times their units sum back to t; it starts at the largest unit ≤ t; the units strictly decrease; every count but the last is positive; each part is worth less than the unit above it; it ends with seconds < 60; every group is greedy: its unit is the largest that fits the seconds it and the later groups stand for, and its count is their quotient by that unit |
| Utils.BreakdownUnique | tableprint/utils.py:31-49 | the breakdown is the only list of groups with these properties: any greedy groups with strictly decreasing units, ending in seconds and adding up to t, are the breakdown of t (so 608460 s is "1 weeks, 1 hours, 1 min., 0 s" and never 1 week, 61 min., 0 s) |
| Utils.HumanSecondsRendersBreakdown | tableprint/utils.py:31-53 | `humantime(t)` is the breakdown rendered as "count unit" groups separated by ", " |
| Printer.RuleCells | tableprint/printer.py:229-230 | the rule fields succeed exactly when there are none or the fill is usable, with one field of wᵢ fill characters per width |
| Printer.Hrule | tableprint/printer.py:208-231 | succeeds exactly when the widths parse and (n = 0 or the fill is usable); the rule is the line of filled fields; its length is begin + end + Σw + (n−1)·sep, and n·w + … for a single width |
| Printer.HruleSameWidths | tableprint/printer.py:228 | a rule depends on its width argument only through the widths it expands to |
| Printer.Top | tableprint/printer.py:234-236 | an unknown style is a KeyError; it is the style's top rule; it succeeds exactly when the style exists and the widths parse; it is as long as a row of the style over the same widths |
| Printer.Bottom | tableprint/printer.py:239-241 | the same as `Top`, for the style's bottom rule |
| Printer.HeaderCell | tableprint/printer.py:142 | a title is centred in w + ansi_len columns; a negative field width is ValueError "Sign not allowed in string format specifier" |
| Printer.HeaderCells | tableprint/printer.py:142 | all titles format exactly when every widened field is non-negative; each cell is its title centred |
| Printer.Header | tableprint/printer.py:119-152 | KeyError for an unknown style, then AssertionError for mismatched widths, then ValueError "Sign not allowed in string format specifier" for a title whose widened field is negative; succeeds exactly when the style exists, the widths parse and every title fits; it is the centred header row alone, or top rule, newline, row, newline, below-header rule |
| Printer.HeaderLines | tableprint/printer.py:147-150 | with `add_hr` the header block splits into exactly three lines: top rule, header row, below-header rule |
| Printer.RuleExcludesNewline | tableprint/printer.py:228-231 | a rule of a newline-free style is a single line |
| Printer.Specs | tableprint/printer.py:180-184 | a single specifier is repeated for every value; a list is used as given; any other type is AssertionError "format_spec must be a string or list of strings" |
| Printer.RowCell | tableprint/printer.py:187-199 | text is right-aligned in w + ansi_len columns (negative is a ValueError); a number is rendered then right-aligned in w columns; anything else is ValueError "Elements in the values array must be strings, ints, or floats" |
| Printer.RowCells | tableprint/printer.py:202 | only the first min(values, specs) values are formatted; they succeed exactly when each does, and each cell is its value's formatting |
| Printer.RowCellsFailure | tableprint/printer.py:186-202 | a failing row raises the error of a value every value before which formatted successfully |
| Printer.Row | tableprint/printer.py:155-205 | the error order is KeyError, then the width assertion, then the format-spec assertion, then the error of the first value that fails to format; once those checks pass it succeeds exactly when every value formats, and it is the formatted cells on the style's row line |
| Printer.RowRejectsOther | tableprint/printer.py:183-202 | with a single specifier every value is formatted, so a value that is neither text nor a number makes the row fail; when the style and widths are valid and every text before it fits, the error is ValueError "Elements in the values array must be strings, ints, or floats" |
| Printer.RowMatchesRule | tableprint/printer.py:202-231 | a row whose plain values fit their columns is exactly as long as the style's top rule over the same widths |
| Printer.ColumnCount | tableprint/printer.py:96 | the column count is the headers' count, else the first record's; no headers and no data is IndexError |
| Printer.TableWidths | tableprint/printer.py:98-101 | a positive width is used for every column; otherwise widths come from `calculate_widths`, and a table without headers is a TypeError |
| Printer.Rows | tableprint/printer.py:107 | one line per record in input order; it succeeds exactly when every record does |
| Printer.RowsFailure | tableprint/printer.py:107 | a failing table raises the error of a record every record before which formatted successfully |
| Printer.Blocks | tableprint/printer.py:104-112 | with the widths known: the header's error if the header fails, else the first failing record's error; otherwise the header block (or top rule), one row per record in order, and the bottom rule only when there is data |
| Printer.TableBlocks | tableprint/printer.py:73-112 | the error order is IndexError, KeyError, then the error of the widths (TypeError without headers, or from `calculate_widths`), then the header's error, then the first failing record's error; it succeeds exactly when none of these arises; the lines are the header block (or the top rule without headers), one row per record in order, and the bottom rule only when there is data |
| Printer.Table | tableprint/printer.py:114-115 | the table succeeds exactly when its lines do, with the same error, and its output ends with a newline |
| Printer.Banner | tableprint/printer.py:244-262 | a one-column header block of width max(width, len(message)), with the message centred between the row ends, followed by a newline; KeyError for an unknown style |
| Context.NewContext | tableprint/printer.py:31-57 | creating the context fails exactly when its header block does, with that error; the bottom rule over the same widths then cannot fail |
| Context.Call | tableprint/printer.py:59-61 | one call writes the row for its record with the default precision `5g`, followed by a newline, and fails exactly when that row does |
| Context.RunBodySteps | tableprint/printer.py:59-61 | the body's steps run in order until one raises; each earlier step wrote its line; the raising step is the one right after the last line written |
| Context.RunBodyAllWritten | tableprint/printer.py:59-61 | when every step writes its line, the body writes exactly those lines and raises nothing |
| Context.RunWithOutcome | tableprint/printer.py:63-70 | the header block is written first and the bottom rule last, even when the body raised; the lines between come from the body's steps in order; no exception escapes exactly when every step wrote its line |
| Context.RunWithAllWritten | tableprint/printer.py:59-70 | when every step writes its line, the output is the header block, those lines, then the bottom rule, and nothing escapes |
| Context.RunWithBlocks | tableprint/printer.py:59-70 | a context whose header block and bottom rule are the first and last of a list of blocks, and whose calls write the blocks between, writes `'\n'.join(blocks) + '\n'` |
| Context.ContextAgrees | tableprint/printer.py:30-112 | a context built from a table's headers and widths holds the table's first and last blocks, and calling it on the table's records writes the table's rows |
| Context.ContextMatchesTable | tableprint/printer.py:30-116 | feeding a table's records through a context that uses the table's widths writes exactly the text `table` prints |
| Legacy.Inner | tableprint.py:188 | `s[1:-1]` removes the first and last character, and is empty for strings shorter than two |
| Legacy.Hr | tableprint.py:161-188 | fails only for an unusable line character, and never with no columns; starts and ends with the corner; one column is corner + w fill + corner; with more columns, the first column is w+1 fill characters and then a corner; its length is n·(w+2) + (n+1)·corner − 2 |
| Legacy.Header | tableprint.py:69-100 | the header starts and ends with the outer characters; when every title fits the column width, title i sits at \|outer\| + i·(cw + \|" outer "\|), padded with spaces to the width, with " outer " after every title but the last; no titles give the two outer characters alone |
| Legacy.RowCell | tableprint.py:135-147 | text and rendered numbers are right-aligned to the column width; anything else is ValueError |
| Legacy.RowCells | tableprint.py:150 | only the first min(values, specs) values are formatted; they succeed exactly when none of them is a bad value, and otherwise raise ValueError |
| Legacy.Row | tableprint.py:103-158 | AssertionError for a specifier that is neither a string nor a list; otherwise the formatted cells between outer characters |
| Legacy.RowRejectsOther | tableprint.py:131-150 | with a single specifier every value is formatted, so a bad value makes the row raise ValueError |
| Legacy.Rows | tableprint.py:58-59 | one line per record in order; it succeeds exactly when every record does |
| Legacy.RowsFailure | tableprint.py:58-59 | a failing table raises the error of a record every record before which formatted successfully |
| Legacy.TableLines | tableprint.py:50-63 | the lines are rule, header, rule, the rows in order, and the same rule again only when there is data; an unusable line character fails first |
| Legacy.Table | tableprint.py:66 | the table succeeds exactly when its lines do, and its output ends with a newline |
| Legacy.HeaderMatchesHr | tableprint.py:92-98 | with one-character borders and titles within the width, the header is exactly as long as the rule: n·(w+3) − 1 |
| Legacy.RowMatchesHr | tableprint.py:150-156 | with one-character borders, a full specifier list and fitting values, the row succeeds and is exactly as long as the rule |
| Legacy.TableIsRectangular | tableprint.py:50-63 | under the same conditions, every line of the table has the same length |
| Vectors.FormatLineExamples | tests/test_utils.py:8-18 | the six `format_line` cases, ASCII and Unicode, give the lines the test suite expects, including `♪☚♩☛♫` |
| Vectors.HumanTimeExamples | tests/test_utils.py:21-43 | `humantime` of 1e6, 2e5, 5e3, 60, 1 and 0 seconds gives "1 weeks, 4 days, 13 hours, 46 min., 40 s" down to "0 s", and a non-numeric argument is ValueError "Input must be numeric" |
| Vectors.BorderExamples | tests/test_functions.py:7-17 | the five `top`/`bottom` cases for the round, grid, fancy_grid and clean styles give the rules the test suite expects |
| Vectors.RowExamples | tests/test_functions.py:20-28 | the three valid `row` cases give the lines the test suite expects, for any number rendering that writes 1, 2 and 3 as single digits |
| Vectors.RowRejectsDict | tests/test_functions.py:29-30 | a row holding a dict raises a ValueError |
| Vectors.BannerExamples | tests/test_io.py:40-48 | the `clean` banner of "hello world" and the `banner` banner of "!" are the three lines the test suite expects |
| TableVectors.RoundTable | tests/test_io.py:17-21 | the round table of `[[1, 2, 3], [4, 5, 6]]` under `ABC` with width 5 is the six lines the test suite expects, for any number rendering that writes 1 to 6 as single digits |
| TableVectors.RoundContext | tests/test_io.py:8-14 | the same records fed one by one through a `TableContext` write the same six lines and raise nothing |
| TableVectors.GridTable | tests/test_io.py:27-29 | the grid table of the record `"bar"` under `"foo"` with width 3 is the five lines the test suite expects |
| TableVectors.AutoWidthNumbers | tests/test_io.py:23-25 | with automatic widths, the table of numbers fails with the TypeError of `len` (the test suite expects a table here; see above) |

## Left out

- Writing to and flushing the output stream. Every renderer returns its string. `TableContext` is modelled as the sequence of strings it writes.
- `wcswidth`: it is a foreign library, so display width is the `Measure` parameter. Only the ESC stripping is concrete.
- Rendering numbers with a precision specifier such as `'5g'`: this is floating-point formatting, so it is the `NumberFormat` parameter. Only the padding around the result is modelled.
- Utils.HumanTime: models whole seconds only. The sub-second branches (ms, μs, ns) and fractional seconds use floating point.
- Utils.HumanTime: negative durations are not modelled, because durations are natural numbers. Python's `humantime(-5)` falls through to the nanosecond branch and gives "-5e+09 ns".
- Utils.HumanSeconds: counts are rendered as plain decimals. `{:g}` switches to exponent notation for counts of a million or more (more than 19 000 years), and that switch is not modelled.
- The legacy `humantime`: it calls `hrtime`, which is not defined, so it fails for every t ≥ 60.
- The pandas adapters `dataframe` and `frame`: they only reshape foreign objects.
- Negative widths: width arguments are natural numbers. A negative int would lead to Python format errors, or to signed number formats, that are not modelled. A negative field width does arise from the ANSI correction, and it is modelled as a ValueError.
- Results.Error: a message code stands for each Python message, and the wording is not reproduced for every case. For example, `len` of a number is `TypeError(NoLength)`, while Python's message is "object of type 'int' has no len()" and names the type.
- Strings.FillField: when the fill is a brace, Python raises a ValueError about an unmatched brace. The model reports every rejected fill as ValueError "Invalid format specifier" (the exact wording also varies between Python versions).
- Legacy.Header: assumes the outer character holds no `{` or `}`. The 0.1.5 code passes the outer character through `str.format`, which would then misread the line.
- Legacy.RowCell: ignores how `np.float` resolves, because it depends on the installed numpy version and is not part of this model.
- Invalid precision specifiers for numbers: number rendering is a parameter.
- `TableContext` outside a `with` statement: Python lets `__call__`, `__enter__` and `__exit__` be called in any order. The model fixes the order of a `with` statement: enter, the calls, then exit.
- Style tuples passed in place of style names: the source accepts only registered names (`STYLES[style]`).
- Float rounding of very large whole-second counts: durations are unbounded naturals.
