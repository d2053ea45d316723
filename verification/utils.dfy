/** The printer's utilities: assembling a line from cells, resolving a width
    specification, computing automatic column widths, the padding
    correction for ANSI escape sequences, and the human-readable duration.
 */
module Utils {
  import opened Results
  import opened Strings
  import opened Style
  import opened Cells

  // ---------------------------------------------------------------------
  // format_line

  /** `format_line(data, linestyle)`: the cells joined by the line style's
      separator, between its begin and end texts. */
  function FormatLine(cells: seq<string>, ls: LineStyle): (r: string)
    ensures |cells| == 0 ==> r == ls.begin + ls.end
    ensures |cells| == 1 ==> r == ls.begin + cells[0] + ls.end
    ensures |r| >= |ls.begin| + |ls.end|
    ensures r[..|ls.begin|] == ls.begin && r[|r| - |ls.end|..] == ls.end
  {
    ls.begin + Join(cells, ls.sep) + ls.end
  }

  /** A line of k >= 1 cells is as long as its begin and end, its cells, and
      k - 1 separators. */
  lemma FormatLineLength(cells: seq<string>, ls: LineStyle)
    requires |cells| > 0
    ensures |FormatLine(cells, ls)| == |ls.begin| + |ls.end| + TotalLength(cells) + (|cells| - 1) * |ls.sep|
  {
    JoinLength(cells, ls.sep);
  }

  /** A line whose cells exactly fill their columns is as long as its begin
      and end, the widths, and one separator between each two columns. */
  lemma FormatLineOverWidths(cells: seq<string>, widths: seq<nat>, ls: LineStyle)
    requires |cells| == |widths| > 0
    requires forall i :: 0 <= i < |cells| ==> |cells[i]| == widths[i]
    ensures |FormatLine(cells, ls)| == |ls.begin| + |ls.end| + Sum(widths) + (|widths| - 1) * |ls.sep|
  {
    FormatLineLength(cells, ls);
    TotalLengthOfWidths(cells, widths);
  }

  /** Two lines whose cells have the same lengths, drawn with line styles of
      the same shape, have the same length. */
  lemma FormatLineSameShape(a: seq<string>, b: seq<string>, la: LineStyle, lb: LineStyle)
    requires |a| == |b| > 0
    requires forall i :: 0 <= i < |a| ==> |a[i]| == |b[i]|
    requires SameShape(la, lb)
    ensures |FormatLine(a, la)| == |FormatLine(b, lb)|
  {
    FormatLineLength(a, la);
    FormatLineLength(b, lb);
    SameTotalLength(a, b);
  }

  lemma {:induction false} SameTotalLength(a: seq<string>, b: seq<string>)
    requires |a| == |b|
    requires forall i :: 0 <= i < |a| ==> |a[i]| == |b[i]|
    ensures TotalLength(a) == TotalLength(b)
    decreases |a|
  {
    if |a| > 0 {
      SameTotalLength(a[1..], b[1..]);
    }
  }

  /** The total length of cells that are each exactly as long as their
      column's width. */
  lemma {:induction false} TotalLengthOfWidths(cells: seq<string>, widths: seq<nat>)
    requires |cells| == |widths|
    requires forall i :: 0 <= i < |cells| ==> |cells[i]| == widths[i]
    ensures TotalLength(cells) == Sum(widths)
    decreases |cells|
  {
    if |cells| > 0 {
      TotalLengthOfWidths(cells[1..], widths[1..]);
    }
  }

  function Sum(xs: seq<nat>): nat
    decreases |xs|
  {
    if |xs| == 0 then 0 else xs[0] + Sum(xs[1..])
  }

  lemma {:induction false} SumUniform(n: nat, w: nat)
    ensures Sum(seq(n, _ => w)) == n * w
    decreases n
  {
    if n > 0 {
      SumUniform(n - 1, w);
      assert seq(n, _ => w)[1..] == seq(n - 1, _ => w);
    }
  }

  // ---------------------------------------------------------------------
  // parse_width

  /** A width argument: one width for every column (a Python `int`) or a list
      of per-column widths. */
  datatype WidthSpec = Uniform(width: nat) | PerColumn(widths: seq<nat>)

  /** `parse_width(width, n)`: n copies of a single width, or the list itself
      when it has one width per column. */
  function ParseWidth(spec: WidthSpec, n: nat): (r: Result<seq<nat>>)
    ensures r.Ok? <==> spec.Uniform? || |spec.widths| == n
    ensures r.Ok? ==> |r.value| == n
    ensures spec.Uniform? ==> r.Ok? && forall i :: 0 <= i < n ==> r.value[i] == spec.width
    ensures spec.PerColumn? && r.Ok? ==> r.value == spec.widths
    ensures r.Err? ==> r.error == AssertionError(WidthsMismatch)
  {
    match spec
    case Uniform(w) => Ok(seq(n, _ => w))
    case PerColumn(ws) => if |ws| == n then Ok(ws) else Err(AssertionError(WidthsMismatch))
  }

  // ---------------------------------------------------------------------
  // calculate_widths

  /** `list(map(max, a, b))`: the larger of each pair, as long as the
      shorter list (Python's `map` over two lists stops at the shorter). */
  function ZipMax(a: seq<nat>, b: seq<nat>): (r: seq<nat>)
    ensures |r| == Min(|a|, |b|)
    ensures forall i :: 0 <= i < |r| ==> r[i] == Max(a[i], b[i])
  {
    seq(Min(|a|, |b|), i requires 0 <= i < Min(|a|, |b|) => Max(a[i], b[i]) as nat)
  }

  /** `list(map(len, row))`: stops at the first value without a length. */
  function RowLengths(row: seq<Cell>): (r: Result<seq<nat>>)
    ensures r.Ok? <==> forall j :: 0 <= j < |row| ==> Len(row[j]).Ok?
    ensures r.Ok? ==> |r.value| == |row| && forall j :: 0 <= j < |row| ==> r.value[j] == Len(row[j]).value
    ensures r.Err? ==> r.error == TypeError(NoLength)
    decreases |row|
  {
    if |row| == 0 then Ok([])
    else
      var first :- Len(row[0]);
      var rest :- RowLengths(row[1..]);
      Ok([first] + rest)
  }

  /** Every value of every row has a length. */
  predicate Measurable(data: seq<seq<Cell>>) {
    forall k, j :: 0 <= k < |data| && 0 <= j < |data[k]| ==> Len(data[k][j]).Ok?
  }

  /** Column `i` of `m` is the largest of `acc[i]` and the lengths in column
      `i` of every row, and is one of them. */
  predicate IsColumnMax(m: nat, acc: seq<nat>, data: seq<seq<Cell>>, i: nat)
    requires Measurable(data)
    requires i < |acc| && forall k :: 0 <= k < |data| ==> i < |data[k]|
  {
    && m >= acc[i]
    && (forall k :: 0 <= k < |data| ==> m >= Len(data[k][i]).value)
    && (m == acc[i] || exists k :: 0 <= k < |data| && m == Len(data[k][i]).value)
  }

  /** The loop of `calculate_widths`: fold each row's lengths into the
      running maxima `acc`. */
  function FoldWidths(acc: seq<nat>, data: seq<seq<Cell>>): (r: Result<seq<nat>>)
    ensures r.Ok? <==> Measurable(data)
    ensures r.Err? ==> r.error == TypeError(NoLength)
    ensures r.Ok? ==> |r.value| <= |acc| && forall k :: 0 <= k < |data| ==> |r.value| <= |data[k]|
    ensures r.Ok? ==> |r.value| == |acc| || exists k :: 0 <= k < |data| && |r.value| == |data[k]|
    ensures r.Ok? ==> forall i :: 0 <= i < |r.value| ==> IsColumnMax(r.value[i], acc, data, i)
    decreases |data|
  {
    if |data| == 0 then Ok(acc)
    else
      var lens :- RowLengths(data[0]);
      var r := FoldWidths(ZipMax(lens, acc), data[1..]);
      assert r.Ok? ==> Measurable(data) by {
        if r.Ok? {
          forall k, j | 0 <= k < |data| && 0 <= j < |data[k]|
            ensures Len(data[k][j]).Ok?
          {
            if k > 0 {
              assert data[k] == data[1..][k - 1];
            }
          }
        }
      }
      assert Measurable(data) ==> Measurable(data[1..]) by {
        if Measurable(data) {
          forall k, j | 0 <= k < |data[1..]| && 0 <= j < |data[1..][k]|
            ensures Len(data[1..][k][j]).Ok?
          {
            assert data[1..][k] == data[k + 1];
          }
        }
      }
      if r.Ok? then
        FoldWidthsStep(lens, acc, data, r.value);
        r
      else r
  }

  /** One step of the fold keeps the column-maximum property. */
  lemma FoldWidthsStep(lens: seq<nat>, acc: seq<nat>, data: seq<seq<Cell>>, m: seq<nat>)
    requires |data| > 0 && Measurable(data) && Measurable(data[1..])
    requires |lens| == |data[0]| && forall j :: 0 <= j < |lens| ==> lens[j] == Len(data[0][j]).value
    requires |m| <= Min(|lens|, |acc|) && forall k :: 0 <= k < |data[1..]| ==> |m| <= |data[1..][k]|
    requires |m| == Min(|lens|, |acc|) || exists k :: 0 <= k < |data[1..]| && |m| == |data[1..][k]|
    requires forall i :: 0 <= i < |m| ==> IsColumnMax(m[i], ZipMax(lens, acc), data[1..], i)
    ensures |m| <= |acc| && forall k :: 0 <= k < |data| ==> |m| <= |data[k]|
    ensures |m| == |acc| || exists k :: 0 <= k < |data| && |m| == |data[k]|
    ensures forall i :: 0 <= i < |m| ==> IsColumnMax(m[i], acc, data, i)
  {
    forall k | 0 <= k < |data|
      ensures |m| <= |data[k]|
    {
      if k > 0 {
        assert data[k] == data[1..][k - 1];
      }
    }
    if |m| != |acc| {
      if |m| == |lens| {
        assert |m| == |data[0]|;
      } else {
        var k :| 0 <= k < |data[1..]| && |m| == |data[1..][k]|;
        assert |m| == |data[k + 1]|;
      }
    }
    forall i | 0 <= i < |m|
      ensures IsColumnMax(m[i], acc, data, i)
    {
      var z := ZipMax(lens, acc);
      assert z[i] == Max(lens[i], acc[i]);
      forall k | 0 <= k < |data|
        ensures m[i] >= Len(data[k][i]).value
      {
        if k > 0 {
          assert data[k] == data[1..][k - 1];
        }
      }
      if m[i] != acc[i] {
        if m[i] == z[i] {
          assert m[i] == Len(data[0][i]).value;
        } else {
          var k :| 0 <= k < |data[1..]| && m[i] == Len(data[1..][k][i]).value;
          assert m[i] == Len(data[k + 1][i]).value;
        }
      }
    }
  }

  /** `calculate_widths(data, headers)`: for each column, the greatest `len()`
      of its header and of the values below it. Python's `map` over two lists
      stops at the shorter, so the result is only as long as the shortest of
      the header list and the rows. */
  function CalculateWidths(data: seq<seq<Cell>>, headers: seq<string>): (r: Result<seq<nat>>)
    ensures r.Ok? <==> Measurable(data)
    ensures r.Err? ==> r.error == TypeError(NoLength)
    ensures r.Ok? ==> |r.value| <= |headers| && forall k :: 0 <= k < |data| ==> |r.value| <= |data[k]|
    ensures r.Ok? ==> |r.value| == |headers| || exists k :: 0 <= k < |data| && |r.value| == |data[k]|
    ensures r.Ok? && (forall k :: 0 <= k < |data| ==> |data[k]| >= |headers|) ==> |r.value| == |headers|
    ensures r.Ok? ==> forall i :: 0 <= i < |r.value| ==>
      && r.value[i] >= |headers[i]|
      && (forall k :: 0 <= k < |data| ==> r.value[i] >= Len(data[k][i]).value)
      && (r.value[i] == |headers[i]| || exists k :: 0 <= k < |data| && r.value[i] == Len(data[k][i]).value)
    ensures |data| == 0 ==> r.Ok? && |r.value| == |headers| && forall i :: 0 <= i < |headers| ==> r.value[i] == |headers[i]|
  {
    var acc := seq(|headers|, i requires 0 <= i < |headers| => |headers[i]|);
    var r := FoldWidths(acc, data);
    if r.Ok? then
      assert forall i :: 0 <= i < |r.value| ==> IsColumnMax(r.value[i], acc, data, i);
      r
    else r
  }

  // ---------------------------------------------------------------------
  // ansi_len

  const Esc: char := '\U{1B}'

  /** `s` holds an escape sequence: an ESC with an `m` somewhere after it. */
  predicate HasEscape(s: string) {
    exists i, j :: 0 <= i < j < |s| && s[i] == Esc && s[j] == 'm'
  }

  /** `re.sub(r'\x1b[^m]*m', '', s)`: each run from an ESC up to the first
      `m` after it is deleted, scanning left to right. */
  function StripAnsi(s: string): (r: string)
    ensures |r| <= |s|
    ensures multiset(r) <= multiset(s)
    ensures !HasEscape(r)
    decreases |s|
  {
    if |s| == 0 then ""
    else if s[0] == Esc && 'm' in s[1..] then
      var rest := s[1..][IndexOf(s[1..], 'm') + 1..];
      assert s == [s[0]] + s[1..][..IndexOf(s[1..], 'm') + 1] + rest;
      StripAnsi(rest)
    else
      var tail := StripAnsi(s[1..]);
      assert s == [s[0]] + s[1..];
      assert s[0] == Esc ==> 'm' !in multiset(tail);
      KeptFirst(s[0], tail);
      [s[0]] + tail
  }

  /** A character kept in front of a stripped tail adds no escape
      sequence, provided an ESC kept there has no `m` after it. */
  lemma KeptFirst(c: char, tail: string)
    requires !HasEscape(tail) && (c == Esc ==> 'm' !in multiset(tail))
    ensures !HasEscape([c] + tail)
  {
    var r := [c] + tail;
    forall i, j | 0 <= i < j < |r| && r[i] == Esc
      ensures r[j] != 'm'
    {
      assert r[j] == tail[j - 1];
      if i > 0 {
        assert r[i] == tail[i - 1];
      }
    }
  }

  /** A string without escape sequences is left as it is. */
  lemma {:induction false} StripAnsiPlain(s: string)
    requires !HasEscape(s)
    ensures StripAnsi(s) == s
    decreases |s|
  {
    if |s| > 0 {
      assert !HasEscape(s[1..]) by {
        forall i, j | 0 <= i < j < |s[1..]| && s[1..][i] == Esc
          ensures s[1..][j] != 'm'
        {
          assert s[i + 1] == Esc;
        }
      }
      StripAnsiPlain(s[1..]);
    }
  }

  /** A string with an escape sequence gets strictly shorter. */
  lemma {:induction false} StripAnsiShortens(s: string)
    requires HasEscape(s)
    ensures |StripAnsi(s)| < |s|
    decreases |s|
  {
    if !(s[0] == Esc && 'm' in s[1..]) {
      var i, j :| 0 <= i < j < |s| && s[i] == Esc && s[j] == 'm';
      assert s[1..][i - 1] == Esc && s[1..][j - 1] == 'm';
      StripAnsiShortens(s[1..]);
    }
  }

  /** Stripping changes a string exactly when it holds an escape sequence. */
  lemma StripAnsiFixedPoint(s: string)
    ensures StripAnsi(s) == s <==> !HasEscape(s)
  {
    if HasEscape(s) {
      StripAnsiShortens(s);
    } else {
      StripAnsiPlain(s);
    }
  }

  /** Stripping twice is stripping once. */
  lemma StripAnsiIdempotent(s: string)
    ensures StripAnsi(StripAnsi(s)) == StripAnsi(s)
  {
    StripAnsiPlain(StripAnsi(s));
  }

  /** The first escape sequence is deleted: text before its ESC is kept as
      it is, everything from the ESC up to the first `m` after it goes, and
      stripping carries on after that `m`. */
  lemma {:induction false} StripAnsiRemovesSequence(p: string, q: string, rest: string)
    requires Esc !in p && 'm' !in q
    ensures StripAnsi(p + [Esc] + q + ['m'] + rest) == p + StripAnsi(rest)
    decreases |p|
  {
    var s := p + [Esc] + q + ['m'] + rest;
    if |p| == 0 {
      assert s == [Esc] + q + ['m'] + rest;
      StripAnsiAtEscape(q, rest);
    } else {
      var t := p[1..] + [Esc] + q + ['m'] + rest;
      SplitFirst(p, Esc, [Esc] + q + ['m'] + rest);
      assert s == [p[0]] + t;
      StripAnsiRemovesSequence(p[1..], q, rest);
      StripAnsiKeeps(p[0], t);
      SplitFirst(p, Esc, StripAnsi(rest));
    }
  }

  /** A non-empty `p` is its first character and the rest, and the rest
      keeps out what `p` keeps out. */
  lemma SplitFirst(p: string, c: char, x: string)
    requires |p| > 0 && c !in p
    ensures p[0] != c && c !in p[1..]
    ensures p + x == [p[0]] + (p[1..] + x)
  {
    assert p[0] in p;
    assert forall k :: 0 <= k < |p[1..]| ==> p[1..][k] == p[k + 1];
  }

  /** A string that starts with an escape sequence loses it. */
  lemma StripAnsiAtEscape(q: string, rest: string)
    requires 'm' !in q
    ensures StripAnsi([Esc] + q + ['m'] + rest) == StripAnsi(rest)
  {
    var s := [Esc] + q + ['m'] + rest;
    var t := q + ['m'] + rest;
    assert s[1..] == t;
    FirstM(q, rest);
    assert t[|q| + 1..] == rest;
  }

  lemma FirstM(q: string, rest: string)
    requires 'm' !in q
    ensures 'm' in q + ['m'] + rest && IndexOf(q + ['m'] + rest, 'm') == |q|
  {
    var t := q + ['m'] + rest;
    assert t[|q|] == 'm';
    IndexOfFirst(t, 'm', |q|);
  }

  /** The first occurrence is the one with no earlier occurrence. */
  lemma IndexOfFirst(s: string, c: char, i: nat)
    requires i < |s| && s[i] == c && c !in s[..i]
    ensures c in s && IndexOf(s, c) == i
  {
    var k := IndexOf(s, c);
    var before, upto := s[..k], s[..i];
    assert k > i ==> c in before;
    assert k < i ==> c in upto;
  }

  /** A character other than ESC at the front is kept. */
  lemma StripAnsiKeeps(c: char, t: string)
    requires c != Esc
    ensures StripAnsi([c] + t) == [c] + StripAnsi(t)
  {
    assert ([c] + t)[1..] == t;
  }

  /** A text made of one escape sequence and plain text one column per
      character: `ansi_len` is exactly the length of the sequence. */
  lemma AnsiLenOfSequence(q: string, text: string, dw: Measure)
    requires 'm' !in q && !HasEscape(text) && dw(text) == |text|
    ensures AnsiLen([Esc] + q + ['m'] + text, dw) == |q| + 2
  {
    var s := [Esc] + q + ['m'] + text;
    StripAnsiAtEscape(q, text);
    StripAnsiPlain(text);
    assert StripAnsi(s) == text;
    assert |s| == |q| + 2 + |text|;
  }

  /** `ansi_len(s)`: how many more code points `s` has than terminal columns
      once its escape sequences are removed; the printer widens a text
      field by this much so that the visible text lines up. */
  function AnsiLen(s: string, dw: Measure): (r: int)
    ensures dw(StripAnsi(s)) == |StripAnsi(s)| ==> r == |s| - |StripAnsi(s)| >= 0
    ensures !HasEscape(s) && dw(s) == |s| ==> r == 0
  {
    if HasEscape(s) then |s| - dw(StripAnsi(s))
    else
      StripAnsiPlain(s);
      |s| - dw(StripAnsi(s))
  }

  // ---------------------------------------------------------------------
  // humantime, over whole seconds

  /** The argument of `humantime`: a whole number of seconds, or a value
      `float()` rejects. */
  datatype Duration = WholeSeconds(seconds: nat) | NotANumber

  datatype Unit = Weeks | Days | Hours | Minutes | Seconds

  function UnitSeconds(u: Unit): nat {
    match u
    case Weeks => 7 * 60 * 60 * 24
    case Days => 60 * 60 * 24
    case Hours => 60 * 60
    case Minutes => 60
    case Seconds => 1
  }

  function UnitName(u: Unit): string {
    match u
    case Weeks => "weeks"
    case Days => "days"
    case Hours => "hours"
    case Minutes => "min."
    case Seconds => "s"
  }

  /** Position of a unit from the smallest (seconds) to the largest. */
  function Rank(u: Unit): nat {
    match u
    case Weeks => 4
    case Days => 3
    case Hours => 2
    case Minutes => 1
    case Seconds => 0
  }

  /** `humantime(t)` for a whole number of seconds `t`: below a minute, the
      seconds themselves; otherwise the count of the largest unit not above
      `t` (floor division), then the remainder. */
  function HumanSeconds(t: nat): string
    decreases t
  {
    if t < 60 then NatToString(t) + " s"
    else
      var u := LargestUnit(t);
      LargestUnitFits(t);
      NatToString(t / UnitSeconds(u)) + " " + UnitName(u) + ", " + HumanSeconds(t % UnitSeconds(u))
  }

  /** `humantime(x)`: a ValueError for a non-numeric argument. */
  function HumanTime(d: Duration): (r: Result<string>)
    ensures d.NotANumber? <==> r.Err?
    ensures r.Err? ==> r.error == ValueError(NotNumeric)
    ensures r.Ok? ==> (',' in r.value <==> d.seconds >= 60)
    ensures r.Ok? && d.seconds < 60 ==> r.value == NatToString(d.seconds) + " s"
    ensures r.Ok? ==> r.value == Render(Breakdown(d.seconds))
  {
    match d
    case NotANumber => Err(ValueError(NotNumeric))
    case WholeSeconds(t) =>
      HumanSecondsComma(t);
      HumanSecondsRendersBreakdown(t);
      Ok(HumanSeconds(t))
  }

  /** The unit `humantime` breaks off first: the largest one not above `t`,
      checked from weeks down to minutes. */
  function LargestUnit(t: nat): Unit {
    if t >= 7 * 60 * 60 * 24 then Weeks
    else if t >= 60 * 60 * 24 then Days
    else if t >= 60 * 60 then Hours
    else if t >= 60 then Minutes
    else Seconds
  }

  /** A time shorter than some unit is broken off in a smaller unit. */
  lemma SmallerUnit(x: nat, u: Unit)
    requires u != Seconds && x < UnitSeconds(u)
    ensures Rank(LargestUnit(x)) < Rank(u)
  {
  }

  lemma DigitsHaveNoComma(n: nat)
    ensures ',' !in NatToString(n)
  {
    var d := NatToString(n);
    assert forall i :: 0 <= i < |d| ==> IsDigit(d[i]);
    assert forall i :: 0 <= i < |d| ==> d[i] != ',';
  }

  /** A single seconds group holds no comma. */
  lemma SecondsHaveNoComma(t: nat)
    ensures ',' !in NatToString(t) + " s"
  {
    DigitsHaveNoComma(t);
    var s := NatToString(t) + " s";
    forall i | 0 <= i < |s|
      ensures s[i] != ','
    {
      if i < |NatToString(t)| {
        assert s[i] == NatToString(t)[i];
      }
    }
  }

  lemma CommaAfter(lead: string, rest: string)
    ensures ',' in lead + ", " + rest
  {
    assert (lead + ", " + rest)[|lead|] == ',';
  }

  /** The result has more than one group, hence a comma, exactly when `t` is
      a minute or more. */
  lemma HumanSecondsComma(t: nat)
    ensures ',' in HumanSeconds(t) <==> t >= 60
  {
    if t >= 60 {
      var u := LargestUnit(t);
      var lead := NatToString(t / UnitSeconds(u)) + " " + UnitName(u);
      var rest := HumanSeconds(t % UnitSeconds(u));
      assert HumanSeconds(t) == lead + ", " + rest;
      CommaAfter(lead, rest);
    } else {
      assert HumanSeconds(t) == NatToString(t) + " s";
      SecondsHaveNoComma(t);
    }
  }

  /** A whole-second result is `"t s"` exactly when `t` is under a minute. */
  lemma HumanSecondsSingleGroup(t: nat)
    ensures HumanSeconds(t) == NatToString(t) + " s" <==> t < 60
  {
    HumanSecondsComma(t);
    SecondsHaveNoComma(t);
  }

  /** One group of the result: a count of one unit. */
  datatype Part = Part(count: nat, unit: Unit)

  /** The seconds the groups stand for. */
  function Total(parts: seq<Part>): nat
    decreases |parts|
  {
    if |parts| == 0 then 0 else Worth(parts[0]) + Total(parts[1..])
  }

  /** The seconds one group stands for. */
  function Worth(p: Part): nat {
    p.count * UnitSeconds(p.unit)
  }

  lemma DivMod(t: nat, size: nat)
    requires size > 0
    ensures (t / size) * size + t % size == t
    ensures t % size < size
    ensures t >= size ==> t / size > 0
  {
  }

  lemma LargestUnitFits(t: nat)
    ensures LargestUnit(t) == Seconds <==> t < 60
    ensures LargestUnit(t) != Seconds ==> UnitSeconds(LargestUnit(t)) <= t
  {
  }

  /** The groups `humantime` writes for `t`, largest unit first: they add up
      to `t`, their units strictly decrease, only the final seconds group can
      be zero, and every later group is worth less than one of the unit
      before it. */
  function Breakdown(t: nat): (parts: seq<Part>)
    ensures |parts| > 0
    ensures Total(parts) == t
    ensures parts[0].unit == LargestUnit(t)
    ensures parts[|parts| - 1].unit == Seconds && parts[|parts| - 1].count < 60
    ensures forall i, j :: 0 <= i < j < |parts| ==> Rank(parts[i].unit) > Rank(parts[j].unit)
    ensures forall i :: 0 <= i < |parts| - 1 ==> parts[i].count > 0
    ensures forall i :: 0 < i < |parts| ==> Worth(parts[i]) < UnitSeconds(parts[i - 1].unit)
    ensures forall i :: 0 <= i < |parts| ==> Greedy(parts, i)
    decreases t
  {
    var u := LargestUnit(t);
    LargestUnitFits(t);
    if u == Seconds then [Part(t, Seconds)]
    else
      var size := UnitSeconds(u);
      DivMod(t, size);
      var q := t / size;
      var m := t % size;
      var rest := Breakdown(m);
      SmallerUnit(m, u);
      var parts := [Part(q, u)] + rest;
      assert parts[1..] == rest;
      assert Worth(parts[0]) == q * size;
      assert Total(parts) == Worth(parts[0]) + Total(rest);
      assert Worth(rest[0]) <= Total(rest);
      GreedyCons(Part(q, u), rest, t);
      parts
  }

  /** Group `i` is what `humantime` breaks off the seconds that group and
      the later ones stand for: the count of the largest unit that fits. */
  predicate Greedy(parts: seq<Part>, i: nat)
    requires i < |parts|
  {
    var rest := Total(parts[i..]);
    parts[i].unit == LargestUnit(rest) && parts[i].count == rest / UnitSeconds(parts[i].unit)
  }

  /** A greedy first group in front of greedy groups. */
  lemma GreedyCons(p: Part, rest: seq<Part>, t: nat)
    requires Total([p] + rest) == t && p.unit == LargestUnit(t) && p.count == t / UnitSeconds(p.unit)
    requires forall i :: 0 <= i < |rest| ==> Greedy(rest, i)
    ensures forall i :: 0 <= i < |rest| + 1 ==> Greedy([p] + rest, i)
  {
    var parts := [p] + rest;
    forall i | 0 <= i < |parts|
      ensures Greedy(parts, i)
    {
      if i > 0 {
        assert parts[i..] == rest[i - 1..];
        assert Greedy(rest, i - 1);
      } else {
        assert parts[0..] == parts;
      }
    }
  }

  /** The groups are determined: any list of greedy groups that adds up to
      `t`, with strictly decreasing units and ending in seconds, is the
      breakdown of `t`. */
  lemma {:induction false} BreakdownUnique(t: nat, parts: seq<Part>)
    requires |parts| > 0 && Total(parts) == t
    requires forall i :: 0 <= i < |parts| ==> Greedy(parts, i)
    requires forall i, j :: 0 <= i < j < |parts| ==> Rank(parts[i].unit) > Rank(parts[j].unit)
    requires parts[|parts| - 1].unit == Seconds
    ensures parts == Breakdown(t)
    decreases |parts|
  {
    assert parts[0..] == parts;
    assert Greedy(parts, 0);
    var u := LargestUnit(t);
    LargestUnitFits(t);
    assert |parts| > 1 ==> Rank(parts[0].unit) > Rank(parts[1].unit);
    if u != Seconds {
      var size := UnitSeconds(u);
      DivMod(t, size);
      var rest := parts[1..];
      assert |parts| > 1;
      assert Total(parts) == Worth(parts[0]) + Total(rest);
      GreedyTail(parts);
      BreakdownUnique(t % size, rest);
      assert Breakdown(t) == [Part(t / size, u)] + Breakdown(t % size);
      assert parts == [parts[0]] + rest;
    }
  }

  /** The groups after a greedy first group are greedy. */
  lemma GreedyTail(parts: seq<Part>)
    requires |parts| > 0 && forall i :: 0 <= i < |parts| ==> Greedy(parts, i)
    ensures forall i :: 0 <= i < |parts| - 1 ==> Greedy(parts[1..], i)
  {
    forall i | 0 <= i < |parts| - 1
      ensures Greedy(parts[1..], i)
    {
      assert parts[1..][i..] == parts[i + 1..];
      assert Greedy(parts, i + 1);
    }
  }

  function PartText(p: Part): string {
    NatToString(p.count) + " " + UnitName(p.unit)
  }

  /** The groups, rendered and joined with ", ". */
  function Render(parts: seq<Part>): string {
    Join(seq(|parts|, i requires 0 <= i < |parts| => PartText(parts[i])), ", ")
  }

  lemma RenderCons(p: Part, rest: seq<Part>)
    requires |rest| > 0
    ensures Render([p] + rest) == PartText(p) + ", " + Render(rest)
  {
    var parts := [p] + rest;
    var texts := seq(|parts|, i requires 0 <= i < |parts| => PartText(parts[i]));
    var restTexts := seq(|rest|, i requires 0 <= i < |rest| => PartText(rest[i]));
    assert texts[1..] == restTexts;
  }

  /** `humantime` writes exactly the breakdown of `t`. */
  lemma {:induction false} HumanSecondsRendersBreakdown(t: nat)
    ensures HumanSeconds(t) == Render(Breakdown(t))
    decreases t
  {
    var u := LargestUnit(t);
    LargestUnitFits(t);
    if u != Seconds {
      var size := UnitSeconds(u);
      var m := t % size;
      var q := t / size;
      HumanSecondsRendersBreakdown(m);
      var rest := Breakdown(m);
      assert Breakdown(t) == [Part(q, u)] + rest;
      RenderCons(Part(q, u), rest);
    }
  }
}
