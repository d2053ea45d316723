/** The parts of Python's string handling the table printer is built from:
    `str.format` padding (`{:>w}`, `{:<w}`, `{:^w}`, `{:F^w}`), `str.join`,
    `str.split` on one character, and the decimal rendering of a whole number.

    Python pads by code points and never truncates: a field narrower than its
    text is simply the text.
 */
module Strings {
  import opened Results

  function Max(a: int, b: int): int {
    if a >= b then a else b
  }

  function Min(a: int, b: int): int {
    if a <= b then a else b
  }

  function Repeat(c: char, n: nat): (r: string)
    ensures |r| == n
    ensures forall i :: 0 <= i < n ==> r[i] == c
  {
    seq(n, _ => c)
  }

  function Spaces(n: nat): (r: string)
    ensures |r| == n
    ensures forall i :: 0 <= i < n ==> r[i] == ' '
  {
    Repeat(' ', n)
  }

  /** `'{:>w}'.format(s)`: `s` pushed to the right of a field of `w` columns. */
  function AlignRight(s: string, w: nat): (r: string)
    ensures |r| == Max(|s|, w)
    ensures r[|r| - |s|..] == s
    ensures forall i :: 0 <= i < |r| - |s| ==> r[i] == ' '
  {
    if |s| >= w then s else Spaces(w - |s|) + s
  }

  /** `'{:<w}'.format(s)`: `s` at the left of a field of `w` columns. */
  function AlignLeft(s: string, w: nat): (r: string)
    ensures |r| == Max(|s|, w)
    ensures r[..|s|] == s
    ensures forall i :: |s| <= i < |r| ==> r[i] == ' '
  {
    if |s| >= w then s else s + Spaces(w - |s|)
  }

  /** `'{:^w}'.format(s)`: `s` in the middle of a field of `w` columns; the
      left margin is half the spare room rounded down, so an odd spare
      column goes to the right. */
  function Center(s: string, w: nat): (r: string)
    ensures |r| == Max(|s|, w)
    ensures var lead := (|r| - |s|) / 2;
      && r[lead..lead + |s|] == s
      && (forall i :: 0 <= i < lead ==> r[i] == ' ')
      && (forall i :: lead + |s| <= i < |r| ==> r[i] == ' ')
      && |r| - |s| - lead == (|r| - |s| + 1) / 2
  {
    if |s| >= w then s
    else
      var lead := (w - |s|) / 2;
      Spaces(lead) + s + Spaces(w - |s| - lead)
  }

  /** A fill text Python accepts in front of `^` in a format specifier: none
      at all (spaces are used), or one character that is not a brace. */
  predicate ValidFill(fill: string) {
    |fill| == 0 || (|fill| == 1 && fill[0] != '{' && fill[0] != '}')
  }

  function FillChar(fill: string): char
    requires ValidFill(fill)
  {
    if |fill| == 0 then ' ' else fill[0]
  }

  /** `('{:%s^%i}' % (fill, w)).format('')`: an empty field of `w` columns
      padded with the fill character. */
  function FillField(fill: string, w: nat): (r: Result<string>)
    ensures r.Ok? <==> ValidFill(fill)
    ensures r.Ok? ==> |r.value| == w && forall i :: 0 <= i < w ==> r.value[i] == FillChar(fill)
    ensures r.Err? ==> r.error == ValueError(InvalidFormatSpecifier)
  {
    if ValidFill(fill) then Ok(Repeat(FillChar(fill), w)) else Err(ValueError(InvalidFormatSpecifier))
  }

  /** `sep.join(parts)` */
  function Join(parts: seq<string>, sep: string): string
    decreases |parts|
  {
    if |parts| == 0 then ""
    else if |parts| == 1 then parts[0]
    else parts[0] + sep + Join(parts[1..], sep)
  }

  /** `''.join(parts)` */
  function Concat(parts: seq<string>): string
    decreases |parts|
  {
    if |parts| == 0 then "" else parts[0] + Concat(parts[1..])
  }

  function TotalLength(parts: seq<string>): nat
    decreases |parts|
  {
    if |parts| == 0 then 0 else |parts[0]| + TotalLength(parts[1..])
  }

  /** A join of k >= 1 parts is as long as the parts plus k - 1 separators. */
  lemma {:induction false} JoinLength(parts: seq<string>, sep: string)
    requires |parts| > 0
    ensures |Join(parts, sep)| == TotalLength(parts) + (|parts| - 1) * |sep|
    decreases |parts|
  {
    if |parts| > 1 {
      JoinLength(parts[1..], sep);
    }
  }

  /** Each part followed by a newline. */
  function Terminated(parts: seq<string>): (r: seq<string>)
    ensures |r| == |parts|
    ensures forall i :: 0 <= i < |parts| ==> r[i] == parts[i] + "\n"
    decreases |parts|
  {
    if |parts| == 0 then [] else [parts[0] + "\n"] + Terminated(parts[1..])
  }

  /** The inner parts, each followed by a newline, line up with the parts
      they come from. */
  lemma TerminatedMiddle(parts: seq<string>, middle: seq<string>)
    requires |parts| >= 2
    requires middle == Terminated(parts[1..|parts| - 1])
    ensures |middle| == |parts| - 2
    ensures forall k :: 0 <= k < |middle| ==> middle[k] == parts[1 + k] + "\n"
  {
    var inner := parts[1..|parts| - 1];
    assert forall k :: 0 <= k < |inner| ==> inner[k] == parts[1 + k];
  }

  /** The first block, the middle lines and the last block, each with its
      newline, are all the blocks with their newlines. */
  lemma TerminatedFrame(blocks: seq<string>, middle: seq<string>)
    requires |blocks| >= 2 && |middle| == |blocks| - 2
    requires forall k :: 0 <= k < |middle| ==> middle[k] == blocks[1 + k] + "\n"
    ensures [blocks[0] + "\n"] + middle + [blocks[|blocks| - 1] + "\n"]
      == Terminated(blocks)
  {
    var w := [blocks[0] + "\n"] + middle + [blocks[|blocks| - 1] + "\n"];
    var t := Terminated(blocks);
    Framed(blocks[0] + "\n", middle, blocks[|blocks| - 1] + "\n");
    forall j | 0 <= j < |w|
      ensures w[j] == t[j]
    {
      if 0 < j < |w| - 1 {
        assert w[j] == middle[j - 1];
      }
    }
    assert |w| == |t|;
  }

  /** Writing each part followed by a newline is the newline join of the
      parts plus one final newline: `'\n'.join(ps) + '\n'`. */
  lemma {:induction false} JoinTerminated(parts: seq<string>)
    requires |parts| > 0
    ensures Join(parts, "\n") + "\n" == Concat(Terminated(parts))
    decreases |parts|
  {
    if |parts| > 1 {
      JoinTerminated(parts[1..]);
      assert Terminated(parts)[1..] == Terminated(parts[1..]);
    }
  }

  /** A join holds a character only if one of the parts or the separator
      does. */
  lemma {:induction false} JoinExcludes(parts: seq<string>, sep: string, c: char)
    requires c !in sep
    requires forall k :: 0 <= k < |parts| ==> c !in parts[k]
    ensures c !in Join(parts, sep)
    decreases |parts|
  {
    if |parts| > 1 {
      JoinExcludes(parts[1..], sep, c);
    }
  }

  /** A join begins with its first part. */
  lemma JoinStartsWith(parts: seq<string>, sep: string)
    requires |parts| > 0
    ensures |Join(parts, sep)| >= |parts[0]| && Join(parts, sep)[..|parts[0]|] == parts[0]
  {
  }

  /** Where field `i` starts when every field and its separator take `d`
      characters. */
  function FieldStart(i: nat, d: nat): nat {
    if i == 0 then 0 else d + FieldStart(i - 1, d)
  }

  /** Field `i` starts at `i * d`. */
  lemma {:induction false} FieldStartIsProduct(i: nat, d: nat)
    ensures FieldStart(i, d) == i * d
  {
    if i > 0 {
      FieldStartIsProduct(i - 1, d);
      assert i * d == d + (i - 1) * d;
    }
  }

  /** In a join `j` of parts that are all `w` long, part `i` starts at
      `i * (w + |sep|)` and is followed by the separator unless it is the
      last part. */
  lemma {:induction false} JoinUniformField(parts: seq<string>, sep: string, w: nat, i: nat, j: string)
    requires forall k :: 0 <= k < |parts| ==> |parts[k]| == w
    requires i < |parts| && j == Join(parts, sep)
    ensures var o := FieldStart(i, w + |sep|);
      && |j| >= o + w
      && j[o..o + w] == parts[i]
    ensures var o := FieldStart(i, w + |sep|);
      i + 1 < |parts| ==>
      && |j| >= o + w + |sep|
      && j[o + w..o + w + |sep|] == sep
    decreases i
  {
    if |parts| == 1 {
      assert j[0..w] == parts[0];
    } else {
      var rest := Join(parts[1..], sep);
      assert j == parts[0] + sep + rest;
      if i > 0 {
        var head, o := parts[0] + sep, FieldStart(i - 1, w + |sep|);
        assert parts[1..][i - 1] == parts[i] && |head| == w + |sep|;
        assert FieldStart(i, w + |sep|) == |head| + o;
        JoinUniformField(parts[1..], sep, w, i - 1, rest);
        FieldAfterHead(head, rest, parts[i], sep, w, o, i + 1 < |parts|);
      } else {
        JoinHead(parts[0], sep, rest);
      }
    }
  }

  /** `s` holds `part` at offset `o`. */
  predicate HasAt(s: string, o: nat, part: string) {
    o + |part| <= |s| && s[o..o + |part|] == part
  }

  /** The fields of a join of equal-length parts placed between `a` and
      `b`: part `i` at `|a| + i * (w + |sep|)`, and a separator after every
      part but the last. */
  lemma FramedJoinField(a: string, parts: seq<string>, sep: string, b: string, w: nat, i: nat, j: string)
    requires forall k :: 0 <= k < |parts| ==> |parts[k]| == w
    requires i < |parts| && j == Join(parts, sep)
    ensures HasAt(a + j + b, |a| + FieldStart(i, w + |sep|), parts[i])
    ensures i + 1 < |parts| ==> HasAt(a + j + b, |a| + FieldStart(i, w + |sep|) + w, sep)
  {
    JoinUniformField(parts, sep, w, i, j);
    var o := FieldStart(i, w + |sep|);
    InFrame(a, j, b, o, w);
    if i + 1 < |parts| {
      InFrame(a, j, b, o + w, |sep|);
    }
  }

  /** A slice of the middle of a framed string. */
  lemma InFrame(a: string, j: string, b: string, o: nat, len: nat)
    requires o + len <= |j|
    ensures (a + j + b)[|a| + o..|a| + o + len] == j[o..o + len]
  {
    assert (a + j + b)[|a| + o..|a| + o + len] == (a + j + b)[|a|..|a| + |j|][o..o + len];
    assert (a + j + b)[|a|..|a| + |j|] == j;
  }

  /** A field found in the rest of a join is found again, shifted by the
      first part and its separator, in the whole join. */
  lemma FieldAfterHead(head: string, rest: string, part: string, sep: string, w: nat, o: nat, more: bool)
    requires |rest| >= o + w && rest[o..o + w] == part
    requires more ==> |rest| >= o + w + |sep| && rest[o + w..o + w + |sep|] == sep
    ensures (head + rest)[|head| + o..|head| + o + w] == part
    ensures more ==> (head + rest)[|head| + o + w..|head| + o + w + |sep|] == sep
  {
    assert (head + rest)[|head| + o..|head| + o + w] == rest[o..o + w];
    if more {
      assert (head + rest)[|head| + o + w..|head| + o + w + |sep|] == rest[o + w..o + w + |sep|];
    }
  }

  lemma JoinHead(a: string, sep: string, b: string)
    ensures (a + sep + b)[0..|a|] == a
    ensures (a + sep + b)[|a|..|a| + |sep|] == sep
  {
  }

  lemma JoinThree(a: string, b: string, c: string, sep: string)
    ensures Join([a, b, c], sep) == a + sep + b + sep + c
  {
    assert [a, b, c][1..] == [b, c];
    assert [b, c][1..] == [c];
    assert Join([b, c], sep) == b + sep + c;
    assert a + sep + (b + sep + c) == a + sep + b + sep + c;
  }

  /** A list of lines with one line added before and one after. */
  lemma Framed(first: string, middle: seq<string>, last: string)
    ensures var w := [first] + middle + [last];
      && |w| == |middle| + 2 && w[0] == first && w[|w| - 1] == last
      && forall j :: 1 <= j < |w| - 1 ==> w[j] == middle[j - 1]
  {
  }

  /** A list with one item added before it, and the tail of a list. */
  lemma Prepended<T>(first: T, rest: seq<T>)
    ensures var w := [first] + rest;
      && |w| == |rest| + 1 && w[0] == first
      && forall j :: 1 <= j < |w| ==> w[j] == rest[j - 1]
  {
  }

  /** Centring adds nothing but spaces. */
  lemma CenterExcludes(s: string, w: nat, c: char)
    requires c != ' ' && c !in s
    ensures c !in Center(s, w)
  {
    var r := Center(s, w);
    var lead := (|r| - |s|) / 2;
    forall i | 0 <= i < |r|
      ensures r[i] != c
    {
      if lead <= i < lead + |s| {
        assert r[i] == r[lead..lead + |s|][i - lead] == s[i - lead];
      }
    }
  }

  /** Index of the first `c` in `s`. */
  function IndexOf(s: string, c: char): (i: nat)
    requires c in s
    ensures i < |s| && s[i] == c && c !in s[..i]
    decreases |s|
  {
    if s[0] == c then 0
    else
      assert c in s[1..] by { var k :| 0 <= k < |s| && s[k] == c; assert s[1..][k - 1] == c; }
      var j := IndexOf(s[1..], c);
      assert s[..j + 1] == [s[0]] + s[1..][..j];
      1 + j
  }

  /** `s.split(c)` for a one-character separator. */
  function Split(s: string, c: char): (r: seq<string>)
    ensures |r| > 0
    ensures forall k :: 0 <= k < |r| ==> c !in r[k]
    decreases |s|
  {
    if c !in s then [s]
    else
      var i := IndexOf(s, c);
      [s[..i]] + Split(s[i + 1..], c)
  }

  lemma SplitAfterFirst(a: string, c: char, b: string)
    requires c !in a
    ensures Split(a + [c] + b, c) == [a] + Split(b, c)
  {
    var s := a + [c] + b;
    assert s[|a|] == c;
    var i := IndexOf(s, c);
    assert s[..i] == a;
    assert s[i + 1..] == b;
  }

  /** Splitting a join on its separator gives back the parts, provided no
      part contains the separator. */
  lemma {:induction false} SplitJoin(parts: seq<string>, c: char)
    requires |parts| > 0
    requires forall k :: 0 <= k < |parts| ==> c !in parts[k]
    ensures Split(Join(parts, [c]), c) == parts
    decreases |parts|
  {
    if |parts| > 1 {
      var rest := parts[1..];
      assert forall k :: 0 <= k < |rest| ==> rest[k] == parts[k + 1];
      SplitJoin(rest, c);
      assert Join(parts, [c]) == parts[0] + [c] + Join(rest, [c]);
      SplitAfterFirst(parts[0], c, Join(rest, [c]));
      assert [parts[0]] + rest == parts;
    }
  }

  /** Joining the pieces of a split restores the string. */
  lemma {:induction false} JoinSplit(s: string, c: char)
    ensures Join(Split(s, c), [c]) == s
    decreases |s|
  {
    if c in s {
      var i := IndexOf(s, c);
      JoinSplit(s[i + 1..], c);
      assert s == s[..i] + [c] + s[i + 1..];
    }
  }

  function Digit(d: nat): char
    requires d < 10
  {
    "0123456789"[d]
  }

  predicate IsDigit(ch: char) {
    '0' <= ch <= '9'
  }

  /** `'{:d}'.format(n)`, equivalently `'{:g}'.format(n)` for n < 10^6. */
  function NatToString(n: nat): (r: string)
    ensures |r| > 0
    ensures forall i :: 0 <= i < |r| ==> IsDigit(r[i])
    ensures |r| > 1 ==> r[0] != '0'
    decreases n
  {
    if n < 10 then [Digit(n)] else NatToString(n / 10) + [Digit(n % 10)]
  }

  /** The value of a string of decimal digits. */
  function DigitsValue(s: string): nat
    requires forall i :: 0 <= i < |s| ==> IsDigit(s[i])
    decreases |s|
  {
    if |s| == 0 then 0
    else
      assert IsDigit(s[|s| - 1]);
      DigitsValue(s[..|s| - 1]) * 10 + (s[|s| - 1] as int - '0' as int)
  }

  /** Reading the decimal rendering back gives the number. */
  lemma {:induction false} NatToStringRoundTrip(n: nat)
    ensures DigitsValue(NatToString(n)) == n
    decreases n
  {
    var s := NatToString(n);
    if n >= 10 {
      NatToStringRoundTrip(n / 10);
      assert s[..|s| - 1] == NatToString(n / 10);
    }
  }
}
