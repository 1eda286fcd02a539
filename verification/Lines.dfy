/**
  Texts as lines. `Rows` is the second yardstick for a splitter: the lines of a text that say
  something, stripped, in order. A splitter that keeps the rows has cut no line in two.
 */
module Lines {
  import opened Wrappers
  import opened Text

  /** Where the first line ends. */
  function LineEnd(s: string): (n: nat)
    ensures n <= |s| && NoBreak(s[..n])
    ensures n < |s| ==> IsBreak(s[n])
  {
    if s == "" || IsBreak(s[0]) then 0
    else
      var n := LineEnd(s[1..]);
      assert s[..n + 1] == [s[0]] + s[1..][..n];
      n + 1
  }

  /** A carriage return and a line feed are one line break. */
  function BreakLength(s: string, n: nat): (k: nat)
    requires n < |s|
    ensures 1 <= k <= 2 && n + k <= |s|
  {
    if s[n] == '\r' && n + 1 < |s| && s[n + 1] == '\n' then 2 else 1
  }

  /** str.splitlines() */
  function SplitLines(s: string): (lines: seq<string>)
    ensures forall i :: 0 <= i < |lines| ==> NoBreak(lines[i])
    decreases |s|
  {
    if s == "" then []
    else
      var n := LineEnd(s);
      if n == |s| then [s]
      else [s[..n]] + SplitLines(s[n + BreakLength(s, n)..])
  }

  /** "\n".join(lines) */
  function JoinLines(lines: seq<string>): string {
    if lines == [] then ""
    else if |lines| == 1 then lines[0]
    else lines[0] + "\n" + JoinLines(lines[1..])
  }

  // ----- ink of many texts -----------------------------------------------------------------

  function InkAll(texts: seq<string>): string {
    if texts == [] then "" else InkAll(texts[..|texts| - 1]) + Ink(texts[|texts| - 1])
  }

  lemma InkAllSnoc(a: seq<string>, s: string)
    ensures InkAll(a + [s]) == InkAll(a) + Ink(s)
  {
    assert (a + [s])[..|a|] == a;
  }

  lemma {:induction false} InkAllConcat(a: seq<string>, b: seq<string>)
    ensures InkAll(a + b) == InkAll(a) + InkAll(b)
    decreases |b|
  {
    if b == [] {
      assert a + b == a;
    } else {
      hide Ink, InkAll;
      var init, last := b[..|b| - 1], b[|b| - 1];
      InkAllConcat(a, init);
      assert b == init + [last];
      Associate(a, init, [last]);
      InkAllSnoc(a + init, last);
      InkAllSnoc(init, last);
      Associate(InkAll(a), InkAll(init), Ink(last));
    }
  }

  lemma InkAllOne(s: string)
    ensures InkAll([s]) == Ink(s)
  {
    InkAllSnoc([], s);
    assert [] + [s] == [s];
  }

  lemma InkAround(a: string, gap: string, b: string)
    requires AllSpace(gap)
    ensures Ink(a + (gap + b)) == Ink(a) + Ink(b)
  {
    InkConcat(a, gap + b);
    InkConcat(gap, b);
    InkOfSpace(gap);
  }

  lemma ThreeParts(s: string, n: nat, m: nat)
    requires n <= m <= |s|
    ensures s == s[..n] + (s[n..m] + s[m..])
  {
  }

  lemma InkOfBreak(s: string, n: nat, k: nat)
    requires n + k <= |s| && AllSpace(s[n..n + k])
    ensures Ink(s) == Ink(s[..n]) + Ink(s[n + k..])
  {
    ThreeParts(s, n, n + k);
    InkAround(s[..n], s[n..n + k], s[n + k..]);
  }

  lemma InkAllCons(s: string, b: seq<string>)
    ensures InkAll([s] + b) == Ink(s) + InkAll(b)
  {
    InkAllConcat([s], b);
    assert InkAll([s]) == Ink(s) by { InkAllSnoc([], s); assert [] + [s] == [s]; }
  }

  lemma {:induction false} InkSplitLines(s: string)
    ensures InkAll(SplitLines(s)) == Ink(s)
    decreases |s|
  {
    if s != "" {
      hide Ink, InkAll, LineEnd, BreakLength;
      var n := LineEnd(s);
      if n == |s| {
        InkAllOne(s);
      } else {
        var k := BreakLength(s, n);
        BreakIsSpace(s, n);
        InkSplitLines(s[n + k..]);
        InkOfBreak(s, n, k);
        InkAllCons(s[..n], SplitLines(s[n + k..]));
      }
    }
  }

  lemma {:induction false} BreakIsSpace(s: string, n: nat)
    requires n < |s| && IsBreak(s[n])
    ensures AllSpace(s[n..n + BreakLength(s, n)])
  {
  }

  // ----- rows ------------------------------------------------------------------------------

  /** The row of one line: nothing if it is blank. */
  function RowOf(line: string): seq<string> {
    if Blank(line) then [] else [Strip(line)]
  }

  function Rows(s: string): seq<string>
    decreases |s|
  {
    var n := LineEnd(s);
    if n == |s| then RowOf(s) else RowOf(s[..n]) + Rows(s[n + 1..])
  }

  function RowsAll(texts: seq<string>): seq<string> {
    if texts == [] then [] else RowsAll(texts[..|texts| - 1]) + Rows(texts[|texts| - 1])
  }

  lemma RowsAllSnoc(a: seq<string>, s: string)
    ensures RowsAll(a + [s]) == RowsAll(a) + Rows(s)
  {
    assert (a + [s])[..|a|] == a;
  }

  lemma {:induction false} RowsAllConcat(a: seq<string>, b: seq<string>)
    ensures RowsAll(a + b) == RowsAll(a) + RowsAll(b)
    decreases |b|
  {
    hide Rows;
    if b == [] {
      assert a + b == a;
    } else {
      var init, last := b[..|b| - 1], b[|b| - 1];
      RowsAllConcat(a, init);
      assert b == init + [last];
      RowsAllStep(a, init, last);
    }
  }

  lemma RowsAllStep(a: seq<string>, init: seq<string>, last: string)
    requires RowsAll(a + init) == RowsAll(a) + RowsAll(init)
    ensures RowsAll(a + (init + [last])) == RowsAll(a) + RowsAll(init + [last])
  {
    hide Rows, RowsAll;
    Associate(a, init, [last]);
    RowsAllSnoc(a + init, last);
    RowsAllSnoc(init, last);
    Associate(RowsAll(a), RowsAll(init), Rows(last));
  }

  lemma RowsAllCons(s: string, b: seq<string>)
    ensures RowsAll([s] + b) == Rows(s) + RowsAll(b)
  {
    RowsAllConcat([s], b);
    assert RowsAll([s]) == Rows(s) by { RowsAllSnoc([], s); assert [] + [s] == [s]; }
  }

  lemma {:induction false} LineEndIs(s: string, n: nat)
    requires n <= |s| && NoBreak(s[..n]) && (n < |s| ==> IsBreak(s[n]))
    ensures LineEnd(s) == n
  {
    if n > 0 {
      assert s[..n][0] == s[0];
      assert s[1..][..n - 1] == s[..n][1..];
      LineEndIs(s[1..], n - 1);
    }
  }

  lemma RowsOfLine(line: string)
    requires NoBreak(line)
    ensures Rows(line) == RowOf(line)
  {
    assert line[..|line|] == line;
    LineEndIs(line, |line|);
  }

  lemma RowsSplit(s: string, n: nat)
    requires n < |s| && NoBreak(s[..n]) && IsBreak(s[n])
    ensures Rows(s) == RowOf(s[..n]) + Rows(s[n + 1..])
  {
    LineEndIs(s, n);
  }

  lemma AroundBreak(a: string, c: char, b: string, n: nat)
    requires n <= |a|
    ensures var s := a + ([c] + b);
            && s[..n] == a[..n]
            && (if n == |a| then s[n] == c && s[n + 1..] == b
                else s[n] == a[n] && s[n + 1..] == a[n + 1..] + ([c] + b))
  {
  }

  /** Rows are counted line by line. */
  lemma {:induction false} RowsConcat(a: string, c: char, b: string)
    requires IsBreak(c)
    ensures Rows(a + ([c] + b)) == Rows(a) + Rows(b)
    decreases |a|
  {
    var n := LineEnd(a);
    AroundBreak(a, c, b, n);
    RowsSplit(a + ([c] + b), n);
    if n == |a| {
      assert a[..n] == a;
      RowsOfLine(a);
    } else {
      RowsConcat(a[n + 1..], c, b);
      RowsSplit(a, n);
      Associate(RowOf(a[..n]), Rows(a[n + 1..]), Rows(b));
    }
  }

  lemma {:induction false} RowsOfSpace(s: string)
    requires AllSpace(s)
    ensures Rows(s) == []
    decreases |s|
  {
    var n := LineEnd(s);
    if n < |s| {
      RowsOfSpace(s[n + 1..]);
    }
  }

  lemma LStripSpaceFirst(c: char, s: string)
    requires IsSpace(c)
    ensures LStrip([c] + s) == LStrip(s)
  {
    assert ([c] + s)[1..] == s;
  }

  lemma BlankSpaceFirst(c: char, s: string)
    requires IsSpace(c)
    ensures Blank([c] + s) <==> Blank(s)
  {
    var t := [c] + s;
    if Blank(t) {
      forall i | 0 <= i < |s| ensures IsSpace(s[i]) { assert t[i + 1] == s[i]; }
    }
  }

  lemma RowOfSpaceFirst(c: char, s: string)
    requires IsSpace(c)
    ensures RowOf([c] + s) == RowOf(s)
  {
    LStripSpaceFirst(c, s);
    BlankSpaceFirst(c, s);
  }

  lemma AfterFirst(c: char, s: string, n: nat)
    requires n <= |s|
    ensures ([c] + s)[..n + 1] == [c] + s[..n]
    ensures n < |s| ==> ([c] + s)[n + 1] == s[n] && ([c] + s)[n + 2..] == s[n + 1..]
  {
  }

  lemma RowsBlankFirst(c: char, s: string)
    requires IsSpace(c) && !IsBreak(c)
    ensures Rows([c] + s) == Rows(s)
  {
    var n := LineEnd(s);
    RowOfSpaceFirst(c, s[..n]);
    AfterFirst(c, s, n);
    if n == |s| {
      assert s[..n] == s;
      RowsOfLine(s);
      RowsOfLine([c] + s);
    } else {
      RowsSplit(s, n);
      RowsSplit([c] + s, n + 1);
    }
  }

  lemma RowsSpaceFirst(c: char, s: string)
    requires IsSpace(c)
    ensures Rows([c] + s) == Rows(s)
  {
    if IsBreak(c) {
      assert "" + ([c] + s) == [c] + s;
      RowsConcat("", c, s);
      RowsOfLine("");
    } else {
      RowsBlankFirst(c, s);
    }
  }

  lemma {:induction false} RowsLStrip(s: string)
    ensures Rows(LStrip(s)) == Rows(s)
  {
    if s != "" && IsSpace(s[0]) {
      RowsLStrip(s[1..]);
      RowsSpaceFirst(s[0], s[1..]);
      assert s == [s[0]] + s[1..];
    }
  }

  lemma LStripFirst(c: char, s: string)
    ensures LStrip([c] + s) == if IsSpace(c) then LStrip(s) else [c] + s
  {
    assert ([c] + s)[1..] == s;
  }

  lemma {:induction false} LStripSnoc(s: string, c: char)
    ensures LStrip(s) != "" ==> LStrip(s + [c]) == LStrip(s) + [c]
  {
    if s != "" {
      hide LStrip, IsSpace;
      var rest := s[1..];
      LStripSnoc(rest, c);
      LStripFirst(s[0], rest);
      LStripFirst(s[0], rest + [c]);
      assert s == [s[0]] + rest;
      Associate([s[0]], rest, [c]);
    }
  }

  lemma RStripSpaceLast(s: string, c: char)
    requires IsSpace(c)
    ensures RStrip(s + [c]) == RStrip(s)
  {
    assert (s + [c])[..|s|] == s;
  }

  lemma RowOfSpaceLast(s: string, c: char)
    requires IsSpace(c)
    ensures RowOf(s + [c]) == RowOf(s)
  {
    if AllSpace(s) {
      assert AllSpace(s + [c]);
    } else {
      var i :| 0 <= i < |s| && !IsSpace(s[i]);
      assert !IsSpace((s + [c])[i]);
      BlankIsStrippedEmpty(s);
      LStripSnoc(s, c);
      RStripSpaceLast(LStrip(s), c);
    }
  }

  lemma {:induction false} RowsSnoc(s: string, c: char)
    requires IsSpace(c)
    ensures Rows(s + [c]) == Rows(s)
    decreases |s|
  {
    var t, n := s + [c], LineEnd(s);
    if IsBreak(c) {
      assert s + ([c] + "") == t;
      RowsConcat(s, c, "");
      RowsOfLine("");
    } else if n == |s| {
      assert s[..n] == s;
      RowsOfLine(s);
      RowsOfLine(t);
      RowOfSpaceLast(s, c);
    } else {
      assert t[..n] == s[..n] && t[n + 1..] == s[n + 1..] + [c];
      RowsSplit(s, n);
      RowsSplit(t, n);
      RowsSnoc(s[n + 1..], c);
    }
  }

  lemma {:induction false} RowsRStrip(s: string)
    ensures Rows(RStrip(s)) == Rows(s)
  {
    if s != "" && IsSpace(s[|s| - 1]) {
      var init, last := s[..|s| - 1], s[|s| - 1];
      RowsRStrip(init);
      RowsSnoc(init, last);
      RStripSpaceLast(init, last);
      assert s == init + [last];
    }
  }

  /** Stripping a text keeps its rows. */
  lemma RowsStrip(s: string)
    ensures Rows(Strip(s)) == Rows(s)
  {
    RowsLStrip(s);
    RowsRStrip(LStrip(s));
  }

  /** A carriage return before a line feed adds no row. */
  lemma RowsBreakFirst(s: string)
    requires s != "" && IsBreak(s[0])
    ensures Rows(s) == Rows(s[1..])
  {
    RowsSpaceFirst(s[0], s[1..]);
    assert s == [s[0]] + s[1..];
  }

  lemma {:induction false} RowsAfterBreak(s: string, n: nat, k: nat)
    requires n < |s| && NoBreak(s[..n]) && IsBreak(s[n]) && k == BreakLength(s, n)
    ensures Rows(s) == RowOf(s[..n]) + Rows(s[n + k..])
  {
    RowsSplit(s, n);
    if k == 2 {
      RowsBreakFirst(s[n + 1..]);
      assert s[n + 1..][1..] == s[n + 2..];
    }
  }

  /** The rows of a text are the rows of its lines. */
  lemma {:induction false} RowsSplitLines(s: string)
    ensures RowsAll(SplitLines(s)) == Rows(s)
    decreases |s|
  {
    if s != "" {
      var n := LineEnd(s);
      if n == |s| {
        assert [] + [s] == [s];
        RowsAllSnoc([], s);
      } else {
        var k := BreakLength(s, n);
        var rest := s[n + k..];
        RowsSplitLines(rest);
        RowsAfterBreak(s, n, k);
        RowsOfLine(s[..n]);
        RowsAllCons(s[..n], SplitLines(rest));
      }
    }
  }

  lemma {:induction false} RowsJoinLines(lines: seq<string>)
    ensures Rows(JoinLines(lines)) == RowsAll(lines)
  {
    if lines == [] {
      RowsOfLine("");
    } else if |lines| == 1 {
      RowsAllSnoc([], lines[0]);
      assert lines == [] + [lines[0]];
    } else {
      var rest := JoinLines(lines[1..]);
      RowsJoinLines(lines[1..]);
      RowsConcat(lines[0], '\n', rest);
      RowsAllCons(lines[0], lines[1..]);
      assert lines == [lines[0]] + lines[1..];
      Associate(lines[0], "\n", rest);
    }
  }

  lemma {:induction false} InkJoinLines(lines: seq<string>)
    ensures Ink(JoinLines(lines)) == InkAll(lines)
  {
    if lines == [] {
    } else if |lines| == 1 {
      InkAllSnoc([], lines[0]);
      assert lines == [lines[0]];
    } else {
      InkJoinLines(lines[1..]);
      InkConcat(lines[0], "\n" + JoinLines(lines[1..]));
      InkConcat("\n", JoinLines(lines[1..]));
      assert lines[0] + ("\n" + JoinLines(lines[1..])) == JoinLines(lines);
      InkAllSnoc([], lines[0]);
      InkAllConcat([lines[0]], lines[1..]);
      assert lines == [lines[0]] + lines[1..];
    }
  }

  /** What keeps the rows keeps the ink. */
  lemma {:induction false} RowsCarryInk(s: string)
    ensures InkAll(Rows(s)) == Ink(s)
    decreases |s|
  {
    hide Ink, InkAll, RowOf;
    var n := LineEnd(s);
    if n == |s| {
      RowCarriesInk(s);
    } else {
      RowsCarryInk(s[n + 1..]);
      RowCarriesInk(s[..n]);
      InkAllConcat(RowOf(s[..n]), Rows(s[n + 1..]));
      InkOfBreak(s, n, 1);
    }
  }

  lemma RowCarriesInk(line: string)
    ensures InkAll(RowOf(line)) == Ink(line)
  {
    if Blank(line) {
      InkOfSpace(line);
    } else {
      InkStrip(line);
      InkAllSnoc([], Strip(line));
    }
  }

  lemma {:induction false} RowsAllCarryInk(texts: seq<string>)
    ensures InkAll(RowsAll(texts)) == InkAll(texts)
  {
    if texts != [] {
      RowsAllCarryInk(texts[..|texts| - 1]);
      RowsCarryInk(texts[|texts| - 1]);
      InkAllConcat(RowsAll(texts[..|texts| - 1]), Rows(texts[|texts| - 1]));
    }
  }

  // ----- fields ----------------------------------------------------------------------------

  /** The field of one line: nothing if it is empty. */
  function FieldOf(line: string): seq<string> {
    if line == "" then [] else [line]
  }

  /** The lines of a text that are not empty: what lies between two line breaks. */
  function Fields(s: string): (fields: seq<string>)
    ensures forall i :: 0 <= i < |fields| ==> fields[i] != "" && NoBreak(fields[i])
    decreases |s|
  {
    var n := LineEnd(s);
    if n == |s| then FieldOf(s) else FieldOf(s[..n]) + Fields(s[n + 1..])
  }

  lemma FieldsOfLine(line: string)
    requires NoBreak(line)
    ensures Fields(line) == FieldOf(line)
  {
    assert line[..|line|] == line;
    LineEndIs(line, |line|);
  }

  lemma FieldsSplit(s: string, n: nat)
    requires n < |s| && NoBreak(s[..n]) && IsBreak(s[n])
    ensures Fields(s) == FieldOf(s[..n]) + Fields(s[n + 1..])
  {
    LineEndIs(s, n);
  }

  /** Fields are counted line by line. */
  lemma {:induction false} FieldsConcat(a: string, c: char, b: string)
    requires IsBreak(c)
    ensures Fields(a + ([c] + b)) == Fields(a) + Fields(b)
    decreases |a|
  {
    var n := LineEnd(a);
    AroundBreak(a, c, b, n);
    FieldsSplit(a + ([c] + b), n);
    if n == |a| {
      assert a[..n] == a;
      FieldsOfLine(a);
    } else {
      FieldsConcat(a[n + 1..], c, b);
      FieldsSplit(a, n);
      Associate(FieldOf(a[..n]), Fields(a[n + 1..]), Fields(b));
    }
  }

  lemma FieldsAfterBreak(c: char, s: string)
    requires IsBreak(c)
    ensures Fields([c] + s) == Fields(s)
  {
    FieldsConcat("", c, s);
    FieldsOfLine("");
    assert "" + ([c] + s) == [c] + s;
  }

  /** The first line of a text. */
  function Head(s: string): string {
    s[..LineEnd(s)]
  }

  /** The fields after the first line. */
  function LaterFields(s: string): seq<string> {
    var n := LineEnd(s);
    if n == |s| then [] else Fields(s[n + 1..])
  }

  lemma FieldsOfHead(s: string)
    ensures Fields(s) == FieldOf(Head(s)) + LaterFields(s)
  {
    assert s[..|s|] == s;
  }

  lemma AfterPrefix(prefix: string, s: string, n: nat)
    requires n <= |s|
    ensures (prefix + s)[..|prefix| + n] == prefix + s[..n]
    ensures n < |s| ==> (prefix + s)[|prefix| + n] == s[n] && (prefix + s)[|prefix| + n + 1..] == s[n + 1..]
  {
  }

  lemma NoBreakConcat(a: string, b: string)
    requires NoBreak(a) && NoBreak(b)
    ensures NoBreak(a + b)
  {
  }

  lemma FirstField(t: string, line: string, rest: string)
    requires |line| < |t| && t[..|line|] == line && NoBreak(line) && line != ""
    requires IsBreak(t[|line|]) && t[|line| + 1..] == rest
    ensures Fields(t) == [line] + Fields(rest)
  {
    FieldsSplit(t, |line|);
  }

  lemma OnlyField(line: string)
    requires NoBreak(line) && line != ""
    ensures Fields(line) == [line]
  {
    FieldsOfLine(line);
  }

  /** What precedes a text without a break goes with its first line. */
  lemma PrefixedFields(prefix: string, s: string)
    requires NoBreak(prefix) && prefix != ""
    ensures Fields(prefix + s) == [prefix + Head(s)] + LaterFields(s)
  {
    var n := LineEnd(s);
    AfterPrefix(prefix, s, n);
    NoBreakConcat(prefix, s[..n]);
    if n == |s| {
      assert s[..n] == s;
      OnlyField(prefix + s);
    } else {
      FirstField(prefix + s, prefix + s[..n], s[n + 1..]);
    }
  }

  /** A text and the same text with another first character, neither of them a break. */
  lemma FieldsCons(c: char, s: string)
    requires !IsBreak(c)
    ensures Fields([c] + s) == [[c] + Head(s)] + LaterFields(s)
  {
    PrefixedFields([c], s);
  }
}
