/**
  Cutting a text at blank lines, at the ends of sentences, and at a fixed length.

  The first two are what re.split does with the patterns of the evidence splitter: the
  leftmost match first, each match as long as it can be.
 */
module Splitting {
  import opened Wrappers
  import opened Text
  import opened Lines
  import opened Packing

  /** The end of the run of whitespace that starts at `i`. */
  function SpaceEnd(s: string, i: nat): (j: nat)
    requires i <= |s|
    ensures i <= j <= |s| && AllSpace(s[i..j])
    ensures j < |s| ==> !IsSpace(s[j])
    decreases |s| - i
  {
    if i < |s| && IsSpace(s[i]) then
      var j := SpaceEnd(s, i + 1);
      assert s[i..j] == [s[i]] + s[i + 1..j];
      j
    else i
  }

  /** Just after the last line feed in s[i..j], or `i` if there is none. */
  function AfterLastFeed(s: string, i: nat, j: nat): (e: nat)
    requires i <= j <= |s|
    ensures i <= e <= j
    ensures e > i ==> s[e - 1] == '\n'
    ensures forall k :: e <= k < j ==> s[k] != '\n'
    decreases j - i
  {
    if i == j then i
    else if s[j - 1] == '\n' then j
    else AfterLastFeed(s, i, j - 1)
  }

  lemma ShorterIsSpace(s: string, i: nat, j: nat, e: nat)
    requires i <= e <= j <= |s| && AllSpace(s[i..j])
    ensures AllSpace(s[i..e])
  {
    var run, part := s[i..j], s[i..e];
    forall k | 0 <= k < |part| ensures IsSpace(part[k]) {
      assert part[k] == run[k];
    }
  }

  /** Where a match of the blank-line pattern that starts at `i` ends, or `i` if there is none. */
  function GapEnd(s: string, i: nat): (e: nat)
    requires i < |s|
    ensures i <= e <= |s|
    ensures e > i ==> e > i + 1 && s[i] == '\n' && s[e - 1] == '\n' && AllSpace(s[i..e])
  {
    if s[i] != '\n' then i
    else
      var j := SpaceEnd(s, i);
      var e := AfterLastFeed(s, i + 1, j);
      ShorterIsSpace(s, i, j, e);
      if e > i + 1 then e else i
  }

  /** Splits s[from..], looking for gaps from `i` on. */
  function ParagraphsFrom(s: string, from: nat, i: nat): seq<string>
    requires from <= i <= |s|
    decreases |s| - i
  {
    if i == |s| then [s[from..]]
    else if GapEnd(s, i) > i then [s[from..i]] + ParagraphsFrom(s, GapEnd(s, i), GapEnd(s, i))
    else ParagraphsFrom(s, from, i + 1)
  }

  function Paragraphs(s: string): seq<string> {
    ParagraphsFrom(s, 0, 0)
  }

  /** The characters after which whitespace ends a sentence. */
  predicate EndsSentence(c: char) {
    c in {'.', '!', '?', '\U{3002}', '\U{FF01}', '\U{FF1F}'}
  }

  function SentencesFrom(s: string, from: nat, i: nat): seq<string>
    requires from <= i <= |s|
    decreases |s| - i
  {
    if i == |s| then [s[from..]]
    else if i > 0 && EndsSentence(s[i - 1]) && IsSpace(s[i])
    then [s[from..i]] + SentencesFrom(s, SpaceEnd(s, i), SpaceEnd(s, i))
    else SentencesFrom(s, from, i + 1)
  }

  function Sentences(s: string): seq<string> {
    Clean(SentencesFrom(Strip(s), 0, 0))
  }

  /** The last resort: pieces of a fixed length, stripped. */
  function HardSplit(s: string, max: nat): seq<string>
    requires max > 0
    decreases |s|
  {
    if s == "" then []
    else if |s| <= max then [Strip(s)]
    else [Strip(s[..max])] + HardSplit(s[max..], max)
  }

  // ----- what splitting keeps --------------------------------------------------------------

  lemma {:induction false} CleanKeepsInk(units: seq<string>)
    ensures InkAll(Clean(units)) == InkAll(units)
  {
    if units != [] {
      CleanKeepsInk(units[..|units| - 1]);
      CleanOneKeepsInk(units[|units| - 1]);
      InkAllConcat(Clean(units[..|units| - 1]), CleanOne(units[|units| - 1]));
    }
  }

  lemma CleanOneKeepsInk(unit: string)
    ensures InkAll(CleanOne(unit)) == Ink(unit)
  {
    InkStrip(unit);
    if Strip(unit) != "" {
      InkAllSnoc([], Strip(unit));
    }
  }

  lemma {:induction false} CleanKeepsRows(units: seq<string>)
    ensures RowsAll(Clean(units)) == RowsAll(units)
  {
    if units != [] {
      CleanKeepsRows(units[..|units| - 1]);
      CleanOneKeepsRows(units[|units| - 1]);
      RowsAllConcat(Clean(units[..|units| - 1]), CleanOne(units[|units| - 1]));
    }
  }

  lemma CleanOneKeepsRows(unit: string)
    ensures RowsAll(CleanOne(unit)) == Rows(unit)
  {
    RowsStrip(unit);
    RowsOfLine("");
    if Strip(unit) != "" {
      RowsAllSnoc([], Strip(unit));
    }
  }

  lemma {:induction false} RowsSpacePrefix(x: string, b: string)
    requires AllSpace(x)
    ensures Rows(x + b) == Rows(b)
  {
    if x == "" {
      assert x + b == b;
    } else {
      RowsSpacePrefix(x[1..], b);
      RowsSpaceFirst(x[0], x[1..] + b);
      Associate([x[0]], x[1..], b);
      assert x == [x[0]] + x[1..];
    }
  }

  /** A gap separates rows and holds none. */
  lemma GapKeepsRows(s: string, from: nat, i: nat, e: nat)
    requires from <= i < e <= |s| && s[i] == '\n' && AllSpace(s[i..e])
    ensures Rows(s[from..]) == Rows(s[from..i]) + Rows(s[e..])
  {
    var x, b := s[i + 1..e], s[e..];
    assert AllSpace(x) by {
      forall k | 0 <= k < |x| ensures IsSpace(x[k]) { assert x[k] == s[i..e][k + 1]; }
    }
    assert s[from..] == s[from..i] + (['\n'] + (x + b));
    RowsConcat(s[from..i], '\n', x + b);
    RowsSpacePrefix(x, b);
  }

  lemma {:induction false} ParagraphsKeepRows(s: string, from: nat, i: nat)
    requires from <= i <= |s|
    ensures RowsAll(ParagraphsFrom(s, from, i)) == Rows(s[from..])
    decreases |s| - i
  {
    if i == |s| {
      RowsAllSnoc([], s[from..]);
      assert [] + [s[from..]] == [s[from..]];
    } else if GapEnd(s, i) > i {
      var e := GapEnd(s, i);
      ParagraphsKeepRows(s, e, e);
      GapKeepsRows(s, from, i, e);
      RowsAllCons(s[from..i], ParagraphsFrom(s, e, e));
    } else {
      ParagraphsKeepRows(s, from, i + 1);
    }
  }

  /** Stripped paragraphs hold the rows of the text, in order. */
  lemma BlocksKeepRows(s: string)
    ensures RowsAll(Clean(Paragraphs(s))) == Rows(s)
  {
    ParagraphsKeepRows(s, 0, 0);
    CleanKeepsRows(Paragraphs(s));
    assert s[0..] == s;
  }

  lemma BlocksKeepInk(s: string)
    ensures InkAll(Clean(Paragraphs(s))) == Ink(s)
  {
    BlocksKeepRows(s);
    RowsAllCarryInk(Clean(Paragraphs(s)));
    RowsCarryInk(s);
  }

  lemma PartsOfTail(s: string, from: nat, i: nat, e: nat)
    requires from <= i <= e <= |s|
    ensures var t := s[from..];
            t[..i - from] == s[from..i] && t[i - from..e - from] == s[i..e] && t[e - from..] == s[e..]
  {
  }

  lemma {:induction false} SentencePiecesKeepInk(s: string, from: nat, i: nat)
    requires from <= i <= |s|
    ensures InkAll(SentencesFrom(s, from, i)) == Ink(s[from..])
    decreases |s| - i
  {
    hide Ink, InkAll, SpaceEnd, EndsSentence, IsSpace;
    if i == |s| {
      InkAllOne(s[from..]);
    } else if i > 0 && EndsSentence(s[i - 1]) && IsSpace(s[i]) {
      var e, t := SpaceEnd(s, i), s[from..];
      SentencePiecesKeepInk(s, e, e);
      PartsOfTail(s, from, i, e);
      InkOfBreak(t, i - from, e - i);
      InkAllCons(s[from..i], SentencesFrom(s, e, e));
    } else {
      SentencePiecesKeepInk(s, from, i + 1);
    }
  }

  lemma SentencesKeepInk(s: string)
    ensures InkAll(Sentences(s)) == Ink(s)
  {
    var t := Strip(s);
    InkStrip(s);
    SentencePiecesKeepInk(t, 0, 0);
    CleanKeepsInk(SentencesFrom(t, 0, 0));
    assert t[0..] == t;
  }

  lemma InkOfTwo(s: string, n: nat)
    requires n <= |s|
    ensures Ink(s) == Ink(s[..n]) + Ink(s[n..])
  {
    hide Ink;
    InkConcat(s[..n], s[n..]);
    assert s == s[..n] + s[n..];
  }

  lemma {:induction false} HardSplitFits(s: string, max: nat)
    requires max > 0
    ensures InkAll(HardSplit(s, max)) == Ink(s)
    ensures AllWithin(HardSplit(s, max), max)
    decreases |s|
  {
    if s == "" {
    } else if |s| <= max {
      hide Ink, InkAll, Strip;
      InkStrip(s);
      InkAllOne(Strip(s));
    } else {
      hide Ink, InkAll, Strip;
      HardSplitFits(s[max..], max);
      InkStrip(s[..max]);
      InkOfTwo(s, max);
      InkAllCons(Strip(s[..max]), HardSplit(s[max..], max));
    }
  }

  // ----- paragraphs are what they are called -----------------------------------------------

  /** Two line feeds with nothing but whitespace between them. */
  predicate HasGap(s: string) {
    exists i, j :: 0 <= i < j < |s| && s[i] == '\n' && s[j] == '\n' && AllSpace(s[i..j])
  }

  /** No gap starts in s[from..i] that ends before `upTo`. */
  predicate NoGapBefore(s: string, from: nat, i: nat)
    requires from <= i <= |s|
  {
    forall k :: from <= k < i ==> GapEnd(s, k) == k
  }

  lemma {:induction false} GapIsFound(s: string, i: nat, j: nat)
    requires i < j < |s| && s[i] == '\n' && s[j] == '\n' && AllSpace(s[i..j])
    ensures GapEnd(s, i) > i
  {
    forall k | i <= k <= j ensures IsSpace(s[k]) {
      if k < j {
        assert s[k] == s[i..j][k - i];
      }
    }
  }

  lemma {:induction false} PieceHasNoGap(s: string, from: nat, i: nat)
    requires from <= i <= |s| && NoGapBefore(s, from, i)
    ensures !HasGap(s[from..i])
  {
    var t := s[from..i];
    if HasGap(t) {
      var a, b :| 0 <= a < b < |t| && t[a] == '\n' && t[b] == '\n' && AllSpace(t[a..b]);
      var gap := s[from + a..from + b];
      forall k | 0 <= k < |gap| ensures IsSpace(gap[k]) {
        assert gap[k] == t[a..b][k];
      }
      GapIsFound(s, from + a, from + b);
    }
  }

  /** No paragraph has a blank line inside. */
  lemma {:induction false} ParagraphsHaveNoGap(s: string, from: nat, i: nat)
    requires from <= i <= |s| && NoGapBefore(s, from, i)
    ensures forall p :: p in ParagraphsFrom(s, from, i) ==> !HasGap(p)
    decreases |s| - i
  {
    if i == |s| {
      assert s[from..] == s[from..i];
      PieceHasNoGap(s, from, i);
    } else if GapEnd(s, i) > i {
      PieceHasNoGap(s, from, i);
      ParagraphsHaveNoGap(s, GapEnd(s, i), GapEnd(s, i));
    } else {
      ParagraphsHaveNoGap(s, from, i + 1);
    }
  }
}
