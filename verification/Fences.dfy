/**
  Fenced code, line by line: which lines are inside a fence, which blank lines separate blocks,
  and that a fence is never cut as long as its block fits.
 */
module Fences {
  import opened Wrappers
  import opened Text
  import opened Lines
  import opened Packing
  import opened CodeChunking
  import opened Chunking

  // ----- fences and separators ---------------------------------------------------------------

  predicate IsFence(line: string) {
    StartsWith(Strip(line), "```")
  }

  function FencesIn(lines: seq<string>): nat {
    if lines == [] then 0
    else FencesIn(lines[..|lines| - 1]) + if IsFence(lines[|lines| - 1]) then 1 else 0
  }

  /** An odd number of fence lines comes before this line: a fence is open. */
  predicate Inside(lines: seq<string>, k: nat)
    requires k <= |lines|
  {
    FencesIn(lines[..k]) % 2 == 1
  }

  /** A blank line outside all fences. */
  predicate Separates(lines: seq<string>, k: nat)
    requires k < |lines|
  {
    Blank(lines[k]) && !Inside(lines, k)
  }

  lemma InsideNext(lines: seq<string>, k: nat)
    requires k < |lines|
    ensures Inside(lines, k + 1) <==> (Inside(lines, k) != IsFence(lines[k]))
  {
    assert lines[..k + 1][..k] == lines[..k];
  }

  // ----- runs --------------------------------------------------------------------------------

  /** Consecutive lines, the first included, the last not. */
  datatype Run = Run(from: nat, to: nat)

  predicate Covers(r: Run, k: nat) {
    r.from <= k < r.to
  }

  predicate IsCovered(runs: seq<Run>, k: nat) {
    exists i :: 0 <= i < |runs| && Covers(runs[i], k)
  }

  /** Lines that belong together: no separator among them, and the first says something. */
  predicate IsRun(lines: seq<string>, r: Run) {
    && r.from < r.to <= |lines| && !Blank(lines[r.from])
    && forall k :: r.from <= k < r.to ==> !Separates(lines, k)
  }

  /** Runs in order, not touching, and up to `n` nothing between them but separators. */
  predicate AreRuns(lines: seq<string>, runs: seq<Run>, n: nat)
    requires n <= |lines|
  {
    && (forall i :: 0 <= i < |runs| ==> IsRun(lines, runs[i]) && runs[i].to <= n)
    && (forall i, j :: 0 <= i < j < |runs| ==> runs[i].to < runs[j].from)
    && (forall k :: 0 <= k < n ==> Separates(lines, k) || IsCovered(runs, k))
  }

  /** The lines without their trailing whitespace. */
  function Stripped(lines: seq<string>): (r: seq<string>)
    ensures |r| == |lines|
    ensures forall i :: 0 <= i < |r| ==> r[i] == RStrip(lines[i])
  {
    seq(|lines|, i requires 0 <= i < |lines| => RStrip(lines[i]))
  }

  function BlockText(lines: seq<string>, r: Run): string {
    if r.from <= r.to <= |lines| then Strip(JoinLines(Stripped(lines[r.from..r.to]))) else ""
  }

  function BlockTexts(lines: seq<string>, runs: seq<Run>): (texts: seq<string>)
    ensures |texts| == |runs|
    ensures forall i :: 0 <= i < |texts| ==> texts[i] == BlockText(lines, runs[i])
  {
    seq(|runs|, i requires 0 <= i < |runs| => BlockText(lines, runs[i]))
  }

  lemma AnotherRun(lines: seq<string>, runs: seq<Run>, from: nat, n: nat)
    requires from < n < |lines| && Separates(lines, n) && IsRun(lines, Run(from, n))
    requires AreRuns(lines, runs, from) && forall i :: 0 <= i < |runs| ==> runs[i].to < from
    ensures AreRuns(lines, runs + [Run(from, n)], n + 1)
    ensures BlockTexts(lines, runs + [Run(from, n)]) == BlockTexts(lines, runs) + [BlockText(lines, Run(from, n))]
  {
    hide Separates, IsRun;
    var runs' := runs + [Run(from, n)];
    forall k | 0 <= k <= n ensures Separates(lines, k) || IsCovered(runs', k) {
      Recovered(lines, runs, from, n, k);
    }
  }

  lemma Recovered(lines: seq<string>, runs: seq<Run>, from: nat, to: nat, k: nat)
    requires from <= |lines| && AreRuns(lines, runs, from) && k < |lines|
    requires k < to || Separates(lines, k)
    ensures Separates(lines, k) || IsCovered(runs + [Run(from, to)], k)
  {
    hide Separates, IsRun;
    var runs' := runs + [Run(from, to)];
    if k < from {
      if IsCovered(runs, k) {
        var i :| 0 <= i < |runs| && Covers(runs[i], k);
        assert Covers(runs'[i], k);
      }
    } else if k < to {
      assert Covers(runs'[|runs|], k);
    }
  }

  // ----- the scan finds the runs ---------------------------------------------------------------

  /** How far the scan has come after `n` lines: the closed runs, and where the open one began. */
  predicate Scanned(lines: seq<string>, n: nat, p: FencePile, runs: seq<Run>, from: nat, lead: seq<string>) {
    && from <= n <= |lines|
    && (p.inFence <==> Inside(lines, n))
    && NonEmpty(p.blocks) == BlockTexts(lines, runs)
    && (lead == [] || lead == [""])
    && p.current == lead + Stripped(lines[from..n])
    && AreRuns(lines, runs, from)
    && (forall i :: 0 <= i < |runs| ==> runs[i].to < from)
    && (if from < n then IsRun(lines, Run(from, n)) else !Inside(lines, n))
  }

  lemma NonEmptySnoc(blocks: seq<string>, block: string)
    ensures NonEmpty(blocks + [block]) == NonEmpty(blocks) + Kept(block)
  {
    assert (blocks + [block])[..|blocks|] == blocks;
  }

  lemma LeadingBlankIsStripped(lead: seq<string>, lines: seq<string>)
    requires lead == [] || lead == [""]
    ensures Strip(JoinLines(lead + lines)) == Strip(JoinLines(lines))
  {
    if lead == [] {
      assert lead + lines == lines;
    } else if lines != [] {
      var all := lead + lines;
      assert all[0] == "" && all[1..] == lines;
      assert "" + "\n" + JoinLines(lines) == ['\n'] + JoinLines(lines);
      LStripSpaceFirst('\n', JoinLines(lines));
    } else {
      assert lead + lines == [""];
    }
  }

  lemma RunSaysSomething(lines: seq<string>, r: Run)
    requires IsRun(lines, r)
    ensures BlockText(lines, r) != ""
  {
    var part := lines[r.from..r.to];
    var texts := Stripped(part);
    var first := texts[0];
    InkRStrip(part[0]);
    InkOfSpace(part[0]);
    InkStrip(JoinLines(texts));
    InkJoinLines(texts);
    assert texts == [first] + texts[1..];
    InkAllCons(first, texts[1..]);
    assert Ink("") == "";
  }

  lemma StrippedSnoc(lines: seq<string>, from: nat, n: nat)
    requires from <= n < |lines|
    ensures Stripped(lines[from..n + 1]) == Stripped(lines[from..n]) + [RStrip(lines[n])]
  {
  }

  /** A line that does not separate joins the current run, or begins one. */
  lemma LineJoins(
    lines: seq<string>, n: nat, p: FencePile, runs: seq<Run>, from: nat, lead: seq<string>)
    requires n < |lines| && Scanned(lines, n, p, runs, from, lead) && !Separates(lines, n)
    ensures Scanned(lines, n + 1, AddFenceLine(p, lines[n]), runs, from, lead)
  {
    hide AreRuns, NonEmpty, BlockTexts, Inside, Stripped, RStrip, Blank;
    InsideNext(lines, n);
    BlankIsStrippedEmpty(lines[n]);
    StrippedSnoc(lines, from, n);
    Associate(lead, Stripped(lines[from..n]), [RStrip(lines[n])]);
    assert forall k :: from <= k < n + 1 ==> !Separates(lines, k);
  }

  /** A separator ends the current run, if there is one. */
  lemma SeparatorEnds(
    lines: seq<string>, n: nat, p: FencePile, runs: seq<Run>, from: nat, lead: seq<string>)
    returns (runs': seq<Run>, lead': seq<string>)
    requires n < |lines| && Scanned(lines, n, p, runs, from, lead) && Separates(lines, n)
    ensures Scanned(lines, n + 1, AddFenceLine(p, lines[n]), runs', n + 1, lead')
  {
    InsideNext(lines, n);
    BlankIsStrippedEmpty(lines[n]);
    assert lines[n + 1..n + 1] == [];
    NonEmptySnoc(p.blocks, Strip(JoinLines(p.current)));
    LeadingBlankIsStripped(lead, Stripped(lines[from..n]));
    runs' := runs;
    lead' := [];
    if from < n {
      RunSaysSomething(lines, Run(from, n));
      AnotherRun(lines, runs, from, n);
      runs' := runs + [Run(from, n)];
    } else {
      SeparatorsOnly(lines, runs, n);
      if lead == [] {
        RStripBlank(lines[n]);
        lead' := [""];
      }
    }
  }

  lemma RStripBlank(line: string)
    requires Blank(line)
    ensures RStrip(line) == ""
  {
    InkRStrip(line);
    InkOfSpace(line);
    InkOfSpace(RStrip(line));
  }

  lemma SeparatorsOnly(lines: seq<string>, runs: seq<Run>, n: nat)
    requires n < |lines| && Separates(lines, n) && AreRuns(lines, runs, n)
    ensures AreRuns(lines, runs, n + 1)
  {
  }

  lemma {:induction false} ScanFindsRuns(lines: seq<string>, n: nat)
    returns (runs: seq<Run>, from: nat, lead: seq<string>)
    requires n <= |lines|
    ensures Scanned(lines, n, AddFenceLines(lines[..n]), runs, from, lead)
  {
    hide Scanned, AddFenceLine, Separates;
    if n == 0 {
      runs, from, lead := [], 0, [];
      NothingScanned(lines);
    } else {
      runs, from, lead := ScanFindsRuns(lines, n - 1);
      var p := AddFenceLines(lines[..n - 1]);
      assert lines[..n][..n - 1] == lines[..n - 1];
      if Separates(lines, n - 1) {
        runs, lead := SeparatorEnds(lines, n - 1, p, runs, from, lead);
        from := n;
      } else {
        LineJoins(lines, n - 1, p, runs, from, lead);
      }
    }
  }

  lemma NothingScanned(lines: seq<string>)
    ensures Scanned(lines, 0, AddFenceLines(lines[..0]), [], 0, [])
  {
    assert lines[..0] == [];
  }

  /**
    The blocks of a fenced text are its runs: consecutive lines, as many as there are between
    two blank lines outside fences; nothing but such blank lines is left out.
   */
  lemma BlocksAreRuns(lines: seq<string>) returns (runs: seq<Run>)
    ensures AreRuns(lines, runs, |lines|)
    ensures NonEmpty(FlushFence(AddFenceLines(lines))) == BlockTexts(lines, runs)
  {
    var n, p := |lines|, AddFenceLines(lines);
    var closed, from, lead := ScanFindsRuns(lines, n);
    assert lines[..n] == lines;
    runs := closed;
    NonEmptySnoc(p.blocks, Strip(JoinLines(p.current)));
    LeadingBlankIsStripped(lead, Stripped(lines[from..n]));
    if from < n {
      RunSaysSomething(lines, Run(from, n));
      LastRun(lines, closed, from, n);
      runs := closed + [Run(from, n)];
    }
  }

  lemma LastRun(lines: seq<string>, runs: seq<Run>, from: nat, n: nat)
    requires from < n == |lines| && IsRun(lines, Run(from, n))
    requires AreRuns(lines, runs, from) && forall i :: 0 <= i < |runs| ==> runs[i].to < from
    ensures AreRuns(lines, runs + [Run(from, n)], n)
    ensures BlockTexts(lines, runs + [Run(from, n)]) == BlockTexts(lines, runs) + [BlockText(lines, Run(from, n))]
  {
    hide Separates, IsRun;
    var runs' := runs + [Run(from, n)];
    forall k | 0 <= k < n ensures Separates(lines, k) || IsCovered(runs', k) {
      Recovered(lines, runs, from, n, k);
    }
  }

  // ----- a fence lies in one run ---------------------------------------------------------------

  /** A fence from the line that opens it to the line that closes it. */
  predicate IsFenced(lines: seq<string>, a: nat, b: nat) {
    && a < b < |lines| && IsFence(lines[a]) && IsFence(lines[b]) && !Inside(lines, a)
    && forall k :: a < k < b ==> !IsFence(lines[k])
  }

  lemma {:induction false} InsideFence(lines: seq<string>, a: nat, b: nat, k: nat)
    requires IsFenced(lines, a, b) && a < k <= b
    ensures Inside(lines, k)
  {
    hide Inside, IsFence;
    InsideNext(lines, k - 1);
    if k > a + 1 {
      InsideFence(lines, a, b, k - 1);
    }
  }

  lemma FenceHasNoSeparator(lines: seq<string>, a: nat, b: nat, k: nat)
    requires IsFenced(lines, a, b) && a <= k <= b
    ensures !Separates(lines, k)
  {
    if k == a {
      BlankIsStrippedEmpty(lines[a]);
    } else {
      InsideFence(lines, a, b, k);
    }
  }

  /** A run ends at a separator or with the lines. */
  lemma RunEnds(lines: seq<string>, runs: seq<Run>, i: nat)
    requires AreRuns(lines, runs, |lines|) && i < |runs| && runs[i].to < |lines|
    ensures Separates(lines, runs[i].to)
  {
    assert IsRun(lines, runs[i]);
    forall j | 0 <= j < |runs| ensures !Covers(runs[j], runs[i].to) {
      assert IsRun(lines, runs[j]);
    }
  }

  lemma FenceLiesInRun(lines: seq<string>, runs: seq<Run>, a: nat, b: nat) returns (i: nat)
    requires AreRuns(lines, runs, |lines|) && IsFenced(lines, a, b)
    ensures i < |runs| && runs[i].from <= a && b < runs[i].to
  {
    FenceHasNoSeparator(lines, a, b, a);
    i :| 0 <= i < |runs| && Covers(runs[i], a);
    if runs[i].to <= b {
      RunEnds(lines, runs, i);
      FenceHasNoSeparator(lines, a, b, runs[i].to);
    }
  }

  // ----- a fence is not cut --------------------------------------------------------------------

  lemma {:induction false} SmallBlocksSurvive(blocks: seq<string>, max: nat, block: string)
    requires max > 0 && block in blocks && |block| <= max
    ensures Strip(block) in UnitsOfCodeBlocks(blocks, max)
  {
    if block != blocks[|blocks| - 1] {
      SmallBlocksSurvive(blocks[..|blocks| - 1], max, block);
    }
  }

  lemma StripTwice(s: string)
    ensures Strip(Strip(s)) == Strip(s)
  {
    StripTrims(s);
    TrimmedIsStripped(Strip(s));
  }

  /**
    Fences stay together. The lines from the one that opens a fence to the one that closes it
    belong to one block, which ends at a blank line outside fences or with the text; and a
    block that fits lies, whole, in the group of one part.
   */
  lemma FencesStayTogether(text: string, max: nat, a: nat, b: nat)
    returns (r: Run, groups: seq<seq<string>>, k: nat)
    requires max > 0 && IsFenced(SplitLines(Strip(text)), a, b)
    ensures var lines := SplitLines(Strip(text));
            && IsRun(lines, r) && r.from <= a && b < r.to
            && (r.to < |lines| ==> Separates(lines, r.to))
            && BlockText(lines, r) in CodeBlocks(text)
            && Greedy(SplitFencedText(text, max), groups, max, PARAGRAPH)
            && (|BlockText(lines, r)| <= max ==> k < |groups| && BlockText(lines, r) in groups[k])
  {
    hide SplitLines, Inside, AddFenceLines, NonEmpty, FlushFence, AreRuns, Greedy;
    var lines := SplitLines(Strip(text));
    var runs := BlocksAreRuns(lines);
    var i := FenceLiesInRun(lines, runs, a, b);
    r := runs[i];
    RunIsRun(lines, runs, i);
    var block := BlockText(lines, r);
    assert BlockTexts(lines, runs)[i] == block;
    var units := UnitsOfCodeBlocks(CodeBlocks(text), max);
    groups := PackIsGreedy(units, max, PARAGRAPH);
    k := 0;
    if |block| <= max {
      StripTwice(JoinLines(Stripped(lines[r.from..r.to])));
      RunSaysSomething(lines, r);
      SmallBlocksSurvive(CodeBlocks(text), max, block);
      CleanHasStripped(units, block);
      k := FlattenedIsInGroup(groups, block);
    }
  }

  lemma RunIsRun(lines: seq<string>, runs: seq<Run>, i: nat)
    requires AreRuns(lines, runs, |lines|) && i < |runs|
    ensures IsRun(lines, runs[i]) && (runs[i].to < |lines| ==> Separates(lines, runs[i].to))
  {
    if runs[i].to < |lines| {
      RunEnds(lines, runs, i);
    }
  }

  // ----- a text with a fence is treated as fenced ------------------------------------------------

  lemma StartsInSlice(s: string, i: nat, j: nat, k: nat, t: string)
    requires i <= j <= |s| && k <= j - i && StartsWith(s[i..j][k..], t)
    ensures StartsWith(s[i + k..], t)
  {
    assert s[i..j][k..] == s[i + k..j];
    assert s[i + k..j][..|t|] == s[i + k..][..|t|];
  }

  lemma SliceContains(s: string, i: nat, j: nat, t: string)
    requires i <= j <= |s| && Contains(s[i..j], t)
    ensures Contains(s, t)
  {
    var part := s[i..j];
    var k :| 0 <= k <= |part| && StartsWith(part[k..], t);
    StartsInSlice(s, i, j, k, t);
  }

  lemma {:induction false} LStripIsSlice(s: string) returns (i: nat)
    ensures i <= |s| && LStrip(s) == s[i..]
  {
    i := 0;
    if s != "" && IsSpace(s[0]) {
      i := LStripIsSlice(s[1..]);
      i := i + 1;
    }
  }

  lemma {:induction false} RStripIsSlice(s: string) returns (j: nat)
    ensures j <= |s| && RStrip(s) == s[..j]
  {
    j := |s|;
    if s != "" && IsSpace(s[|s| - 1]) {
      j := RStripIsSlice(s[..|s| - 1]);
    }
  }

  lemma StripContains(s: string, t: string)
    requires Contains(Strip(s), t)
    ensures Contains(s, t)
  {
    var i := LStripIsSlice(s);
    var j := RStripIsSlice(s[i..]);
    assert s[i..][..j] == s[i..i + j];
    SliceContains(s, i, i + j, t);
  }

  lemma {:induction false} LineContains(s: string, k: nat, t: string)
    requires k < |SplitLines(s)| && Contains(SplitLines(s)[k], t)
    ensures Contains(s, t)
    decreases |s|
  {
    hide Contains, LineEnd, BreakLength;
    var n := LineEnd(s);
    if n == |s| {
      assert s[..n] == s;
    } else if k == 0 {
      assert s[0..n] == s[..n];
      SliceContains(s, 0, n, t);
    } else {
      var e := n + BreakLength(s, n);
      LineContains(s[e..], k - 1, t);
      assert s[e..|s|] == s[e..];
      SliceContains(s, e, |s|, t);
    }
  }

  lemma FenceContains(line: string)
    requires IsFence(line)
    ensures Contains(Strip(line), "```")
  {
    var t := Strip(line);
    assert t[0..] == t;
    assert StartsWith(t[0..], "```");
  }

  /** Code that has a fence line and does not fit is cut by its fences, whatever its language. */
  lemma {:induction false} FencedCodeIsCutByFences(
    text: string, language: Option<string>, max: nat, x: Syntax, a: nat)
    requires max > 0 && ValidSyntax(x) && |text| > max
    requires a < |SplitLines(Strip(text))| && IsFence(SplitLines(Strip(text))[a])
    ensures CodeParts(text, language, max, x) == SplitFencedText(text, max)
  {
    hide SplitLines, Strip, IsFence, Contains;
    var line := SplitLines(Strip(text))[a];
    FenceContains(line);
    StripContains(line, "```");
    LineContains(Strip(text), a, "```");
    StripContains(text, "```");
  }
}
