/**
  Where texts are cut: paragraphs at blank lines and only there, sentences at their ends and
  only there, pieces at multiples of a length; and that what fits is not cut at all.
 */
module Cuts {
  import opened Wrappers
  import opened Text
  import opened Lines
  import opened Packing
  import opened Splitting
  import opened CodeChunking
  import opened Chunking

  // ----- pieces and what lies between them ---------------------------------------------------

  /** Pieces with gaps between them, put together again. */
  function Woven(pieces: seq<string>, gaps: seq<string>): string
    requires |pieces| == |gaps| + 1
  {
    if gaps == [] then pieces[0] else pieces[0] + gaps[0] + Woven(pieces[1..], gaps[1..])
  }

  lemma WovenCons(piece: string, gap: string, pieces: seq<string>, gaps: seq<string>)
    requires |pieces| == |gaps| + 1
    ensures Woven([piece] + pieces, [gap] + gaps) == piece + gap + Woven(pieces, gaps)
  {
    assert ([piece] + pieces)[1..] == pieces && ([gap] + gaps)[1..] == gaps;
  }

  // ----- lines ---------------------------------------------------------------------------------

  /** Lines with what ends each of them, put together again. */
  function Glued(lines: seq<string>, breaks: seq<string>): string
    requires |lines| == |breaks|
  {
    if lines == [] then "" else lines[0] + breaks[0] + Glued(lines[1..], breaks[1..])
  }

  /** One line break: a character that breaks lines, or a carriage return with a line feed. */
  predicate IsLineBreak(b: string, rest: string) {
    || b == "\r\n"
    || (|b| == 1 && IsBreak(b[0]) && (b == "\r" && rest != "" ==> rest[0] != '\n'))
  }

  /** Each line ends with one line break; the last one may end with the text, if it is not empty. */
  predicate AllBreak(lines: seq<string>, breaks: seq<string>)
    requires |lines| == |breaks|
  {
    forall i :: 0 <= i < |lines| ==>
      || IsLineBreak(breaks[i], Glued(lines[i + 1..], breaks[i + 1..]))
      || (i == |lines| - 1 && breaks[i] == "" && lines[i] != "")
  }

  lemma GluedCons(line: string, b: string, lines: seq<string>, breaks: seq<string>)
    requires |lines| == |breaks| && AllBreak(lines, breaks) && IsLineBreak(b, Glued(lines, breaks))
    ensures AllBreak([line] + lines, [b] + breaks)
    ensures Glued([line] + lines, [b] + breaks) == line + b + Glued(lines, breaks)
  {
    hide IsLineBreak, Glued;
    var ls, bs := [line] + lines, [b] + breaks;
    assert ls[1..] == lines && bs[1..] == breaks;
    GluedFirst(ls, bs);
    forall i | 0 <= i < |ls|
      ensures IsLineBreak(bs[i], Glued(ls[i + 1..], bs[i + 1..])) || (i == |ls| - 1 && bs[i] == "" && ls[i] != "")
    {
      if i > 0 {
        assert ls[i + 1..] == lines[i..] && bs[i + 1..] == breaks[i..];
        assert ls[i] == lines[i - 1] && bs[i] == breaks[i - 1];
      }
    }
  }

  lemma GluedFirst(lines: seq<string>, breaks: seq<string>)
    requires |lines| == |breaks| && lines != []
    ensures Glued(lines, breaks) == lines[0] + breaks[0] + Glued(lines[1..], breaks[1..])
  {
  }

  lemma CutInThree(s: string, from: nat, i: nat, e: nat)
    requires from <= i <= e <= |s|
    ensures s[from..] == s[from..i] + s[i..e] + s[e..]
  {
  }

  lemma BreakIsLineBreak(s: string, n: nat)
    requires n < |s| && IsBreak(s[n])
    ensures IsLineBreak(s[n..n + BreakLength(s, n)], s[n + BreakLength(s, n)..])
  {
  }

  lemma OneLine(s: string)
    requires s != ""
    ensures AllBreak([s], [""]) && Glued([s], [""]) == s
  {
    assert Glued([s][1..], [""][1..]) == "";
  }

  /** Lines are cut at every line break and nowhere else, and no character gets lost. */
  lemma {:induction false} LinesCutAtBreaks(s: string) returns (breaks: seq<string>)
    ensures |breaks| == |SplitLines(s)| && AllBreak(SplitLines(s), breaks)
    ensures Glued(SplitLines(s), breaks) == s
    decreases |s|
  {
    breaks := [];
    if s != "" {
      hide AllBreak, IsLineBreak, Glued, LineEnd, BreakLength;
      var n := LineEnd(s);
      if n == |s| {
        breaks := [""];
        OneLine(s);
      } else {
        var e := n + BreakLength(s, n);
        var rest := LinesCutAtBreaks(s[e..]);
        breaks := [s[n..e]] + rest;
        BreakIsLineBreak(s, n);
        GluedCons(s[..n], s[n..e], SplitLines(s[e..]), rest);
        CutInThree(s, 0, n, e);
        assert s[0..] == s && s[0..n] == s[..n];
      }
    } else {
      NoLinesGlued();
    }
  }

  lemma NoLinesGlued()
    ensures SplitLines("") == [] && Glued([], []) == "" && AllBreak([], [])
  {
  }

  // ----- paragraphs and sentences ----------------------------------------------------------------

  /** Whitespace with a line feed at either end. */
  predicate IsGap(gap: string) {
    |gap| >= 2 && AllSpace(gap) && gap[0] == '\n' && gap[|gap| - 1] == '\n'
  }

  predicate AllGaps(gaps: seq<string>) {
    forall i :: 0 <= i < |gaps| ==> IsGap(gaps[i])
  }

  lemma FoundGapIsGap(s: string, i: nat)
    requires i < |s| && GapEnd(s, i) > i
    ensures IsGap(s[i..GapEnd(s, i)])
  {
  }

  lemma GapsCons(gap: string, gaps: seq<string>)
    requires IsGap(gap) && AllGaps(gaps)
    ensures AllGaps([gap] + gaps)
  {
  }

  lemma NextParagraph(s: string, from: nat, i: nat)
    requires from <= i <= |s|
    ensures ParagraphsFrom(s, from, i)
         == if i == |s| then [s[from..]]
            else if GapEnd(s, i) > i then [s[from..i]] + ParagraphsFrom(s, GapEnd(s, i), GapEnd(s, i))
            else ParagraphsFrom(s, from, i + 1)
  {
  }

  lemma OnePiece(s: string)
    ensures Woven([s], []) == s && AllGaps([])
  {
  }

  /** Paragraphs are cut at blank lines only: what lies between two of them is one. */
  lemma {:induction false} ParagraphsCutAtGaps(s: string, from: nat, i: nat) returns (gaps: seq<string>)
    requires from <= i <= |s|
    ensures |ParagraphsFrom(s, from, i)| == |gaps| + 1 && AllGaps(gaps)
    ensures Woven(ParagraphsFrom(s, from, i), gaps) == s[from..]
    decreases |s| - i
  {
    hide ParagraphsFrom, GapEnd, AllGaps, IsGap, Woven;
    NextParagraph(s, from, i);
    if i == |s| {
      gaps := [];
      OnePiece(s[from..]);
    } else if GapEnd(s, i) > i {
      var e := GapEnd(s, i);
      var rest := ParagraphsCutAtGaps(s, e, e);
      gaps := [s[i..e]] + rest;
      WovenCons(s[from..i], s[i..e], ParagraphsFrom(s, e, e), rest);
      CutInThree(s, from, i, e);
      FoundGapIsGap(s, i);
      GapsCons(s[i..e], rest);
    } else {
      gaps := ParagraphsCutAtGaps(s, from, i + 1);
    }
  }

  /** A sentence ends inside the text: an end mark with whitespace after it. */
  predicate EndsInside(s: string) {
    exists k :: 0 < k < |s| && EndsSentence(s[k - 1]) && IsSpace(s[k])
  }

  predicate EndsAtGap(piece: string, gap: string) {
    piece != "" && EndsSentence(piece[|piece| - 1]) && gap != "" && AllSpace(gap)
  }

  predicate AllEndAtGaps(pieces: seq<string>, gaps: seq<string>)
    requires |pieces| == |gaps| + 1
  {
    forall i :: 0 <= i < |gaps| ==> EndsAtGap(pieces[i], gaps[i])
  }

  /** No sentence ends in s[from..i]. */
  predicate NoEndBefore(s: string, from: nat, i: nat)
    requires from <= i <= |s|
  {
    forall k :: from < k < i ==> !(EndsSentence(s[k - 1]) && IsSpace(s[k]))
  }

  lemma PieceDoesNotEndInside(s: string, from: nat, i: nat)
    requires from <= i <= |s| && NoEndBefore(s, from, i)
    ensures !EndsInside(s[from..i])
  {
    var t := s[from..i];
    forall k | 0 < k < |t| ensures !(EndsSentence(t[k - 1]) && IsSpace(t[k])) {
      assert t[k - 1] == s[from + k - 1] && t[k] == s[from + k];
    }
  }

  /** The scan has not passed a sentence's end, and did not start right after an end mark. */
  predicate Scanning(s: string, from: nat, i: nat) {
    && from <= i <= |s| && NoEndBefore(s, from, i)
    && (from > 0 ==> !EndsSentence(s[from - 1]))
  }

  lemma {:induction false} AfterSpace(s: string, i: nat)
    requires i < |s| && IsSpace(s[i])
    ensures var e := SpaceEnd(s, i); e > i && IsSpace(s[e - 1]) && !EndsSentence(s[e - 1])
  {
    var e := SpaceEnd(s, i);
    assert e > i by { assert SpaceEnd(s, i) == SpaceEnd(s, i + 1); }
    assert s[i..e][e - 1 - i] == s[e - 1];
  }

  /**
    Sentences are cut at their ends and nowhere else: every piece but the last closes with an end
    mark that whitespace follows, and no piece has one inside.
   */
  lemma {:induction false} SentencesCutAtEnds(s: string, from: nat, i: nat) returns (gaps: seq<string>)
    requires Scanning(s, from, i)
    ensures |SentencesFrom(s, from, i)| == |gaps| + 1
    ensures Woven(SentencesFrom(s, from, i), gaps) == s[from..]
    ensures AllEndAtGaps(SentencesFrom(s, from, i), gaps)
    ensures forall p :: p in SentencesFrom(s, from, i) ==> !EndsInside(p)
    decreases |s| - i
  {
    hide EndsInside, EndsSentence, IsSpace;
    if i == |s| {
      gaps := [];
      assert s[from..] == s[from..i];
      PieceDoesNotEndInside(s, from, i);
    } else if i > 0 && EndsSentence(s[i - 1]) && IsSpace(s[i]) {
      var e := SpaceEnd(s, i);
      AfterSpace(s, i);
      PieceDoesNotEndInside(s, from, i);
      var rest := SentencesCutAtEnds(s, e, e);
      gaps := [s[i..e]] + rest;
      WovenCons(s[from..i], s[i..e], SentencesFrom(s, e, e), rest);
      CutInThree(s, from, i, e);
      EndsFirst(s[from..i], s[i..e], SentencesFrom(s, e, e), rest);
    } else {
      gaps := SentencesCutAtEnds(s, from, i + 1);
    }
  }

  lemma EndsFirst(piece: string, gap: string, pieces: seq<string>, gaps: seq<string>)
    requires |pieces| == |gaps| + 1 && AllEndAtGaps(pieces, gaps) && EndsAtGap(piece, gap)
    ensures AllEndAtGaps([piece] + pieces, [gap] + gaps)
  {
    hide EndsAtGap;
  }

  // ----- pieces of a fixed length --------------------------------------------------------------

  lemma Shifted(s: string, n: nat, a: nat, b: nat)
    requires n <= |s| && a <= b && n + b <= |s|
    ensures s[n..][a..b] == s[n + a..n + b] && s[n..][a..] == s[n + a..]
  {
  }

  lemma HardSplitSteps(s: string, max: nat)
    requires max > 0
    ensures HardSplit(s, max) == if s == "" then [] else if |s| <= max then [Strip(s)]
                                 else [Strip(s[..max])] + HardSplit(s[max..], max)
  {
  }

  lemma TimesNext(n: nat, max: nat)
    ensures (n + 1) * max == n * max + max
  {
  }

  /** As many pieces as it takes. */
  lemma {:induction false} HardSplitCount(s: string, max: nat)
    requires max > 0
    ensures |s| <= |HardSplit(s, max)| * max < |s| + max
    decreases |s|
  {
    hide HardSplit, Strip;
    HardSplitSteps(s, max);
    if |s| > max {
      HardSplitCount(s[max..], max);
      TimesNext(|HardSplit(s[max..], max)|, max);
    }
  }

  /** The i-th piece of a length, stripped. */
  function PieceAt(s: string, max: nat, i: nat): string
    requires i * max <= |s|
  {
    Strip(if i * max + max <= |s| then s[i * max..i * max + max] else s[i * max..])
  }

  /** The i-th piece begins at i times the length, and all but the last are as long as allowed. */
  lemma {:induction false} HardSplitAtMultiples(s: string, max: nat, i: nat)
    requires max > 0 && i < |HardSplit(s, max)|
    ensures i * max < |s| && HardSplit(s, max)[i] == PieceAt(s, max, i)
    decreases |s|
  {
    hide HardSplit, Strip;
    HardSplitSteps(s, max);
    if i == 0 {
      assert s[0..] == s && s[0..|s|] == s && 0 * max == 0;
      assert |s| > max ==> s[0..max] == s[..max];
    } else {
      var rest := s[max..];
      HardSplitAtMultiples(rest, max, i - 1);
      TimesNext(i - 1, max);
      NextPiece(s, max, i - 1);
    }
  }

  lemma NextPiece(s: string, max: nat, i: nat)
    requires max <= |s| && i * max <= |s| - max && (i + 1) * max == i * max + max
    ensures PieceAt(s, max, i + 1) == PieceAt(s[max..], max, i)
  {
    hide Strip;
    var a, n := i * max, |s| - max;
    Shifted(s, max, a, if a + max <= n then a + max else n);
  }

  // ----- blank lines of code -------------------------------------------------------------------

  /** A line that says something, or the first of a run of blank ones. */
  predicate Stays(lines: seq<string>, i: nat)
    requires i < |lines|
  {
    !Blank(lines[i]) || i == 0 || !Blank(lines[i - 1])
  }

  function Staying(lines: seq<string>, n: nat): seq<string>
    requires n <= |lines|
  {
    if n == 0 then []
    else Staying(lines, n - 1) + if Stays(lines, n - 1) then [RStrip(lines[n - 1])] else []
  }

  lemma RStripSays(line: string)
    ensures Strip(RStrip(line)) == "" <==> Blank(line)
    ensures Blank(line) ==> RStrip(line) == ""
  {
    InkRStrip(line);
    InkOfSpace(line);
    InkOfSpace(RStrip(line));
    BlankIsStrippedEmpty(RStrip(line));
  }

  /** Normalising keeps the first of a run of blank lines, and every other line, stripped at its end. */
  lemma {:induction false} TidyingKeepsOneBlank(lines: seq<string>, n: nat)
    requires n <= |lines|
    ensures TidyLines(lines[..n]).kept == Staying(lines, n)
    ensures TidyLines(lines[..n]).blanks == 0 <==> n == 0 || !Blank(lines[n - 1])
  {
    hide *;
    if n == 0 {
      TidyingStarts(lines);
    } else {
      TidyingKeepsOneBlank(lines, n - 1);
      TidyingGoesOn(lines, n - 1);
    }
  }

  lemma TidyingStarts(lines: seq<string>)
    ensures TidyLines(lines[..0]) == Tidy([], 0) && Staying(lines, 0) == []
  {
    assert lines[..0] == [];
  }

  lemma TidyingGoesOn(lines: seq<string>, n: nat)
    requires n < |lines| && TidyLines(lines[..n]).kept == Staying(lines, n)
    requires TidyLines(lines[..n]).blanks == 0 <==> n == 0 || !Blank(lines[n - 1])
    ensures TidyLines(lines[..n + 1]).kept == Staying(lines, n + 1)
    ensures TidyLines(lines[..n + 1]).blanks == 0 <==> !Blank(lines[n])
  {
    hide RStrip, Strip, Blank, TidyLines;
    TidyPrefix(lines, n);
    RStripSays(lines[n]);
  }

  // ----- braces --------------------------------------------------------------------------------

  lemma CountsFirst(c: char, s: string, x: char)
    ensures multiset([c] + s)[x] == multiset(s)[x] + if c == x then 1 else 0
  {
  }

  /** The net depth of a line is how many braces it opens less how many it closes. */
  lemma {:induction false} NetCounts(line: string)
    ensures Net(line) == multiset(line)['{'] as int - multiset(line)['}'] as int
  {
    if line != "" {
      NetCounts(line[1..]);
      assert line == [line[0]] + line[1..];
      CountsFirst(line[0], line[1..], '{');
      CountsFirst(line[0], line[1..], '}');
    }
  }

  /** What is left of a line without its comment: all of it, or what precedes the first two slashes. */
  lemma {:induction false} CommentIsCut(line: string)
    ensures var n := |CutComment(line)|;
            && n <= |line| && CutComment(line) == line[..n]
            && (n < |line| ==> StartsWith(line[n..], "//"))
            && (forall k :: 0 <= k < n ==> !StartsWith(line[k..], "//"))
  {
    if line != "" && !StartsWith(line, "//") {
      var rest := line[1..];
      CommentIsCut(rest);
      forall k | 0 <= k < |CutComment(line)| ensures !StartsWith(line[k..], "//") {
        if k > 0 {
          assert line[k..] == rest[k - 1..];
        } else {
          assert line[0..] == line;
        }
      }
      assert line[|CutComment(line)|..] == rest[|CutComment(rest)|..];
    } else {
      assert line[0..] == line;
    }
  }

  // ----- what fits is not cut ------------------------------------------------------------------

  lemma {:induction false} SmallParagraphsSurvive(blocks: seq<string>, max: nat, block: string)
    requires max > 0 && block in blocks && |block| <= max
    ensures Strip(block) in UnitsOfBlocks(blocks, max)
  {
    if block != blocks[|blocks| - 1] {
      SmallParagraphsSurvive(blocks[..|blocks| - 1], max, block);
    }
  }

  /** A paragraph that fits lies, whole, in the group of one part. */
  lemma SmallParagraphsStayWhole(text: string, max: nat, paragraph: string)
    returns (groups: seq<seq<string>>, k: nat)
    requires max > 0 && paragraph in Clean(Paragraphs(Strip(text))) && |paragraph| <= max
    ensures Greedy(SplitText(text, max), groups, max, PARAGRAPH)
    ensures k < |groups| && paragraph in groups[k]
  {
    hide Paragraphs, Greedy;
    var blocks := Clean(Paragraphs(Strip(text)));
    var units := UnitsOfBlocks(blocks, max);
    CleanIsTrimmed(Paragraphs(Strip(text)));
    TrimmedIsStripped(paragraph);
    SmallParagraphsSurvive(blocks, max, paragraph);
    groups := PackIsGreedy(units, max, PARAGRAPH);
    CleanHasStripped(units, paragraph);
    k := FlattenedIsInGroup(groups, paragraph);
  }

  // ----- declarations are units ----------------------------------------------------------------

  lemma {:induction false} UnitsCons(first: seq<string>, rest: seq<seq<string>>)
    ensures UnitsOf([first] + rest) == Piece(first) + UnitsOf(rest)
  {
    hide Piece;
    if rest == [] {
      assert [first] + rest == [] + [first];
      UnitsSnoc([], first);
    } else {
      var init, last := rest[..|rest| - 1], rest[|rest| - 1];
      UnitsCons(first, init);
      assert [first] + rest == ([first] + init) + [last];
      UnitsSnoc([first] + init, last);
      Associate(Piece(first), UnitsOf(init), Piece(last));
    }
  }

  lemma UnitsOfThree(a: seq<string>, b: seq<string>, rest: seq<seq<string>>)
    ensures UnitsOf([a] + ([b] + rest)) == Piece(a) + (Piece(b) + UnitsOf(rest))
  {
    UnitsCons(b, rest);
    UnitsCons(a, [b] + rest);
  }

  /** The lines of a declaration from its leading comment on, as a unit. */
  predicate IsUnit(lines: seq<string>, units: seq<string>, b: nat, end: nat) {
    b < end <= |lines| && (Strip(JoinLines(lines[b..end])) == "" || Strip(JoinLines(lines[b..end])) in units)
  }

  lemma DeclaredUnit(lines: seq<string>, a: nat, b: nat, end: nat, rest: seq<seq<string>>)
    requires a <= b < end <= |lines|
    ensures IsUnit(lines, UnitsOf([lines[a..b]] + ([lines[b..end]] + rest)), b, end)
  {
    hide Strip, JoinLines;
    UnitsOfThree(lines[a..b], lines[b..end], rest);
  }

  lemma LaterUnit(
    lines: seq<string>, x: seq<string>, y: seq<string>, rest: seq<seq<string>>, b: nat, end: nat)
    requires IsUnit(lines, UnitsOf(rest), b, end)
    ensures IsUnit(lines, UnitsOf([x] + ([y] + rest)), b, end)
  {
    hide Strip, JoinLines, Piece, UnitsOf;
    UnitsOfThree(x, y, rest);
  }

  /** A blank line, or one that begins with one of these marks. */
  predicate Marked(line: string, marks: seq<string>) {
    Blank(line) || exists i :: 0 <= i < |marks| && StartsWith(Strip(line), marks[i])
  }

  const HASH := ["#"]

  const SLASHES := ["//", "/*", "*"]

  lemma CommentsAreMarked(line: string)
    ensures HashComment(line) <==> Marked(line, HASH)
    ensures SlashComment(line) <==> Marked(line, SLASHES)
  {
    var t := Strip(line);
    BlankIsStrippedEmpty(line);
    assert StartsWith(t, HASH[0]) ==> Marked(line, HASH);
    assert StartsWith(t, SLASHES[0]) || StartsWith(t, SLASHES[1]) || StartsWith(t, SLASHES[2])
      ==> Marked(line, SLASHES);
    assert StartsWith(t, "*/") ==> t[..1] == "*/"[..1] && StartsWith(t, SLASHES[2]);
  }

  /** The comment and blank lines right above a declaration, back to `lower` at most. */
  predicate LeadsTo(lines: seq<string>, marks: seq<string>, lower: nat, b: nat, start: nat)
    requires start <= |lines|
  {
    && lower <= b <= start
    && (forall k :: b <= k < start ==> Marked(lines[k], marks))
    && (b > lower ==> !Marked(lines[b - 1], marks))
  }

  lemma {:induction false} HashLeads(lines: seq<string>, start: nat, lower: nat)
    requires lower <= start <= |lines|
    ensures LeadsTo(lines, HASH, lower, CommentStart(lines, HashComment, start, lower), start)
  {
    hide HashComment, Marked;
    CommentStartIsFirst(lines, HashComment, start, lower);
    forall k | 0 <= k < |lines| ensures HashComment(lines[k]) <==> Marked(lines[k], HASH) {
      CommentsAreMarked(lines[k]);
    }
  }

  lemma {:induction false} SlashLeads(lines: seq<string>, start: nat, lower: nat)
    requires lower <= start <= |lines|
    ensures LeadsTo(lines, SLASHES, lower, CommentStart(lines, SlashComment, start, lower), start)
  {
    hide SlashComment, Marked;
    CommentStartIsFirst(lines, SlashComment, start, lower);
    forall k | 0 <= k < |lines| ensures SlashComment(lines[k]) <==> Marked(lines[k], SLASHES) {
      CommentsAreMarked(lines[k]);
    }
  }

  /** The last line before the comment of a declaration may begin: the end of the one before. */
  function LastEnd(spans: seq<Span>, i: nat, cursor: nat, k: nat): nat
    requires k < |spans|
  {
    if k == i || k == 0 then cursor else spans[k - 1].last
  }

  lemma {:induction false} PythonDeclarationIsUnit(lines: seq<string>, spans: seq<Span>, i: nat, cursor: nat) returns (b: nat)
    requires ValidSpans(spans, |lines|) && i < |spans| && cursor < spans[i].first
    ensures 1 <= spans[i].first <= |lines| && LeadsTo(lines, HASH, cursor, b, spans[i].first - 1)
    ensures IsUnit(lines, UnitsOf(PythonSlices(lines, spans, i, cursor)), b, spans[i].last)
  {
    hide ValidSpans, PythonSlices, IsUnit, UnitsOf, HashComment;
    NextSpanStarts(spans, |lines|, i, i);
    b := CommentStart(lines, HashComment, spans[i].first - 1, cursor);
    NextSpan(lines, spans, i, cursor);
    HashLeads(lines, spans[i].first - 1, cursor);
    DeclaredUnit(lines, cursor, b, spans[i].last, PythonSlices(lines, spans, i + 1, spans[i].last));
  }

  /**
    Every declaration of a Python text makes a unit, together with the comment lines above it, as
    far as they do not belong to the declaration before.
   */
  lemma {:induction false} PythonDeclarationsAreUnits(
    lines: seq<string>, spans: seq<Span>, i: nat, cursor: nat, k: nat) returns (b: nat)
    requires ValidSpans(spans, |lines|) && i <= k < |spans| && cursor < spans[i].first
    ensures cursor <= |lines| && 1 <= spans[k].first <= |lines|
    ensures LeadsTo(lines, HASH, LastEnd(spans, i, cursor, k), b, spans[k].first - 1)
    ensures IsUnit(lines, UnitsOf(PythonSlices(lines, spans, i, cursor)), b, spans[k].last)
    decreases k - i
  {
    hide ValidSpans, PythonSlices, IsUnit, UnitsOf, HashComment, CommentStart, LeadsTo;
    NextSpanStarts(spans, |lines|, i, k);
    NextSpanStarts(spans, |lines|, k, k);
    if k == i {
      b := PythonDeclarationIsUnit(lines, spans, i, cursor);
    } else {
      var end := spans[i].last;
      NextSpan(lines, spans, i, cursor);
      b := PythonDeclarationsAreUnits(lines, spans, i + 1, end, k);
      var start := CommentStart(lines, HashComment, spans[i].first - 1, cursor);
      LaterUnit(lines, lines[cursor..start], lines[start..end], PythonSlices(lines, spans, i + 1, end), b, spans[k].last);
    }
  }

  /** A declaration before this one has a block that holds it. */
  predicate InsideEarlier(lines: seq<string>, declares: string -> bool, cursor: nat, n: nat)
    requires n < |lines|
  {
    exists m: nat, end: nat :: cursor <= m < n && n < end <= |lines|
      && declares(lines[m]) && IsBlockEnd(lines, m, end)
  }

  /**
    In a language with braces, every declaration makes a unit, with its block and the comment
    above it, unless it lies inside the block of an earlier one.
   */
  lemma {:induction false} BraceDeclarationsAreUnits(
    lines: seq<string>, declares: string -> bool, cursor: nat, n: nat) returns (b: nat, end: nat, lower: nat)
    requires cursor <= n < |lines| && declares(lines[n])
    ensures InsideEarlier(lines, declares, cursor, n)
      || (&& IsBlockEnd(lines, n, end) && LeadsTo(lines, SLASHES, lower, b, n)
          && IsUnit(lines, UnitsOf(BraceSlices(lines, declares, BlockEnds(lines), cursor)), b, end))
    decreases |lines| - cursor
  {
    hide BraceSlices, IsUnit, CommentStart, NextDeclaration, IsBlockEnd, UnitsOf, SlashComment, LeadsTo;
    var ends := BlockEnds(lines);
    var first := NextDeclaration(lines, declares, cursor);
    FirstDeclares(lines, declares, cursor, n);
    BlockEndIsFirst(lines, first, first + 1);
    var start := CommentStart(lines, SlashComment, first, cursor);
    var rest := BraceSlices(lines, declares, ends, ends[first]);
    NextSlices(lines, declares, ends, cursor, start);
    b, end, lower := start, ends[first], cursor;
    if first == n {
      SlashLeads(lines, n, cursor);
      DeclaredUnit(lines, cursor, start, end, rest);
    } else if n < ends[first] {
      assert IsBlockEnd(lines, first, ends[first]);
    } else {
      b, end, lower := BraceDeclarationsAreUnits(lines, declares, ends[first], n);
      if !InsideEarlier(lines, declares, ends[first], n) {
        LaterUnit(lines, lines[cursor..start], lines[start..ends[first]], rest, b, end);
      }
    }
  }

  lemma {:induction false} FirstDeclares(lines: seq<string>, declares: string -> bool, cursor: nat, n: nat)
    requires cursor <= n < |lines| && declares(lines[n])
    ensures NextDeclaration(lines, declares, cursor) <= n
    ensures declares(lines[NextDeclaration(lines, declares, cursor)])
    decreases n - cursor
  {
    if cursor < n && !declares(lines[cursor]) {
      FirstDeclares(lines, declares, cursor + 1, n);
    }
  }

  // ----- declarations in whole texts -----------------------------------------------------------

  /** A unit of the text that fits is, whole, in the group of one part. */
  lemma {:induction false} UnitStaysWhole(text: string, language: Option<string>, max: nat, x: Syntax, unit: string)
    returns (groups: seq<seq<string>>, g: nat)
    requires ValidSyntax(x) && Normalize(text) != ""
    requires unit in UnitsFor(Normalize(text), language, x)
    requires unit != "" && Trimmed(unit) && |unit| <= max
    ensures Greedy(SplitUnfencedText(text, language, max, x), groups, max, PARAGRAPH)
    ensures g < |groups| && unit in groups[g]
  {
    var units := UnitsFor(Normalize(text), language, x);
    TrimmedIsStripped(unit);
    var i :| 0 <= i < |units| && units[i] == unit;
    groups, g := SmallUnitsStayWhole(units, max, i);
  }

  lemma LinesSaySomething(s: string)
    requires SplitLines(s) != []
    ensures s != ""
  {
  }

  /**
    A Python declaration that fits, with its comment, is not cut: it lies, whole, in the group of
    one part.
   */
  lemma {:induction false} PythonDeclarationsStayWhole(text: string, max: nat, x: Syntax, spans: seq<Span>, k: nat)
    returns (b: nat, groups: seq<seq<string>>, g: nat)
    requires ValidSyntax(x) && x.parse(Normalize(text)) == Some(spans) && k < |spans|
    ensures var lines := SplitLines(Normalize(text));
            && 1 <= spans[k].first <= spans[k].last <= |lines|
            && LeadsTo(lines, HASH, LastEnd(spans, 0, 0, k), b, spans[k].first - 1)
            && var unit := Strip(JoinLines(lines[b..spans[k].last]));
            (unit != "" && |unit| <= max ==>
              && Greedy(SplitUnfencedText(text, Some("python"), max, x), groups, max, PARAGRAPH)
              && g < |groups| && unit in groups[g])
  {
    var normalized := Normalize(text);
    var lines := SplitLines(normalized);
    hide Normalize, SplitLines, Greedy, LeadsTo, PythonSlices, UnitsOf, SplitUnfencedText, Strip, JoinLines, Trimmed;
    NextSpanStarts(spans, |lines|, 0, k);
    NextSpanStarts(spans, |lines|, k, k);
    b := PythonDeclarationsAreUnits(lines, spans, 0, 0, k);
    var unit := Strip(JoinLines(lines[b..spans[k].last]));
    groups, g := [], 0;
    LinesSaySomething(normalized);
    if unit != "" && |unit| <= max {
      StripTrims(JoinLines(lines[b..spans[k].last]));
      groups, g := UnitStaysWhole(text, Some("python"), max, x, unit);
    }
  }

  /**
    A declaration in a language with braces that fits, with its comment and its block, is not cut
    either, unless it lies inside the block of an earlier one.
   */
  lemma {:induction false} BraceDeclarationsStayWhole(text: string, language: string, max: nat, x: Syntax, n: nat)
    returns (b: nat, end: nat, lower: nat, groups: seq<seq<string>>, g: nat)
    requires ValidSyntax(x) && language in ["java", "kotlin", "javascript", "typescript"]
    requires n < |SplitLines(Normalize(text))| && x.declares(language, SplitLines(Normalize(text))[n])
    ensures var lines, declares := SplitLines(Normalize(text)), line => x.declares(language, line);
            InsideEarlier(lines, declares, 0, n)
            || (&& IsBlockEnd(lines, n, end) && LeadsTo(lines, SLASHES, lower, b, n)
                && var unit := Strip(JoinLines(lines[b..end]));
                (unit != "" && |unit| <= max ==>
                  && Greedy(SplitUnfencedText(text, Some(language), max, x), groups, max, PARAGRAPH)
                  && g < |groups| && unit in groups[g]))
  {
    var normalized := Normalize(text);
    var lines, declares := SplitLines(normalized), line => x.declares(language, line);
    hide Normalize, SplitLines, Greedy, LeadsTo, BraceSlices, UnitsOf, SplitUnfencedText, Strip, JoinLines, Trimmed;
    b, end, lower := BraceDeclarationsAreUnits(lines, declares, 0, n);
    groups, g := [], 0;
    LinesSaySomething(normalized);
    if !InsideEarlier(lines, declares, 0, n) {
      var unit := Strip(JoinLines(lines[b..end]));
      FirstDeclares(lines, declares, 0, n);
      if unit != "" && |unit| <= max {
        StripTrims(JoinLines(lines[b..end]));
        groups, g := UnitStaysWhole(text, Some(language), max, x, unit);
      }
    }
  }

  // ----- which chunks are code, and which are left whole ---------------------------------------

  /** A fence opens at the head of a line. */
  predicate OpensFence(text: string) {
    exists i :: 0 <= i <= |text| && (i == 0 || text[i - 1] == '\n') && StartsWith(text[i..], "```")
  }

  lemma CodeIsRecognised(c: EvidenceChunk)
    ensures IsCode(c) <==> c.docType == "code" || OpensFence(Strip(c.text))
  {
    hide Contains, OpensFence;
    FenceAtLine(Strip(c.text));
  }

  lemma FenceAtLine(t: string)
    ensures OpensFence(t) <==> StartsWith(t, "```") || Contains(t, "\n```")
  {
    hide StartsWith;
    assert t[0..] == t;
    if Contains(t, "\n```") {
      var i :| 0 <= i <= |t| && StartsWith(t[i..], "\n```");
      AfterNewline(t, i);
      assert t[i] == '\n' && StartsWith(t[i + 1..], "```");
    }
    if OpensFence(t) {
      var i :| 0 <= i <= |t| && (i == 0 || t[i - 1] == '\n') && StartsWith(t[i..], "```");
      if i > 0 {
        AfterNewline(t, i - 1);
        assert StartsWith(t[i - 1..], "\n```");
      }
    }
  }

  lemma AfterNewline(t: string, i: nat)
    requires i <= |t|
    ensures StartsWith(t[i..], "\n```") <==> i < |t| && t[i] == '\n' && StartsWith(t[i + 1..], "```")
  {
    var u := t[i..];
    assert "\n```" == ['\n'] + "```";
    if |u| >= 4 {
      assert u[..4] == [t[i]] + t[i + 1..][..3];
      assert u[..4][0] == t[i] && u[..4][1..] == t[i + 1..][..3];
      assert ("\n```")[0] == '\n' && ("\n```")[1..] == "```";
    }
  }

  /** A chunk that fits once it is tidied keeps its id and is one part; an empty one is none. */
  lemma {:induction false} FittingChunksStayWhole(c: EvidenceChunk, max: nat, x: Syntax)
    requires max > 0 && ValidSyntax(x)
    ensures var tidied := if IsCode(c) then Normalize(c.text) else Strip(c.text);
            && (tidied == "" ==> Children(c, PartsOf(c, max, x)) == [])
            && (0 < |tidied| <= max ==> Children(c, PartsOf(c, max, x)) == [c.(text := tidied)])
  {
  }

  /** A chunk of code that does not fit and has no fence is cut as its own language wants. */
  lemma {:induction false} LongCodeIsCutByLanguage(c: EvidenceChunk, max: nat, x: Syntax)
    requires max > 0 && ValidSyntax(x) && IsCode(c)
    requires |Normalize(c.text)| > max && !Contains(Normalize(c.text), "```")
    ensures PartsOf(c, max, x) == SplitUnfencedText(Normalize(c.text), c.language, max, x)
  {
  }
}
