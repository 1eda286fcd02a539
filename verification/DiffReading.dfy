/**
  What the reader makes of a printed patch, whatever characters its lines hold: a line with
  breaks of splitlines() inside is read as several lines, each by its own first characters.
 */
module DiffReading {
  import opened Wrappers
  import opened Text
  import opened Lines
  import opened Decimals
  import opened DiffHunks
  import opened DiffPatches

  // ----- hunk headers --------------------------------------------------------------------------

  lemma {:induction false} DigitRunIs(s: string, n: nat)
    requires n <= |s| && forall i :: 0 <= i < n ==> IsDigit(s[i])
    requires n < |s| ==> !IsDigit(s[n])
    ensures DigitRun(s) == n
  {
    if n > 0 {
      DigitRunIs(s[1..], n - 1);
    }
  }

  lemma DigitsThen(n: nat, rest: string)
    requires rest != "" && !IsDigit(rest[0])
    ensures var s := Decimal(n) + rest;
            DigitRun(s) == |Decimal(n)| && s[..|Decimal(n)|] == Decimal(n) && s[|Decimal(n)|..] == rest
    ensures Value(Decimal(n)) == n
  {
    DigitRunIs(Decimal(n) + rest, |Decimal(n)|);
    ValueOfDecimal(n);
  }

  lemma RangeIsRead(n: nat, count: Option<nat>, rest: string)
    requires rest != "" && !IsDigit(rest[0]) && rest[0] != ','
    ensures ParseRange(PrintSide(n, count, rest)) == Some(Range(n, rest))
  {
    if count.None? {
      assert PrintCount(count) + rest == rest;
      DigitsThen(n, rest);
    } else {
      var digits := Decimal(count.value) + rest;
      assert PrintCount(count) + rest == "," + digits;
      DigitsThen(n, "," + digits);
      DigitsThen(count.value, rest);
      var s, k := Decimal(n) + ("," + digits), |Decimal(n)|;
      assert s[k] == ',';
      assert s[k + 1..] == digits by { assert s[k..][1..] == digits; }
    }
  }

  lemma MarkIsRead(mark: string, rest: string)
    requires mark != "" && !IsSpace(mark[0])
    ensures AfterMark(" " + (mark + rest), mark) == Some(rest)
  {
    var s := " " + (mark + rest);
    assert s[1..] == mark + rest;
    assert (mark + rest)[0] == mark[0];
    assert LStrip(mark + rest) == mark + rest;
    assert IsSpace(s[0]) && LStrip(s) == LStrip(s[1..]);
    assert (mark + rest)[..|mark|] == mark && (mark + rest)[|mark|..] == rest;
  }

  lemma HeaderBegins(line: string, rest: string)
    requires line == "@@" + rest
    ensures StartsWith(line, "@@") && line[2..] == rest
  {
  }

  /** A printed header is read as one, with the right number. */
  lemma HeaderIsRead(h: Hunk)
    ensures ParseHeader(PrintHeader(h)) == Some(h.newStart)
  {
    var tail := " " + ("@@" + h.heading);
    var newSide := PrintSide(h.newStart, h.newCount, tail);
    var middle := " " + ("+" + newSide);
    var oldSide := PrintSide(h.oldStart, h.oldCount, middle);
    HeaderBegins(PrintHeader(h), " " + ("-" + oldSide));
    MarkIsRead("-", oldSide);
    RangeIsRead(h.oldStart, h.oldCount, middle);
    MarkIsRead("+", newSide);
    RangeIsRead(h.newStart, h.newCount, tail);
    MarkIsRead("@@", h.heading);
  }

  // ----- lines without a break -----------------------------------------------------------------

  /** How a line of a body is read if its text has no break inside. */
  function ReadingOf(d: DiffLine): Reading {
    match d
    case Context(t) => Space(t)
    case Added(t) => if StartsWith(t, "++") then FileName else Plus(t)
    case Removed(t) => if StartsWith(t, "--") then FileName else Ignored
    case NoNewline => Ignored
  }

  lemma FirstOf(line: string, prefix: string)
    requires prefix != "" && StartsWith(line, prefix)
    ensures line[0] == prefix[0]
  {
    assert line[..|prefix|][0] == line[0];
  }

  lemma NoHeader(line: string)
    requires line != "" && line[0] != '@'
    ensures ParseHeader(line).None?
  {
    if StartsWith(line, "@@") {
      FirstOf(line, "@@");
    }
  }

  lemma TripleMark(mark: string, text: string)
    requires |mark| == 1
    ensures StartsWith(mark + text, mark + mark + mark) <==> StartsWith(text, mark + mark)
    ensures (mark + text)[..1] == mark && (mark + text)[1..] == text
  {
    var line := mark + text;
    if |text| >= 2 {
      assert line[..3] == mark + text[..2];
      assert text[..2] == line[..3][1..];
      assert mark + mark + mark == mark + (mark + mark);
      assert (mark + (mark + mark))[1..] == mark + mark;
    }
  }

  lemma OtherMark(line: string, mark: string)
    requires line != "" && mark != "" && line[0] != mark[0]
    ensures !StartsWith(line, mark)
  {
    if StartsWith(line, mark) {
      FirstOf(line, mark);
    }
  }

  lemma LineIsRead(d: DiffLine)
    ensures Read(PrintLine(d)) == ReadingOf(d)
  {
    var line := PrintLine(d);
    assert line[0] == match d case Context(_) => ' ' case Added(_) => '+' case Removed(_) => '-' case NoNewline => '\\';
    NoHeader(line);
    if d.Added? {
      TripleMark("+", d.text);
      assert "+" + "+" + "+" == "+++" && "+" + "+" == "++";
    } else if d.Removed? {
      TripleMark("-", d.text);
      assert "-" + "-" + "-" == "---" && "-" + "-" == "--";
    } else {
      OtherMark(line, "+++");
      OtherMark(line, "---");
      OtherMark(line, "+");
      if d.Context? {
        assert line[..1] == " " && line[1..] == d.text;
      } else {
        OtherMark(line, " ");
      }
    }
    if d.Added? {
      OtherMark(line, "---");
    }
    if d.Removed? {
      OtherMark(line, "+++");
      OtherMark(line, "+");
      OtherMark(line, " ");
    }
  }

  // ----- fields of a patch ---------------------------------------------------------------------

  /** What the reader makes of a text, its empty lines left out. */
  function Readings(s: string): seq<Reading> {
    ReadAll(Fields(s))
  }

  function NonEmpty(lines: seq<string>): seq<string> {
    if lines == [] then [] else FieldOf(lines[0]) + NonEmpty(lines[1..])
  }

  lemma EmptyIsIgnored()
    ensures Read("") == Ignored
  {
  }

  lemma ReadAllOne(line: string, r: Reading)
    requires Read(line) == r
    ensures ReadAll([line]) == [r]
  {
  }

  lemma {:induction false} ReadAllConcat(a: seq<string>, b: seq<string>)
    ensures ReadAll(a + b) == ReadAll(a) + ReadAll(b)
  {
    hide Read;
    if a == [] {
      assert a + b == b;
    } else {
      ReadAllConcat(a[1..], b);
      assert a + b == [a[0]] + (a[1..] + b);
      ReadAllCons(a[0], Read(a[0]), a[1..] + b);
      Associate([Read(a[0])], ReadAll(a[1..]), ReadAll(b));
    }
  }

  lemma {:induction false} ReadAllAt(lines: seq<string>, i: nat)
    requires i < |lines|
    ensures |ReadAll(lines)| == |lines| && ReadAll(lines)[i] == Read(lines[i])
  {
    hide Read;
    ReadAllLength(lines);
    if i > 0 {
      ReadAllAt(lines[1..], i - 1);
    }
  }

  lemma {:induction false} ReadAllLength(lines: seq<string>)
    ensures |ReadAll(lines)| == |lines|
  {
    hide Read;
    if lines != [] {
      ReadAllLength(lines[1..]);
    }
  }

  lemma IgnoredDoesNothing(render: Renderer, s: Scan)
    ensures ScanOne(render, s, Ignored) == s
  {
  }

  lemma ScanLine(render: Renderer, s: Scan, line: string, lines: seq<string>)
    ensures ScanFrom(render, s, ReadAll([line] + lines)) == ScanFrom(render, ScanOne(render, s, Read(line)), ReadAll(lines))
  {
    ReadAllCons(line, Read(line), lines);
    ScanCons(render, s, Read(line), ReadAll(lines));
  }

  lemma {:induction false} EmptyLinesDoNothing(render: Renderer, s: Scan, lines: seq<string>)
    ensures ScanFrom(render, s, ReadAll(lines)) == ScanFrom(render, s, ReadAll(NonEmpty(lines)))
    decreases |lines|
  {
    hide Read;
    if lines != [] {
      var line, rest := lines[0], lines[1..];
      var s' := ScanOne(render, s, Read(line));
      EmptyLinesDoNothing(render, s', rest);
      assert lines == [line] + rest;
      ScanLine(render, s, line, rest);
      if line == "" {
        EmptyIsIgnored();
        IgnoredDoesNothing(render, s);
        assert NonEmpty(lines) == NonEmpty(rest);
      } else {
        ScanLine(render, s, line, NonEmpty(rest));
      }
    }
  }

  lemma NonEmptyCons(line: string, lines: seq<string>)
    ensures NonEmpty([line] + lines) == FieldOf(line) + NonEmpty(lines)
  {
    assert ([line] + lines)[1..] == lines;
  }

  lemma {:induction false} FieldsAfterLine(s: string, n: nat, k: nat)
    requires n < |s| && NoBreak(s[..n]) && IsBreak(s[n]) && k == BreakLength(s, n)
    ensures Fields(s) == FieldOf(s[..n]) + Fields(s[n + k..])
  {
    FieldsSplit(s, n);
    if k == 2 {
      FieldsAfterBreak(s[n + 1], s[n + 2..]);
      assert s[n + 1..] == [s[n + 1]] + s[n + 2..];
    }
  }

  lemma NoFields()
    ensures NonEmpty([]) == [] && Fields("") == []
  {
  }

  lemma OneField(s: string)
    requires NoBreak(s)
    ensures NonEmpty([s]) == Fields(s)
  {
    FieldsOfLine(s);
    NonEmptyCons(s, []);
    assert [s] == [s] + [];
  }

  /** The fields of a text are its lines in the sense of splitlines(), the empty ones left out. */
  lemma {:induction false} FieldsAreLines(s: string)
    ensures NonEmpty(SplitLines(s)) == Fields(s)
    decreases |s|
  {
    hide Fields, NonEmpty, BreakLength;
    if s == "" {
      NoFields();
    } else {
      var n := LineEnd(s);
      if n == |s| {
        OneField(s);
      } else {
        var k := BreakLength(s, n);
        FieldsAreLines(s[n + k..]);
        NonEmptyCons(s[..n], SplitLines(s[n + k..]));
        FieldsAfterLine(s, n, k);
      }
    }
  }

  lemma HeadCons(c: char, s: string)
    requires !IsBreak(c)
    ensures LineEnd([c] + s) == LineEnd(s) + 1
    ensures Head([c] + s) == [c] + Head(s) && LaterFields([c] + s) == LaterFields(s)
  {
    var n := LineEnd(s);
    AfterFirst(c, s, n);
    LineEndIs([c] + s, n + 1);
  }

  /** Unifying line breaks changes neither the first line nor the fields after it. */
  lemma {:induction false} UnifyKeepsLines(s: string)
    ensures Head(UnifyBreaks(s)) == Head(s) && LaterFields(UnifyBreaks(s)) == LaterFields(s)
    decreases |s|
  {
    if |s| >= 2 {
      if s[0] == '\r' && s[1] == '\n' {
        UnifyKeepsLines(s[2..]);
        UnifiedBreak(s);
      } else {
        UnifyKeepsLines(s[1..]);
        assert s == [s[0]] + s[1..];
        OtherFirst(s[0], s[1..], UnifyBreaks(s[1..]));
      }
    }
  }

  lemma OtherFirst(c: char, s: string, t: string)
    requires Head(s) == Head(t) && LaterFields(s) == LaterFields(t)
    ensures Head([c] + s) == Head([c] + t) && LaterFields([c] + s) == LaterFields([c] + t)
  {
    if IsBreak(c) {
      BreakFirst(c, s);
      BreakFirst(c, t);
      FieldsOfHead(s);
      FieldsOfHead(t);
    } else {
      HeadCons(c, s);
      HeadCons(c, t);
    }
  }

  lemma BreakFirst(c: char, s: string)
    requires IsBreak(c)
    ensures Head([c] + s) == "" && LaterFields([c] + s) == Fields(s)
  {
    assert ([c] + s)[1..] == s;
  }

  lemma UnifiedBreak(s: string)
    requires |s| >= 2 && s[0] == '\r' && s[1] == '\n'
    requires Head(UnifyBreaks(s[2..])) == Head(s[2..]) && LaterFields(UnifyBreaks(s[2..])) == LaterFields(s[2..])
    ensures Head(UnifyBreaks(s)) == Head(s) && LaterFields(UnifyBreaks(s)) == LaterFields(s)
  {
    assert s == ['\r'] + s[1..] && s[1..] == ['\n'] + s[2..];
    BreakFirst('\r', s[1..]);
    FieldsAfterBreak('\n', s[2..]);
    BreakFirst('\n', UnifyBreaks(s[2..]));
    FieldsOfHead(s[2..]);
    FieldsOfHead(UnifyBreaks(s[2..]));
  }

  /** What is extracted from a text depends on its fields alone. */
  lemma ExtractReadsFields(o: Origin, patch: string)
    ensures Extract(o, patch) == ExtractReadings(RenderFor(o), Readings(patch))
  {
    FieldsAreLines(UnifyBreaks(patch));
    UnifyKeepsLines(patch);
    FieldsOfHead(patch);
    FieldsOfHead(UnifyBreaks(patch));
    EmptyLinesDoNothing(RenderFor(o), NOTHING_SCANNED, SplitLines(UnifyBreaks(patch)));
  }

  // ----- what was printed is read line by line -------------------------------------------------

  function AllFields(texts: seq<string>): seq<string> {
    if texts == [] then [] else Fields(texts[0]) + AllFields(texts[1..])
  }

  lemma FieldsThenBreak(text: string, e: LineBreak, rest: string)
    ensures Fields(text + (BreakText(e) + rest)) == Fields(text) + Fields(rest)
  {
    match e
    case Lf =>
      FieldsConcat(text, '\n', rest);
    case CrLf =>
      assert "\r\n" + rest == ['\r'] + (['\n'] + rest);
      FieldsConcat(text, '\r', ['\n'] + rest);
      FieldsAfterBreak('\n', rest);
  }

  /** Whatever the line ends are, each line is read for itself. */
  lemma {:induction false} TerminatedFields(texts: seq<string>, ends: seq<LineBreak>)
    requires Terminates(ends, |texts|)
    ensures Fields(Terminated(texts, ends)) == AllFields(texts)
  {
    if texts == [] {
    } else if ends == [] {
      assert texts[1..] == [];
      assert AllFields(texts) == Fields(texts[0]) + [];
    } else {
      TerminatedFields(texts[1..], ends[1..]);
      FieldsThenBreak(texts[0], ends[0], Terminated(texts[1..], ends[1..]));
    }
  }

  /** What may hold any characters in a line. */
  function TextOf(l: PatchLine): string {
    match l
    case HeaderLine(h) => h.heading
    case BodyLine(d) => if d.NoNewline? then "" else d.text
  }

  /** How a line begins to be read: by its mark and what its text holds before the first break. */
  function First(l: PatchLine): Reading {
    match l
    case HeaderLine(h) => Header(h.newStart)
    case BodyLine(d) => if d.NoNewline? then Ignored else ReadingOf(d.(text := Head(d.text)))
  }

  /** How it goes on: what follows a break inside is read like a line of its own. */
  function Later(l: PatchLine): seq<Reading> {
    ReadAll(LaterFields(TextOf(l)))
  }

  function LineReadings(l: PatchLine): seq<Reading> {
    [First(l)] + Later(l)
  }

  function PatchReadings(lines: seq<PatchLine>): seq<Reading> {
    if lines == [] then [] else LineReadings(lines[0]) + PatchReadings(lines[1..])
  }

  lemma SideSplit(start: nat, count: Option<nat>, a: string, b: string)
    ensures PrintSide(start, count, a + b) == PrintSide(start, count, a) + b
  {
    Associate(PrintCount(count), a, b);
    Associate(Decimal(start), PrintCount(count) + a, b);
  }

  /** The heading is the last part of the header. */
  lemma HeaderSplit(h: Hunk)
    ensures PrintHeader(h) == PrintHeader(h.(heading := "")) + h.heading
  {
    var t := h.heading;
    var bare := PrintSide(h.newStart, h.newCount, " " + ("@@" + ""));
    assert " " + ("@@" + t) == (" " + ("@@" + "")) + t;
    SideSplit(h.newStart, h.newCount, " " + ("@@" + ""), t);
    assert " " + ("+" + (bare + t)) == (" " + ("+" + bare)) + t;
    SideSplit(h.oldStart, h.oldCount, " " + ("+" + bare), t);
    var whole := PrintSide(h.oldStart, h.oldCount, " " + ("+" + bare));
    assert "@@" + (" " + ("-" + (whole + t))) == ("@@" + (" " + ("-" + whole))) + t;
  }

  lemma DigitsHaveNoBreak(s: string)
    requires forall i :: 0 <= i < |s| ==> IsDigit(s[i])
    ensures NoBreak(s)
  {
  }

  lemma SideIsPrintable(start: nat, count: Option<nat>, rest: string)
    requires NoBreak(rest)
    ensures NoBreak(PrintSide(start, count, rest))
  {
    DigitsHaveNoBreak(Decimal(start));
    if count.Some? {
      DigitsHaveNoBreak(Decimal(count.value));
      NoBreakConcat(",", Decimal(count.value));
    }
    NoBreakConcat(PrintCount(count), rest);
    NoBreakConcat(Decimal(start), PrintCount(count) + rest);
  }

  lemma HeaderIsPrintable(h: Hunk)
    requires NoBreak(h.heading)
    ensures NoBreak(PrintHeader(h))
  {
    var tail := " " + ("@@" + h.heading);
    NoBreakConcat("@@", h.heading);
    NoBreakConcat(" ", "@@" + h.heading);
    SideIsPrintable(h.newStart, h.newCount, tail);
    var newSide := PrintSide(h.newStart, h.newCount, tail);
    NoBreakConcat("+", newSide);
    NoBreakConcat(" ", "+" + newSide);
    SideIsPrintable(h.oldStart, h.oldCount, " " + ("+" + newSide));
    var oldSide := PrintSide(h.oldStart, h.oldCount, " " + ("+" + newSide));
    NoBreakConcat("-", oldSide);
    NoBreakConcat(" ", "-" + oldSide);
    NoBreakConcat("@@", " " + ("-" + oldSide));
  }

  lemma HeaderFields(h: Hunk)
    ensures Fields(PrintHeader(h)) == [PrintHeader(h.(heading := Head(h.heading)))] + LaterFields(h.heading)
  {
    var bare := h.(heading := "");
    HeaderSplit(h);
    HeaderSplit(h.(heading := Head(h.heading)));
    HeaderIsPrintable(bare);
    assert PrintHeader(bare) != "" by { HeaderBegins(PrintHeader(bare), PrintHeader(bare)[2..]); }
    PrefixedFields(PrintHeader(bare), h.heading);
  }

  lemma MarkedFields(d: DiffLine)
    requires !d.NoNewline?
    ensures Fields(PrintLine(d)) == [PrintLine(d.(text := Head(d.text)))] + LaterFields(d.text)
  {
    match d
    case Context(t) => FieldsCons(' ', t);
    case Added(t) => FieldsCons('+', t);
    case Removed(t) => FieldsCons('-', t);
  }

  lemma NoNewlineFields()
    ensures Fields(PrintLine(NoNewline)) == [PrintLine(NoNewline)]
  {
    OnlyField(PrintLine(NoNewline));
  }

  lemma ReadHeadAndLater(s: string, line: string, r: Reading, later: seq<string>)
    requires Fields(s) == [line] + later && Read(line) == r
    ensures Readings(s) == [r] + ReadAll(later)
  {
    ReadAllCons(line, r, later);
  }

  lemma HeaderLineReadings(h: Hunk)
    ensures Readings(PrintHeader(h)) == [Header(h.newStart)] + ReadAll(LaterFields(h.heading))
  {
    var head := h.(heading := Head(h.heading));
    HeaderFields(h);
    HeaderLineIsRead(head);
    ReadHeadAndLater(PrintHeader(h), PrintHeader(head), Header(h.newStart), LaterFields(h.heading));
  }

  lemma MarkedReadings(d: DiffLine)
    requires !d.NoNewline?
    ensures Readings(PrintLine(d)) == [ReadingOf(d.(text := Head(d.text)))] + ReadAll(LaterFields(d.text))
  {
    var head := d.(text := Head(d.text));
    MarkedFields(d);
    LineIsRead(head);
    ReadHeadAndLater(PrintLine(d), PrintLine(head), ReadingOf(head), LaterFields(d.text));
  }

  lemma NoNewlineReadings()
    ensures Readings(PrintLine(NoNewline)) == [Ignored] + ReadAll([])
  {
    NoNewlineFields();
    LineIsRead(NoNewline);
    ReadHeadAndLater(PrintLine(NoNewline), PrintLine(NoNewline), Ignored, []);
  }

  /** A line with breaks inside is read as its parts, the first by its mark. */
  lemma PatchLineIsRead(l: PatchLine)
    ensures Readings(PrintPatchLine(l)) == LineReadings(l)
  {
    match l
    case HeaderLine(h) => HeaderLineReadings(h);
    case BodyLine(d) =>
      if d.NoNewline? {
        NoNewlineReadings();
      } else {
        MarkedReadings(d);
      }
  }

  lemma HeaderLineIsRead(h: Hunk)
    ensures Read(PrintHeader(h)) == Header(h.newStart)
  {
    HeaderIsRead(h);
  }

  lemma {:induction false} LinesAreRead(lines: seq<PatchLine>)
    ensures ReadAll(AllFields(PrintLines(lines))) == PatchReadings(lines)
    decreases |lines|
  {
    if lines != [] {
      LinesAreRead(lines[1..]);
      PatchLineIsRead(lines[0]);
      assert PrintLines(lines)[1..] == PrintLines(lines[1..]);
      ReadAllConcat(Fields(PrintPatchLine(lines[0])), AllFields(PrintLines(lines[1..])));
    }
  }

  lemma PatchIsRead(o: Origin, hunks: seq<Hunk>, ends: seq<LineBreak>)
    requires Terminates(ends, |LinesOf(hunks)|)
    ensures Extract(o, PrintPatch(hunks, ends)) == ExtractReadings(RenderFor(o), PatchReadings(LinesOf(hunks)))
  {
    ExtractReadsFields(o, PrintPatch(hunks, ends));
    TerminatedFields(PrintLines(LinesOf(hunks)), ends);
    LinesAreRead(LinesOf(hunks));
  }

  // ----- readings as hunks ---------------------------------------------------------------------

  /** The readings before the next header, as lines of a hunk. */
  function LeadBody(readings: seq<Reading>): seq<DiffLine> {
    if readings == [] then []
    else
      match readings[0]
      case Header(_) => []
      case Plus(t) => [Added(t)] + LeadBody(readings[1..])
      case Space(t) => [Context(t)] + LeadBody(readings[1..])
      case FileName => LeadBody(readings[1..])
      case Ignored => LeadBody(readings[1..])
  }

  /** The hunks that the headers among the readings begin. */
  function HunksOf(readings: seq<Reading>): seq<Hunk> {
    if readings == [] then []
    else
      match readings[0]
      case Header(n) => [Hunk(0, None, n, None, "", LeadBody(readings[1..]))] + HunksOf(readings[1..])
      case _ => HunksOf(readings[1..])
  }

  /** The hunks the reader sees, where hunks were printed. */
  function AsRead(hunks: seq<Hunk>): seq<Hunk> {
    HunksOf(PatchReadings(LinesOf(hunks)))
  }

  /** The run being read, as lines of the new file. */
  predicate Pending(s: Scan, run: seq<NewLine>) {
    && s.lines == TextsOf(run)
    && (forall i :: 0 <= i < |run| ==> run[i].added)
    && (run != [] ==> s.start == run[0].number && s.last == run[|run| - 1].number)
  }

  /** A run without lines is no contribution. */
  ghost predicate SkipsNothing(render: Renderer) {
    forall start: nat, last: nat :: render([], start, last) == []
  }

  lemma FlushPending(render: Renderer, s: Scan, run: seq<NewLine>)
    requires Pending(s, run) && SkipsNothing(render)
    ensures FlushRun(render, s).found == s.found + OfRun(render, run)
  {
  }

  lemma {:induction false} RunLengthOf(run: seq<NewLine>, rest: seq<NewLine>)
    requires forall i :: 0 <= i < |run| ==> run[i].added
    requires rest != [] ==> !rest[0].added
    ensures RunLength(run + rest) == |run|
  {
    if run != [] {
      RunLengthOf(run[1..], rest);
      assert (run + rest)[1..] == run[1..] + rest;
    }
  }

  lemma RunThenRest(render: Renderer, run: seq<NewLine>, rest: seq<NewLine>)
    requires forall i :: 0 <= i < |run| ==> run[i].added
    requires rest != [] ==> !rest[0].added
    ensures OfRuns(render, Runs(run + rest)) == OfRun(render, run) + OfRuns(render, Runs(rest))
  {
    if run == [] {
      assert run + rest == rest;
    } else {
      RunLengthOf(run, rest);
      assert (run + rest)[..|run|] == run && (run + rest)[|run|..] == rest;
    }
  }

  /** What has been found so far, and what the pending run and the lines to come will add. */
  function Found(render: Renderer, s: Scan, run: seq<NewLine>, later: seq<NewLine>): seq<Contribution> {
    s.found + OfRuns(render, Runs(run + later))
  }

  lemma AddedIsPending(render: Renderer, s: Scan, run: seq<NewLine>, text: string)
    requires Pending(s, run)
    ensures Pending(ScanOne(render, s, Plus(text)), run + [NewLine(s.current, text, true)])
  {
  }

  lemma FoundAtAdded(render: Renderer, s: Scan, s': Scan, run: seq<NewLine>, line: NewLine, later: seq<NewLine>)
    requires s'.found == s.found
    ensures Found(render, s', run + [line], later) == Found(render, s, run, [line] + later)
  {
    Associate(run, [line], later);
  }

  lemma FoundAtContext(render: Renderer, s: Scan, run: seq<NewLine>, context: NewLine, later: seq<NewLine>)
    requires Pending(s, run) && SkipsNothing(render) && !context.added
    ensures Found(render, FlushRun(render, s), [], later) == Found(render, s, run, [context] + later)
  {
    FlushPending(render, s, run);
    RunThenRest(render, run, [context] + later);
    assert ([context] + later)[1..] == later && [] + later == later;
    Associate(s.found, OfRun(render, run), OfRuns(render, Runs(later)));
  }
  lemma NewSideHead(d: DiffLine, body: seq<DiffLine>, n: nat)
    requires d.Added? || d.Context?
    ensures NewSide([d] + body, n) == [NewLine(n, d.text, d.Added?)] + NewSide(body, n + 1)
  {
    assert ([d] + body)[1..] == body;
  }

  /** What the readings still give: the pending run and its hunk, and then the later hunks. */
  function StillFound(render: Renderer, s: Scan, run: seq<NewLine>, readings: seq<Reading>): seq<Contribution> {
    Found(render, s, run, NewSide(LeadBody(readings), s.current)) + OfHunks(render, HunksOf(readings))
  }

  lemma NothingLeft(render: Renderer, s: Scan, run: seq<NewLine>)
    requires Pending(s, run) && SkipsNothing(render)
    ensures FlushRun(render, ScanFrom(render, s, [])).found == StillFound(render, s, run, [])
  {
    FlushPending(render, s, run);
    RunThenRest(render, run, []);
  }

  lemma StillFoundAtHeader(render: Renderer, s: Scan, run: seq<NewLine>, n: nat, rest: seq<Reading>)
    requires Pending(s, run) && SkipsNothing(render)
    ensures StillFound(render, ScanOne(render, s, Header(n)), [], rest) == StillFound(render, s, run, [Header(n)] + rest)
  {
    hide Found, OfHunks, Pending, SkipsNothing;
    assert ([Header(n)] + rest)[1..] == rest;
    FoundAtHeader(render, s, run, n, LeadBody(rest), HunksOf(rest));
    NoNewSide(s.current);
  }

  lemma NoNewSide(n: nat)
    ensures NewSide([], n) == []
  {
  }

  lemma StillFoundAtPlus(render: Renderer, s: Scan, run: seq<NewLine>, t: string, rest: seq<Reading>)
    requires Pending(s, run)
    ensures var s', line := ScanOne(render, s, Plus(t)), NewLine(s.current, t, true);
            && Pending(s', run + [line])
            && StillFound(render, s', run + [line], rest) == StillFound(render, s, run, [Plus(t)] + rest)
  {
    hide Found, OfHunks, NewSide, Pending;
    assert ([Plus(t)] + rest)[1..] == rest;
    AddedIsPending(render, s, run, t);
    NewSideHead(Added(t), LeadBody(rest), s.current);
    FoundAtAdded(render, s, ScanOne(render, s, Plus(t)), run, NewLine(s.current, t, true),
                 NewSide(LeadBody(rest), s.current + 1));
  }

  lemma StillFoundAtSpace(render: Renderer, s: Scan, run: seq<NewLine>, t: string, rest: seq<Reading>)
    requires Pending(s, run) && SkipsNothing(render)
    ensures StillFound(render, ScanOne(render, s, Space(t)), [], rest) == StillFound(render, s, run, [Space(t)] + rest)
  {
    hide OfHunks, NewSide, Pending, SkipsNothing, OfRuns, Runs, OfRun;
    assert ([Space(t)] + rest)[1..] == rest;
    NewSideHead(Context(t), LeadBody(rest), s.current);
    FoundAtContext(render, s, run, NewLine(s.current, t, false), NewSide(LeadBody(rest), s.current + 1));
  }

  lemma StillFoundAtOther(render: Renderer, s: Scan, run: seq<NewLine>, r: Reading, rest: seq<Reading>)
    requires r.FileName? || r.Ignored?
    ensures ScanOne(render, s, r) == s && StillFound(render, s, run, rest) == StillFound(render, s, run, [r] + rest)
  {
    hide Found, OfHunks, NewSide;
    assert ([r] + rest)[1..] == rest;
  }

  lemma NothingPendingAfter(render: Renderer, s: Scan, r: Reading)
    requires r.Header? || r.Space?
    ensures Pending(ScanOne(render, s, r), [])
  {
  }

  /** Reading finds the runs of each hunk that is seen, and nothing across them. */
  lemma {:induction false} ScanReadings(render: Renderer, s: Scan, readings: seq<Reading>, run: seq<NewLine>)
    requires Pending(s, run) && SkipsNothing(render)
    ensures FlushRun(render, ScanFrom(render, s, readings)).found == StillFound(render, s, run, readings)
    decreases |readings|
  {
    hide *;
    if readings == [] {
      NothingLeft(render, s, run);
    } else {
      var r, rest := readings[0], readings[1..];
      var s' := ScanOne(render, s, r);
      assert readings == [r] + rest;
      ScanCons(render, s, r, rest);
      match r
      case Header(n) =>
        NothingPendingAfter(render, s, r);
        ScanReadings(render, s', rest, []);
        StillFoundAtHeader(render, s, run, n, rest);
      case Plus(t) =>
        StillFoundAtPlus(render, s, run, t, rest);
        ScanReadings(render, s', rest, run + [NewLine(s.current, t, true)]);
      case Space(t) =>
        NothingPendingAfter(render, s, r);
        ScanReadings(render, s', rest, []);
        StillFoundAtSpace(render, s, run, t, rest);
      case FileName =>
        StillFoundAtOther(render, s, run, r, rest);
        ScanReadings(render, s, rest, run);
      case Ignored =>
        StillFoundAtOther(render, s, run, r, rest);
        ScanReadings(render, s, rest, run);
    }
  }

  lemma NoRuns(render: Renderer)
    ensures OfRuns(render, Runs([])) == []
  {
  }

  lemma FoundAtHeader(render: Renderer, s: Scan, run: seq<NewLine>, n: nat, body: seq<DiffLine>, later: seq<Hunk>)
    requires Pending(s, run) && SkipsNothing(render)
    ensures var s' := ScanOne(render, s, Header(n));
            Found(render, s', [], NewSide(body, n)) + OfHunks(render, later)
              == Found(render, s, run, []) + OfHunks(render, [Hunk(0, None, n, None, "", body)] + later)
  {
    hide Runs, OfRuns, OfRun, NewSide, SkipsNothing;
    var h := Hunk(0, None, n, None, "", body);
    FlushPending(render, s, run);
    RunThenRest(render, run, []);
    NoRuns(render);
    assert ([h] + later)[1..] == later && ([h] + later)[0] == h;
    assert [] + NewSide(body, n) == NewSide(body, n);
    Associate(FlushRun(render, s).found, OfRuns(render, Runs(NewSide(body, n))), OfHunks(render, later));
  }

  lemma RenderSkipsNothing(o: Origin)
    ensures SkipsNothing(RenderFor(o))
  {
  }

  lemma NothingPending(render: Renderer, readings: seq<Reading>)
    requires SkipsNothing(render) && LeadBody(readings) == []
    ensures ExtractReadings(render, readings) == OfHunks(render, HunksOf(readings))
  {
    hide LeadBody, HunksOf, OfHunks;
    ScanReadings(render, NOTHING_SCANNED, readings, []);
    assert Found(render, NOTHING_SCANNED, [], []) == [];
  }

  lemma PatchBeginsWithHeader(hunks: seq<Hunk>)
    ensures LeadBody(PatchReadings(LinesOf(hunks))) == []
  {
    if hunks != [] {
      assert LinesOf(hunks)[0] == HeaderLine(hunks[0]);
      assert PatchReadings(LinesOf(hunks))[0] == Header(hunks[0].newStart);
    }
  }

  /**
    What is extracted from a printed patch, for every list of hunks, whatever characters their
    lines hold and however each line ends: the runs of added lines that no unchanged line
    separates, in order and with their numbers in the new file, of the hunks as they are read.
   */
  lemma ExtractionReadsPatches(o: Origin, hunks: seq<Hunk>, ends: seq<LineBreak>)
    requires Terminates(ends, |LinesOf(hunks)|)
    ensures Extract(o, PrintPatch(hunks, ends)) == Expected(o, AsRead(hunks))
  {
    PatchIsRead(o, hunks, ends);
    RenderSkipsNothing(o);
    PatchBeginsWithHeader(hunks);
    NothingPending(RenderFor(o), PatchReadings(LinesOf(hunks)));
  }
}
