/** The lines a commit added, read off a unified diff line by line. */
module DiffHunks {
  import opened Wrappers
  import opened Text
  import opened Lines
  import opened Decimals

  datatype Contribution = Contribution(
    commitSha: string, filePath: string, text: string, startLine: nat, endLine: nat)

  datatype Origin = Origin(commitSha: string, filePath: string)

  // ----- reading a hunk header ---------------------------------------------------------------

  function SkipSpaces(s: string): (r: string)
    ensures |r| <= |s|
  {
    LStrip(s)
  }

  /** The length of the leading run of digits. */
  function DigitRun(s: string): (n: nat)
    ensures n <= |s| && forall i :: 0 <= i < n ==> IsDigit(s[i])
    ensures n < |s| ==> !IsDigit(s[n])
  {
    if s == "" || !IsDigit(s[0]) then 0 else 1 + DigitRun(s[1..])
  }

  /** Digits, and after them optionally a comma and more digits. */
  datatype Range = Range(first: nat, rest: string)

  function ParseRange(s: string): Option<Range> {
    var n := DigitRun(s);
    if n == 0 then None
    else if n < |s| && s[n] == ',' then
      var m := DigitRun(s[n + 1..]);
      if m == 0 then None else Some(Range(Value(s[..n]), s[n + 1..][m..]))
    else Some(Range(Value(s[..n]), s[n..]))
  }

  /** At least one whitespace character, then the mark; what follows it. */
  function AfterMark(s: string, mark: string): Option<string> {
    if s == "" || !IsSpace(s[0]) || !StartsWith(SkipSpaces(s), mark) then None
    else Some(SkipSpaces(s)[|mark|..])
  }

  /** The first line number of the new side, if the line is a hunk header. */
  function ParseHeader(line: string): Option<nat> {
    if !StartsWith(line, "@@") then None
    else
      var minus := AfterMark(line[2..], "-");
      if minus.None? then None
      else
        var before := ParseRange(minus.value);
        if before.None? then None
        else
          var plus := AfterMark(before.value.rest, "+");
          if plus.None? then None
          else
            var after := ParseRange(plus.value);
            if after.None? || AfterMark(after.value.rest, "@@").None? then None
            else Some(after.value.first)
  }

  // ----- reading a patch ---------------------------------------------------------------------

  /** What the reader makes of a line. */
  datatype Reading = Header(first: nat) | FileName | Plus(text: string) | Space(text: string) | Ignored

  function Read(line: string): Reading {
    if ParseHeader(line).Some? then Header(ParseHeader(line).value)
    else if StartsWith(line, "+++") || StartsWith(line, "---") then FileName
    else if StartsWith(line, "+") then Plus(line[1..])
    else if StartsWith(line, " ") then Space(line[1..])
    else Ignored
  }

  function ReadAll(lines: seq<string>): seq<Reading> {
    if lines == [] then [] else [Read(lines[0])] + ReadAll(lines[1..])
  }

  /** The contributions so far, the current run, where it started, and the line numbers seen. */
  datatype Scan = Scan(found: seq<Contribution>, lines: seq<string>, start: nat, current: nat, last: nat)

  const NOTHING_SCANNED := Scan([], [], 0, 0, 0)

  function MaxNat(a: nat, b: nat): nat { if a > b then a else b }

  /** What becomes of a finished run: its lines, where it started, and its last line. */
  type Renderer = (seq<string>, nat, nat) -> seq<Contribution>

  /** A run of added lines, unless it is only whitespace. */
  function RunContribution(o: Origin, lines: seq<string>, start: nat, last: nat): seq<Contribution> {
    var text := Strip(JoinLines(lines));
    if text == "" then [] else [Contribution(o.commitSha, o.filePath, text, start, MaxNat(start, last))]
  }

  function RenderFor(o: Origin): Renderer {
    (lines: seq<string>, start: nat, last: nat) => RunContribution(o, lines, start, last)
  }

  function FlushRun(render: Renderer, s: Scan): Scan {
    Scan(s.found + render(s.lines, s.start, s.last), [], 0, s.current, 0)
  }

  function ScanOne(render: Renderer, s: Scan, r: Reading): Scan {
    match r
    case Header(first) => FlushRun(render, s).(current := first)
    case FileName => s
    case Plus(text) =>
      Scan(s.found, s.lines + [text], if s.lines == [] then s.current else s.start, s.current + 1, s.current)
    case Space(_) => FlushRun(render, s).(current := s.current + 1)
    case Ignored => s
  }

  function ScanFrom(render: Renderer, s: Scan, readings: seq<Reading>): Scan
    decreases |readings|
  {
    if readings == [] then s else ScanFrom(render, ScanOne(render, s, readings[0]), readings[1..])
  }

  /** str.replace("\r\n", "\n") */
  function UnifyBreaks(s: string): string
    decreases |s|
  {
    if |s| < 2 then s
    else if s[0] == '\r' && s[1] == '\n' then "\n" + UnifyBreaks(s[2..])
    else [s[0]] + UnifyBreaks(s[1..])
  }

  function ExtractReadings(render: Renderer, readings: seq<Reading>): seq<Contribution> {
    FlushRun(render, ScanFrom(render, NOTHING_SCANNED, readings)).found
  }

  function Extract(o: Origin, patch: string): seq<Contribution> {
    ExtractReadings(RenderFor(o), ReadAll(SplitLines(UnifyBreaks(patch))))
  }

  class PatchScanner {
    const origin: Origin
    var contributions: seq<Contribution>
    var lines: seq<string>
    var startLine: nat
    var currentLine: nat
    var lastAddedLine: nat

    function State(): Scan
      reads this
    {
      Scan(contributions, lines, startLine, currentLine, lastAddedLine)
    }

    constructor (origin: Origin)
      ensures this.origin == origin && State() == NOTHING_SCANNED
    {
      this.origin := origin;
      contributions, lines, startLine, currentLine, lastAddedLine := [], [], 0, 0, 0;
    }

    method Flush()
      modifies this
      ensures State() == FlushRun(RenderFor(origin), old(State()))
    {
      var found := Contribute();
      contributions := contributions + found;
      lines, startLine, lastAddedLine := [], 0, 0;
    }

    /** The contribution that the current run makes, if it makes one. */
    method Contribute() returns (found: seq<Contribution>)
      ensures found == RunContribution(origin, lines, startLine, lastAddedLine)
    {
      var text := Strip(JoinLines(lines));
      found := [];
      if text != "" {
        found := [Contribution(origin.commitSha, origin.filePath, text, startLine, MaxNat(startLine, lastAddedLine))];
      }
    }

    method Feed(line: string)
      modifies this
      ensures State() == ScanOne(RenderFor(origin), old(State()), Read(line))
    {
      hide Read;
      match Read(line)
      case Header(first) =>
        Flush();
        currentLine := first;
      case FileName =>
      case Plus(text) =>
        if lines == [] {
          startLine := currentLine;
        }
        lines := lines + [text];
        lastAddedLine := currentLine;
        currentLine := currentLine + 1;
      case Space(_) =>
        Flush();
        currentLine := currentLine + 1;
      case Ignored =>
    }
  }

  method ExtractAddedPatchHunks(commitSha: string, filePath: string, patch: string)
    returns (contributions: seq<Contribution>)
    ensures contributions == Extract(Origin(commitSha, filePath), patch)
  {
    var o := Origin(commitSha, filePath);
    var scanner := new PatchScanner(o);
    var lines := SplitLines(UnifyBreaks(patch));
    assert lines[0..] == lines;
    for i := 0 to |lines|
      invariant fresh(scanner) && scanner.origin == o
      invariant Extract(o, patch) == FinishFrom(o, scanner.State(), lines[i..])
    {
      FeedOne(o, scanner.State(), lines[i], lines[i + 1..]);
      assert lines[i..] == [lines[i]] + lines[i + 1..];
      scanner.Feed(lines[i]);
    }
    assert lines[|lines|..] == [];
    scanner.Flush();
    contributions := scanner.contributions;
  }

  /** What will have been found when the lines have been read. */
  function FinishFrom(o: Origin, s: Scan, lines: seq<string>): seq<Contribution> {
    FlushRun(RenderFor(o), ScanFrom(RenderFor(o), s, ReadAll(lines))).found
  }

  lemma ReadAllCons(line: string, r: Reading, lines: seq<string>)
    requires Read(line) == r
    ensures ReadAll([line] + lines) == [r] + ReadAll(lines)
  {
    hide Read;
    assert ([line] + lines)[1..] == lines;
  }

  lemma ScanCons(render: Renderer, s: Scan, r: Reading, readings: seq<Reading>)
    ensures ScanFrom(render, s, [r] + readings) == ScanFrom(render, ScanOne(render, s, r), readings)
  {
    assert ([r] + readings)[1..] == readings;
  }

  lemma FeedOne(o: Origin, s: Scan, line: string, lines: seq<string>)
    ensures FinishFrom(o, s, [line] + lines) == FinishFrom(o, ScanOne(RenderFor(o), s, Read(line)), lines)
  {
    hide Read;
    ReadAllCons(line, Read(line), lines);
    ScanCons(RenderFor(o), s, Read(line), ReadAll(lines));
  }
}
