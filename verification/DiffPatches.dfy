/**
  A unified diff as its lines, how it is printed, and what should be found in it: the runs of
  added lines in the new file that no unchanged line separates, numbered as in that file.
 */
module DiffPatches {
  import opened Wrappers
  import opened Text
  import opened Lines
  import opened Decimals
  import opened DiffHunks

  // ----- printing a patch ----------------------------------------------------------------------

  /** The lines of a hunk. Nothing is said about their texts: any character may be inside. */
  datatype DiffLine = Context(text: string) | Added(text: string) | Removed(text: string) | NoNewline

  /** The lengths of the two sides may be left out; the heading follows the header's second mark. */
  datatype Hunk = Hunk(
    oldStart: nat, oldCount: Option<nat>, newStart: nat, newCount: Option<nat>,
    heading: string, body: seq<DiffLine>)

  /** A line of a patch: the header of a hunk, or a line of its body. */
  datatype PatchLine = HeaderLine(hunk: Hunk) | BodyLine(line: DiffLine)

  function BodyLines(body: seq<DiffLine>): (lines: seq<PatchLine>)
    ensures |lines| == |body|
    ensures forall i :: 0 <= i < |lines| ==> lines[i] == BodyLine(body[i])
  {
    seq(|body|, i requires 0 <= i < |body| => BodyLine(body[i]))
  }

  function LinesOf(hunks: seq<Hunk>): seq<PatchLine> {
    if hunks == [] then [] else [HeaderLine(hunks[0])] + (BodyLines(hunks[0].body) + LinesOf(hunks[1..]))
  }

  function PrintCount(count: Option<nat>): string {
    if count.None? then "" else "," + Decimal(count.value)
  }

  function PrintSide(start: nat, count: Option<nat>, rest: string): string {
    Decimal(start) + (PrintCount(count) + rest)
  }

  function PrintHeader(h: Hunk): string {
    var newSide := PrintSide(h.newStart, h.newCount, " " + ("@@" + h.heading));
    "@@" + (" " + ("-" + PrintSide(h.oldStart, h.oldCount, " " + ("+" + newSide))))
  }

  function PrintLine(d: DiffLine): string {
    match d
    case Context(t) => " " + t
    case Added(t) => "+" + t
    case Removed(t) => "-" + t
    case NoNewline => "\\ No newline at end of file"
  }

  function PrintPatchLine(l: PatchLine): string {
    match l
    case HeaderLine(h) => PrintHeader(h)
    case BodyLine(d) => PrintLine(d)
  }

  function PrintLines(lines: seq<PatchLine>): (texts: seq<string>)
    ensures |texts| == |lines|
    ensures forall i :: 0 <= i < |texts| ==> texts[i] == PrintPatchLine(lines[i])
  {
    seq(|lines|, i requires 0 <= i < |lines| => PrintPatchLine(lines[i]))
  }

  datatype LineBreak = Lf | CrLf

  function BreakText(e: LineBreak): string {
    match e
    case Lf => "\n"
    case CrLf => "\r\n"
  }

  /** Every line has a line end of its own; the last line may go without one. */
  predicate Terminates(ends: seq<LineBreak>, lines: nat) {
    |ends| <= lines <= |ends| + 1
  }

  function Terminated(texts: seq<string>, ends: seq<LineBreak>): string
    requires Terminates(ends, |texts|)
  {
    if texts == [] then ""
    else if ends == [] then texts[0]
    else texts[0] + (BreakText(ends[0]) + Terminated(texts[1..], ends[1..]))
  }

  function PrintPatch(hunks: seq<Hunk>, ends: seq<LineBreak>): string
    requires Terminates(ends, |LinesOf(hunks)|)
  {
    Terminated(PrintLines(LinesOf(hunks)), ends)
  }

  // ----- what should be found ------------------------------------------------------------------

  datatype NewLine = NewLine(number: nat, text: string, added: bool)

  /** The lines of the new file that a hunk shows, with their numbers. */
  function NewSide(body: seq<DiffLine>, number: nat): seq<NewLine> {
    if body == [] then []
    else
      match body[0]
      case Context(t) => [NewLine(number, t, false)] + NewSide(body[1..], number + 1)
      case Added(t) => [NewLine(number, t, true)] + NewSide(body[1..], number + 1)
      case Removed(_) => NewSide(body[1..], number)
      case NoNewline => NewSide(body[1..], number)
  }

  function RunLength(lines: seq<NewLine>): (n: nat)
    ensures n <= |lines|
  {
    if lines == [] || !lines[0].added then 0 else 1 + RunLength(lines[1..])
  }

  /** The runs of added lines that no unchanged line separates. */
  function Runs(lines: seq<NewLine>): seq<seq<NewLine>>
    decreases |lines|
  {
    if lines == [] then []
    else if !lines[0].added then Runs(lines[1..])
    else [lines[..RunLength(lines)]] + Runs(lines[RunLength(lines)..])
  }

  function TextsOf(run: seq<NewLine>): (texts: seq<string>)
    ensures |texts| == |run|
    ensures forall i :: 0 <= i < |texts| ==> texts[i] == run[i].text
  {
    seq(|run|, i requires 0 <= i < |run| => run[i].text)
  }

  /** A run as a contribution: its text, and the numbers of its first and last line. */
  function OfRun(render: Renderer, run: seq<NewLine>): seq<Contribution> {
    if run == [] then [] else render(TextsOf(run), run[0].number, run[|run| - 1].number)
  }

  function OfRuns(render: Renderer, runs: seq<seq<NewLine>>): seq<Contribution> {
    if runs == [] then [] else OfRun(render, runs[0]) + OfRuns(render, runs[1..])
  }

  function OfHunks(render: Renderer, hunks: seq<Hunk>): seq<Contribution> {
    if hunks == [] then []
    else OfRuns(render, Runs(NewSide(hunks[0].body, hunks[0].newStart))) + OfHunks(render, hunks[1..])
  }

  function Expected(o: Origin, hunks: seq<Hunk>): seq<Contribution> {
    OfHunks(RenderFor(o), hunks)
  }

  // ----- what runs are -------------------------------------------------------------------------

  /** Added lines of the new file, one after the other, with no added line just before or after. */
  predicate IsMaximalRun(lines: seq<NewLine>, a: nat, b: nat) {
    && a < b <= |lines|
    && (forall i :: a <= i < b ==> lines[i].added)
    && (a > 0 ==> !lines[a - 1].added)
    && (b < |lines| ==> !lines[b].added)
  }

  lemma {:induction false} NewSideIsNumbered(body: seq<DiffLine>, n: nat, k: nat)
    requires k < |NewSide(body, n)|
    ensures NewSide(body, n)[k].number == n + k
    decreases |body|
  {
    if body[0].Removed? || body[0].NoNewline? {
      NewSideIsNumbered(body[1..], n, k);
    } else if k > 0 {
      NewSideIsNumbered(body[1..], n + 1, k - 1);
    }
  }

  lemma {:induction false} RunLengthIs(lines: seq<NewLine>)
    ensures forall i :: 0 <= i < RunLength(lines) ==> lines[i].added
    ensures RunLength(lines) < |lines| ==> !lines[RunLength(lines)].added
  {
    if lines != [] && lines[0].added {
      RunLengthIs(lines[1..]);
    }
  }

  /** Every run is a maximal one, and where it lies is told by its first number. */
  lemma {:induction false} RunsAreMaximal(
    lines: seq<NewLine>, p: nat, runs: seq<seq<NewLine>>, k: nat) returns (a: nat, b: nat)
    requires p <= |lines| && (p == |lines| || p == 0 || !lines[p - 1].added || !lines[p].added)
    requires runs == Runs(lines[p..]) && k < |runs|
    ensures IsMaximalRun(lines, a, b) && runs[k] == lines[a..b]
    decreases |lines| - p
  {
    if p == |lines| {
      NoRunAtEnd(lines);
    } else if !lines[p].added {
      RunsSkip(lines, p);
      a, b := RunsAreMaximal(lines, p + 1, runs, k);
    } else {
      var later: seq<seq<NewLine>>;
      b, later := FirstRun(lines, p, runs);
      a := p;
      if k > 0 {
        a, b := RunsAreMaximal(lines, b, later, k - 1);
      }
    }
  }

  lemma FirstRun(lines: seq<NewLine>, p: nat, runs: seq<seq<NewLine>>) returns (end: nat, later: seq<seq<NewLine>>)
    requires p < |lines| && lines[p].added && (p > 0 ==> !lines[p - 1].added)
    requires runs == Runs(lines[p..])
    ensures IsMaximalRun(lines, p, end) && later == Runs(lines[end..])
    ensures |runs| == |later| + 1 && runs[0] == lines[p..end] && forall k :: 0 < k < |runs| ==> runs[k] == later[k - 1]
  {
    var n := RunLength(lines[p..]);
    FirstRunIsMaximal(lines, p, n);
    end, later := p + n, Runs(lines[p + n..]);
  }

  lemma NoRunAtEnd(lines: seq<NewLine>)
    ensures Runs(lines[|lines|..]) == []
  {
  }

  lemma RunsSkip(lines: seq<NewLine>, p: nat)
    requires p < |lines| && !lines[p].added
    ensures Runs(lines[p..]) == Runs(lines[p + 1..])
  {
    assert lines[p..][1..] == lines[p + 1..];
  }

  lemma FirstRunIsMaximal(lines: seq<NewLine>, p: nat, n: nat)
    requires p < |lines| && lines[p].added && (p > 0 ==> !lines[p - 1].added)
    requires n == RunLength(lines[p..])
    ensures 0 < n && p + n <= |lines| && IsMaximalRun(lines, p, p + n)
    ensures Runs(lines[p..]) == [lines[p..p + n]] + Runs(lines[p + n..])
  {
    var tail := lines[p..];
    RunLengthIs(tail);
    forall i | p <= i < p + n ensures lines[i].added { assert lines[i] == tail[i - p]; }
    if p + n < |lines| {
      assert lines[p + n] == tail[n];
    }
    assert tail[..n] == lines[p..p + n] && tail[n..] == lines[p + n..];
  }

  /**
    A contribution is made from a maximal run of added lines of the new file: it starts at the
    number of its first line and ends at the number of its last.
   */
  lemma RunsOfHunk(render: Renderer, body: seq<DiffLine>, n: nat, k: nat) returns (a: nat, b: nat)
    requires k < |Runs(NewSide(body, n))|
    ensures IsMaximalRun(NewSide(body, n), a, b)
    ensures OfRun(render, Runs(NewSide(body, n))[k]) == render(TextsOf(NewSide(body, n)[a..b]), n + a, n + b - 1)
  {
    var lines := NewSide(body, n);
    assert lines[0..] == lines;
    a, b := RunsAreMaximal(lines, 0, Runs(lines), k);
    NewSideIsNumbered(body, n, a);
    NewSideIsNumbered(body, n, b - 1);
    SliceEnds(lines, a, b);
  }

  lemma SliceEnds(lines: seq<NewLine>, a: nat, b: nat)
    requires a < b <= |lines|
    ensures |lines[a..b]| == b - a && lines[a..b][0] == lines[a] && lines[a..b][b - a - 1] == lines[b - 1]
  {
  }

  /** The added lines, in order. */
  function AddedOnly(lines: seq<NewLine>): seq<NewLine> {
    if lines == [] then [] else (if lines[0].added then [lines[0]] else []) + AddedOnly(lines[1..])
  }

  lemma SlicesOfTail<T>(s: seq<T>, n: nat)
    requires 0 < n <= |s|
    ensures s[..n] == [s[0]] + s[1..][..n - 1] && s[n..] == s[1..][n - 1..]
  {
  }

  lemma {:induction false} AddedAtFront(lines: seq<NewLine>, n: nat)
    requires n == RunLength(lines)
    ensures AddedOnly(lines) == lines[..n] + AddedOnly(lines[n..])
  {
    if n == 0 {
      assert lines[n..] == lines && lines[..n] == [];
    } else {
      var tail := lines[1..];
      AddedAtFront(tail, n - 1);
      SlicesOfTail(lines, n);
      Associate([lines[0]], tail[..n - 1], AddedOnly(lines[n..]));
    }
  }

  /** The runs hold every added line once, in order: no run is left out, cut or repeated. */
  lemma {:induction false} RunsHoldAllAdded(lines: seq<NewLine>)
    ensures Flatten(Runs(lines)) == AddedOnly(lines)
    decreases |lines|
  {
    if lines == [] {
    } else if !lines[0].added {
      RunsHoldAllAdded(lines[1..]);
    } else {
      var n := RunLength(lines);
      RunsHoldAllAdded(lines[n..]);
      AddedAtFront(lines, n);
      FlattenCons(lines[..n], Runs(lines[n..]));
    }
  }
}
