/**
  Reading a patch step by step, beside reading what its lines mean. While no line holds a blank
  after a break inside, the two stay in step; such a line ends the run and shifts the numbers,
  and that shows if and only if a run that says something ends later in the hunk.
 */
module DiffSteps {
  import opened Wrappers
  import opened Text
  import opened Lines
  import opened DiffHunks
  import opened DiffPatches
  import opened DiffReading
  import opened DiffMeaning
  import opened DiffInk

  // ----- contributions alike -------------------------------------------------------------------

  /** A contribution up to whitespace: its place, and its lines that say something. */
  datatype Gist = Gist(commitSha: string, filePath: string, startLine: nat, endLine: nat, rows: seq<string>)

  function GistOf(c: Contribution): Gist {
    Gist(c.commitSha, c.filePath, c.startLine, c.endLine, Rows(c.text))
  }

  function Gists(found: seq<Contribution>): (gists: seq<Gist>)
    ensures |gists| == |found|
  {
    if found == [] then [] else [GistOf(found[0])] + Gists(found[1..])
  }

  /** Equal up to whitespace. */
  predicate AllAlike(a: seq<Contribution>, b: seq<Contribution>) {
    Gists(a) == Gists(b)
  }

  lemma {:induction false} GistsConcat(a: seq<Contribution>, b: seq<Contribution>)
    ensures Gists(a + b) == Gists(a) + Gists(b)
  {
    hide Rows, GistOf;
    if a == [] {
      assert a + b == b;
    } else {
      GistsConcat(a[1..], b);
      assert (a + b)[0] == a[0] && (a + b)[1..] == a[1..] + b;
      Associate([GistOf(a[0])], Gists(a[1..]), Gists(b));
    }
  }

  lemma {:induction false} GistAt(found: seq<Contribution>, i: nat)
    requires i < |found|
    ensures Gists(found)[i] == GistOf(found[i])
  {
    hide Rows, GistOf;
    if i > 0 {
      GistAt(found[1..], i - 1);
    }
  }

  lemma AlikeConcat(a: seq<Contribution>, b: seq<Contribution>, c: seq<Contribution>, d: seq<Contribution>)
    requires AllAlike(a, b) && AllAlike(c, d)
    ensures AllAlike(a + c, b + d)
  {
    GistsConcat(a, c);
    GistsConcat(b, d);
  }

  /** The two lists place one of their contributions differently. */
  predicate PartAt(a: seq<Contribution>, b: seq<Contribution>, i: nat) {
    i < |a| && i < |b| && (a[i].startLine != b[i].startLine || a[i].endLine != b[i].endLine)
  }

  lemma PartsAreNotAlike(a: seq<Contribution>, b: seq<Contribution>, i: nat)
    requires PartAt(a, b, i)
    ensures !AllAlike(a, b)
  {
    GistAt(a, i);
    GistAt(b, i);
  }

  // ----- runs become contributions -------------------------------------------------------------

  predicate Rendered(o: Origin, lines: seq<string>, start: nat, last: nat, found: seq<Contribution>) {
    if RowsAll(lines) == [] then found == []
    else
      && |found| == 1
      && GistOf(found[0]) == Gist(o.commitSha, o.filePath, start, MaxNat(start, last), RowsAll(lines))
  }

  ghost predicate Faithful(o: Origin, render: Renderer) {
    forall lines: seq<string>, start: nat, last: nat ::
      Rendered(o, lines, start, last, render(lines, start, last))
  }

  lemma NoRowsIffBlank(s: string)
    ensures Rows(s) == [] <==> Blank(s)
  {
    if Blank(s) {
      RowsOfSpace(s);
    }
    RowsCarryInk(s);
    InkOfSpace(s);
  }

  lemma RunIsRendered(o: Origin, lines: seq<string>, start: nat, last: nat)
    ensures Rendered(o, lines, start, last, RunContribution(o, lines, start, last))
  {
    var text := Strip(JoinLines(lines));
    RowsJoinLines(lines);
    RowsStrip(JoinLines(lines));
    NoRowsIffBlank(JoinLines(lines));
    BlankIsStrippedEmpty(JoinLines(lines));
  }

  lemma RenderIsFaithful(o: Origin)
    ensures Faithful(o, RenderFor(o))
  {
    forall lines: seq<string>, start: nat, last: nat
      ensures Rendered(o, lines, start, last, RenderFor(o)(lines, start, last))
    {
      RunIsRendered(o, lines, start, last);
    }
  }

  // ----- one reader ----------------------------------------------------------------------------

  /** The pending run says something. */
  predicate Inked(s: Scan) {
    RowsAll(s.lines) != []
  }

  predicate Ordered(s: Scan) {
    s.lines != [] ==> s.start <= s.last < s.current
  }

  /** What will have been found at the end. */
  function Ends(render: Renderer, s: Scan, readings: seq<Reading>): seq<Contribution> {
    FlushRun(render, ScanFrom(render, s, readings)).found
  }

  lemma Flushed(o: Origin, render: Renderer, s: Scan)
    requires Faithful(o, render)
    ensures Rendered(o, s.lines, s.start, s.last, render(s.lines, s.start, s.last))
    ensures FlushRun(render, s).found == s.found + render(s.lines, s.start, s.last)
    ensures !Inked(s) ==> FlushRun(render, s).found == s.found
    ensures !Inked(FlushRun(render, s)) && Ordered(FlushRun(render, s))
    ensures FlushRun(render, FlushRun(render, s)).found == FlushRun(render, s).found
  {
    var s1 := FlushRun(render, s);
    assert Rendered(o, s1.lines, s1.start, s1.last, render(s1.lines, s1.start, s1.last));
  }

  lemma OneMoreLine(s: Scan, text: string)
    ensures RowsAll(s.lines + [text]) == RowsAll(s.lines) + Rows(text)
    ensures RowsAll(s.lines + [text]) == [] <==> RowsAll(s.lines) == [] && Blank(text)
  {
    RowsAllSnoc(s.lines, text);
    NoRowsIffBlank(text);
  }

  /** Contributions stay, and a pending run that says something becomes the next one. */
  lemma {:induction false} PendingBecomes(o: Origin, render: Renderer, s: Scan, readings: seq<Reading>)
    requires Faithful(o, render) && Ordered(s)
    ensures s.found <= Ends(render, s, readings)
    ensures Inked(s) ==>
      && |s.found| < |Ends(render, s, readings)|
      && Ends(render, s, readings)[|s.found|].startLine == s.start
      && Ends(render, s, readings)[|s.found|].endLine >= s.last
    decreases |readings|
  {
    hide Rows, RowsAll;
    Flushed(o, render, s);
    if readings != [] {
      var r := readings[0];
      PendingBecomes(o, render, ScanOne(render, s, r), readings[1..]);
      if r.Plus? {
        OneMoreLine(s, r.text);
      }
    }
  }

  // ----- what follows a break inside -----------------------------------------------------------

  predicate Harmless(readings: seq<Reading>) {
    forall i :: 0 <= i < |readings| ==> !readings[i].Plus? && !readings[i].Header?
  }

  function Spaces(readings: seq<Reading>): nat {
    if readings == [] then 0 else (if readings[0].Space? then 1 else 0) + Spaces(readings[1..])
  }

  /** The run ends here, and the lines after it are numbered too high. */
  function Shifted(render: Renderer, s: Scan, jumps: nat): Scan {
    if jumps == 0 then s else FlushRun(render, s).(current := s.current + jumps)
  }

  lemma ShiftedTwice(o: Origin, render: Renderer, s: Scan, jumps: nat)
    requires Faithful(o, render)
    ensures Shifted(render, Shifted(render, s, 1), jumps) == Shifted(render, s, 1 + jumps)
  {
    Flushed(o, render, s);
    Flushed(o, render, Shifted(render, s, 1));
  }

  lemma {:induction false} ScanHarmless(o: Origin, render: Renderer, s: Scan, readings: seq<Reading>)
    requires Faithful(o, render) && Harmless(readings)
    ensures ScanFrom(render, s, readings) == Shifted(render, s, Spaces(readings))
    decreases |readings|
  {
    if readings != [] {
      var r, rest := readings[0], readings[1..];
      assert Harmless(rest) by {
        forall i | 0 <= i < |rest| ensures !rest[i].Plus? && !rest[i].Header? { assert rest[i] == readings[i + 1]; }
      }
      ScanHarmless(o, render, ScanOne(render, s, r), rest);
      if r.Space? {
        ShiftedTwice(o, render, s, Spaces(rest));
      }
    }
  }

  lemma {:induction false} ScanConcat(render: Renderer, s: Scan, a: seq<Reading>, b: seq<Reading>)
    ensures ScanFrom(render, s, a + b) == ScanFrom(render, ScanFrom(render, s, a), b)
    decreases |a|
  {
    if a == [] {
      assert a + b == b;
    } else {
      ScanConcat(render, ScanOne(render, s, a[0]), a[1..], b);
      assert (a + b)[0] == a[0] && (a + b)[1..] == a[1..] + b;
    }
  }

  /** What follows a break inside the line is read as an unchanged line of its own. */
  predicate Shifts(l: PatchLine) {
    Spaces(Later(l)) > 0
  }

  predicate Whole(l: PatchLine) {
    Intact(l) && Innocent(l)
  }

  predicate AllWhole(lines: seq<PatchLine>) {
    forall i :: 0 <= i < |lines| ==> Whole(lines[i])
  }

  lemma BlankIsHarmless(f: string)
    requires Blank(f)
    ensures !Read(f).Plus? && !Read(f).Header?
  {
    if f == "" {
      EmptyIsIgnored();
    } else {
      NoHeader(f);
      OtherMark(f, "+");
    }
  }

  lemma WholeIsHarmless(l: PatchLine)
    requires Whole(l)
    ensures Harmless(Later(l))
  {
    if l.BodyLine? && l.line.Added? {
      var fields := LaterFields(l.line.text);
      ReadAllLength(fields);
      forall i | 0 <= i < |Later(l)| ensures !Later(l)[i].Plus? && !Later(l)[i].Header? {
        ReadAllAt(fields, i);
        BlankIsHarmless(fields[i]);
      }
    }
  }

  /** The scan after a line of a patch. */
  function AfterLine(render: Renderer, s: Scan, l: PatchLine): Scan {
    Shifted(render, ScanOne(render, s, First(l)), Spaces(Later(l)))
  }

  lemma LineIsScanned(o: Origin, render: Renderer, s: Scan, l: PatchLine, rest: seq<PatchLine>)
    requires Faithful(o, render) && Whole(l)
    ensures Ends(render, s, PatchReadings([l] + rest)) == Ends(render, AfterLine(render, s, l), PatchReadings(rest))
  {
    var s1 := ScanOne(render, s, First(l));
    assert ([l] + rest)[1..] == rest;
    WholeIsHarmless(l);
    ScanConcat(render, s, [First(l)] + Later(l), PatchReadings(rest));
    ScanCons(render, s, First(l), Later(l));
    ScanHarmless(o, render, s1, Later(l));
  }

  lemma MeaningIsScanned(render: Renderer, s: Scan, l: PatchLine, rest: seq<PatchLine>)
    ensures Ends(render, s, MeantReadings([l] + rest)) == Ends(render, ScanOne(render, s, Meant(l)), MeantReadings(rest))
  {
    MeantCons(l, rest);
    ScanCons(render, s, Meant(l), MeantReadings(rest));
  }

  // ----- in step -------------------------------------------------------------------------------

  /**
    An added line is still to come in this hunk that belongs to a run which says something;
    `ink` is whether the pending run does.
   */
  predicate Tells(ink: bool, lines: seq<PatchLine>)
    decreases |lines|
  {
    lines != [] && lines[0].BodyLine? &&
      match lines[0].line
      case Added(t) => ink || !Blank(t) || Tells(false, lines[1..])
      case Context(_) => Tells(false, lines[1..])
      case Removed(_) => Tells(ink, lines[1..])
      case NoNewline => Tells(ink, lines[1..])
  }

  /** Whether the pending run says something after the line. */
  predicate InkAfter(ink: bool, l: PatchLine) {
    l.BodyLine? && !l.line.Context? && (ink || (l.line.Added? && !Blank(l.line.text)))
  }

  /** No line that shifts the numbers is followed in its hunk by the end of a run that says something. */
  predicate Calm(ink: bool, lines: seq<PatchLine>)
    decreases |lines|
  {
    lines != [] ==>
      && (Shifts(lines[0]) ==> !Tells(InkAfter(ink, lines[0]), lines[1..]))
      && Calm(InkAfter(ink, lines[0]), lines[1..])
  }

  predicate InStep(a: Scan, b: Scan) {
    && AllAlike(a.found, b.found)
    && RowsAll(a.lines) == RowsAll(b.lines) && (a.lines == [] <==> b.lines == [])
    && a.start == b.start && a.current == b.current && a.last == b.last
  }

  lemma OneGist(c: Contribution)
    ensures Gists([c]) == [GistOf(c)]
  {
  }

  lemma RenderedAlike(
    o: Origin, a: seq<string>, b: seq<string>, start: nat, last: nat, x: seq<Contribution>, y: seq<Contribution>)
    requires RowsAll(a) == RowsAll(b) && Rendered(o, a, start, last, x) && Rendered(o, b, start, last, y)
    ensures AllAlike(x, y)
  {
    if RowsAll(a) != [] {
      OneGist(x[0]);
      OneGist(y[0]);
      assert x == [x[0]] && y == [y[0]];
    }
  }

  lemma FlushInStep(o: Origin, render: Renderer, a: Scan, b: Scan)
    requires Faithful(o, render) && InStep(a, b)
    ensures InStep(FlushRun(render, a), FlushRun(render, b))
  {
    Flushed(o, render, a);
    Flushed(o, render, b);
    RenderedAlike(o, a.lines, b.lines, a.start, a.last, render(a.lines, a.start, a.last), render(b.lines, b.start, b.last));
    AlikeConcat(a.found, b.found, render(a.lines, a.start, a.last), render(b.lines, b.start, b.last));
  }

  lemma {:induction false} BlankFieldsHaveNoRows(s: string)
    requires AllBlank(Fields(s))
    ensures Rows(s) == []
  {
    NoRowsIffBlank(s);
    FieldsCarryInk(s);
    ReadingsLoseInk(Fields(s));
    InkLengthIs(Fields(s));
    InkOfSpace(s);
  }

  /** What an added line says is in its first line, if nothing but blanks follow a break inside. */
  lemma HeadRows(t: string)
    requires AllBlank(LaterFields(t))
    ensures Rows(Head(t)) == Rows(t)
  {
    var n := LineEnd(t);
    if n == |t| {
      assert Head(t) == t;
    } else {
      BlankFieldsHaveNoRows(t[n + 1..]);
      RowsOfLine(Head(t));
      RowsSplit(t, n);
    }
  }

  lemma AddedInStep(a: Scan, b: Scan, t: string, a': Scan, b': Scan)
    requires InStep(a, b) && Ordered(b) && AllBlank(LaterFields(t))
    requires a' == Scan(a.found, a.lines + [Head(t)], if a.lines == [] then a.current else a.start, a.current + 1, a.current)
    requires b' == Scan(b.found, b.lines + [t], if b.lines == [] then b.current else b.start, b.current + 1, b.current)
    ensures InStep(a', b') && Ordered(b') && (Inked(b') <==> Inked(b) || !Blank(t))
  {
    HeadRows(t);
    OneMoreLine(a, Head(t));
    OneMoreLine(b, t);
  }

  /** What a line that is not added does, by its first reading as by its meaning. */
  function Passed(render: Renderer, s: Scan, l: PatchLine): Scan {
    if l.HeaderLine? then FlushRun(render, s).(current := l.hunk.newStart)
    else if l.line.Context? then FlushRun(render, s).(current := s.current + 1)
    else s
  }

  lemma OthersPass(render: Renderer, s: Scan, l: PatchLine)
    requires !(l.BodyLine? && l.line.Added?)
    ensures ScanOne(render, s, First(l)) == Passed(render, s, l)
    ensures ScanOne(render, s, Meant(l)) == Passed(render, s, l)
  {
  }

  lemma PassedInStep(o: Origin, render: Renderer, a: Scan, b: Scan, l: PatchLine)
    requires Faithful(o, render) && InStep(a, b) && Ordered(b) && !(l.BodyLine? && l.line.Added?)
    ensures InStep(Passed(render, a, l), Passed(render, b, l)) && Ordered(Passed(render, b, l))
    ensures Inked(Passed(render, b, l)) <==> InkAfter(Inked(b), l)
  {
    FlushInStep(o, render, a, b);
    Flushed(o, render, b);
  }

  /** Before anything after a break inside, reading keeps in step with the meaning. */
  lemma FirstInStep(o: Origin, render: Renderer, a: Scan, b: Scan, l: PatchLine)
    requires Faithful(o, render) && InStep(a, b) && Ordered(b) && Whole(l)
    ensures var a', b' := ScanOne(render, a, First(l)), ScanOne(render, b, Meant(l));
            InStep(a', b') && Ordered(b') && (Inked(b') <==> InkAfter(Inked(b), l))
  {
    if l.BodyLine? && l.line.Added? {
      FirstOfAdded(l.line.text);
      AddedInStep(a, b, l.line.text, ScanOne(render, a, First(l)), ScanOne(render, b, Meant(l)));
    } else {
      OthersPass(render, a, l);
      OthersPass(render, b, l);
      PassedInStep(o, render, a, b, l);
    }
  }

  // ----- out of step ---------------------------------------------------------------------------

  /** The reader is ahead in its numbers, and in a run that says something it has already let go. */
  predicate Ahead(a: Scan, b: Scan) {
    && a.current > b.current && !Inked(a) && Ordered(a) && Ordered(b)
    && if Inked(b) then |a.found| == |b.found| + 1 && a.found[|b.found|].endLine < b.current
       else |a.found| == |b.found| && (a.lines != [] ==> b.lines != [] && b.start < a.start)
  }

  lemma AlikeSameLength(a: seq<Contribution>, b: seq<Contribution>)
    requires AllAlike(a, b)
    ensures |a| == |b|
  {
  }

  /** A shift takes the reader out of step. */
  lemma ShiftGoesAhead(o: Origin, render: Renderer, a: Scan, b: Scan, jumps: nat)
    requires Faithful(o, render) && InStep(a, b) && Ordered(b) && jumps > 0
    ensures Ahead(Shifted(render, a, jumps), b)
  {
    Flushed(o, render, a);
    AlikeSameLength(a.found, b.found);
  }

  lemma StillAhead(o: Origin, render: Renderer, a: Scan, b: Scan, jumps: nat)
    requires Faithful(o, render) && Ahead(a, b)
    ensures Ahead(Shifted(render, a, jumps), b)
  {
    Flushed(o, render, a);
  }

  lemma ContextStaysAhead(o: Origin, render: Renderer, a: Scan, b: Scan)
    requires Faithful(o, render) && Ahead(a, b)
    ensures Ahead(FlushRun(render, a).(current := a.current + 1), FlushRun(render, b).(current := b.current + 1))
    ensures !Inked(FlushRun(render, b))
  {
    Flushed(o, render, a);
    Flushed(o, render, b);
  }

  lemma BlankStaysAhead(a: Scan, b: Scan, t: string, a': Scan, b': Scan)
    requires Ahead(a, b) && !Inked(b) && Blank(t) && AllBlank(LaterFields(t))
    requires a' == Scan(a.found, a.lines + [Head(t)], if a.lines == [] then a.current else a.start, a.current + 1, a.current)
    requires b' == Scan(b.found, b.lines + [t], if b.lines == [] then b.current else b.start, b.current + 1, b.current)
    ensures Ahead(a', b') && !Inked(b')
  {
    HeadRows(t);
    NoRowsIffBlank(t);
    NoRowsIffBlank(Head(t));
    OneMoreLine(a, Head(t));
    OneMoreLine(b, t);
  }

  lemma FirstIsScanned(render: Renderer, s: Scan, l: PatchLine, rest: seq<PatchLine>)
    ensures Ends(render, s, PatchReadings([l] + rest))
         == Ends(render, ScanOne(render, s, First(l)), Later(l) + PatchReadings(rest))
  {
    assert ([l] + rest)[1..] == rest;
    Associate([First(l)], Later(l), PatchReadings(rest));
    ScanCons(render, s, First(l), Later(l) + PatchReadings(rest));
  }

  lemma AddedToRun(s: Scan, text: string, s': Scan)
    requires Ordered(s)
    requires s' == Scan(s.found, s.lines + [text], if s.lines == [] then s.current else s.start, s.current + 1, s.current)
    ensures Ordered(s') && (Inked(s') <==> Inked(s) || !Blank(text))
  {
    OneMoreLine(s, text);
  }

  /** The run goes on in the meaning, but not in the contribution already found. */
  lemma EndsDiffer(o: Origin, render: Renderer, a: Scan, b: Scan, b': Scan, ra: seq<Reading>, rb: seq<Reading>)
    requires Faithful(o, render) && Ahead(a, b) && Inked(b)
    requires Ordered(b') && Inked(b') && b'.found == b.found && b'.last == b.current
    ensures PartAt(Ends(render, a, ra), Ends(render, b', rb), |b.found|)
  {
    PendingBecomes(o, render, a, ra);
    PendingBecomes(o, render, b', rb);
    assert Ends(render, a, ra)[|b.found|] == a.found[|b.found|];
  }

  /** The next run starts with a number that is too high. */
  lemma StartsDiffer(o: Origin, render: Renderer, a: Scan, b: Scan, ra: seq<Reading>, rb: seq<Reading>)
    requires Faithful(o, render) && Ordered(a) && Ordered(b) && Inked(a) && Inked(b)
    requires |a.found| == |b.found| && a.start > b.start
    ensures PartAt(Ends(render, a, ra), Ends(render, b, rb), |b.found|)
  {
    PendingBecomes(o, render, a, ra);
    PendingBecomes(o, render, b, rb);
  }

  lemma AddedParts(o: Origin, render: Renderer, a: Scan, b: Scan, t: string, rest: seq<PatchLine>)
    requires Faithful(o, render) && Ahead(a, b) && Whole(BodyLine(Added(t))) && (Inked(b) || !Blank(t))
    ensures var lines := [BodyLine(Added(t))] + rest;
            PartAt(Ends(render, a, PatchReadings(lines)), Ends(render, b, MeantReadings(lines)), |b.found|)
  {
    hide Ends, PartAt, Rows, RowsAll, PatchReadings, MeantReadings, Read, Blank, Later;
    var l := BodyLine(Added(t));
    var b' := ScanOne(render, b, Meant(l));
    MeaningIsScanned(render, b, l, rest);
    AddedToRun(b, t, b');
    if Inked(b) {
      EndsDiffer(o, render, a, b, b', PatchReadings([l] + rest), MeantReadings(rest));
    } else {
      FirstOfAdded(t);
      AddedStarts(a, t, ScanOne(render, a, First(l)));
      FirstIsScanned(render, a, l, rest);
      StartsDiffer(o, render, ScanOne(render, a, First(l)), b', Later(l) + PatchReadings(rest), MeantReadings(rest));
    }
  }

  /** An added line that says something, read as far as its first break. */
  lemma AddedStarts(a: Scan, t: string, a': Scan)
    requires Ordered(a) && Whole(BodyLine(Added(t))) && !Blank(t)
    requires a' == Scan(a.found, a.lines + [Head(t)], if a.lines == [] then a.current else a.start, a.current + 1, a.current)
    ensures Ordered(a') && Inked(a') && a'.found == a.found
    ensures a'.start == if a.lines == [] then a.current else a.start
  {
    HeadRows(t);
    NoRowsIffBlank(t);
    NoRowsIffBlank(Head(t));
    AddedToRun(a, Head(t), a');
  }

  lemma AheadAfterLine(o: Origin, render: Renderer, a: Scan, b: Scan, l: PatchLine)
    requires Faithful(o, render) && Ahead(a, b) && Whole(l) && l.BodyLine?
    requires l.line.Added? ==> !Inked(b) && Blank(l.line.text)
    ensures Ahead(AfterLine(render, a, l), ScanOne(render, b, Meant(l)))
    ensures Inked(ScanOne(render, b, Meant(l))) <==> InkAfter(Inked(b), l)
  {
    hide Rows, RowsAll, Read, LineReadings;
    var a', b' := ScanOne(render, a, First(l)), ScanOne(render, b, Meant(l));
    if l.line.Added? {
      FirstOfAdded(l.line.text);
      BlankStaysAhead(a, b, l.line.text, a', b');
    } else {
      OthersPass(render, a, l);
      OthersPass(render, b, l);
      if l.line.Context? {
        ContextStaysAhead(o, render, a, b);
      }
    }
    StillAhead(o, render, a', b', Spaces(Later(l)));
  }

  lemma TellsHead(ink: bool, lines: seq<PatchLine>)
    requires Tells(ink, lines)
    ensures lines != [] && lines[0].BodyLine?
    ensures (lines[0].line.Added? && (ink || !Blank(lines[0].line.text))) || Tells(InkAfter(ink, lines[0]), lines[1..])
  {
    hide Blank;
  }

  lemma WholeTail(lines: seq<PatchLine>)
    requires lines != [] && AllWhole(lines)
    ensures Whole(lines[0]) && AllWhole(lines[1..]) && lines == [lines[0]] + lines[1..]
  {
    hide Whole;
    forall i | 0 <= i < |lines[1..]| ensures Whole(lines[1..][i]) { assert lines[1..][i] == lines[i + 1]; }
  }

  /** Once the reader is ahead, the next run that says something is placed differently. */
  lemma {:induction false} Strays(o: Origin, render: Renderer, a: Scan, b: Scan, lines: seq<PatchLine>) returns (i: nat)
    requires Faithful(o, render) && AllWhole(lines) && Ahead(a, b) && Tells(Inked(b), lines)
    ensures PartAt(Ends(render, a, PatchReadings(lines)), Ends(render, b, MeantReadings(lines)), i)
    decreases |lines|
  {
    hide *;
    TellsHead(Inked(b), lines);
    WholeTail(lines);
    var l, rest := lines[0], lines[1..];
    if l.line.Added? && (Inked(b) || !Blank(l.line.text)) {
      assert l == BodyLine(Added(l.line.text));
      AddedParts(o, render, a, b, l.line.text, rest);
      i := |b.found|;
    } else {
      AheadAfterLine(o, render, a, b, l);
      LineIsScanned(o, render, a, l, rest);
      MeaningIsScanned(render, b, l, rest);
      i := Strays(o, render, AfterLine(render, a, l), ScanOne(render, b, Meant(l)), rest);
    }
  }

  // ----- in step or not ------------------------------------------------------------------------

  /** Out of step, but nothing that says something is to come in this hunk. */
  predicate AtEase(render: Renderer, a: Scan, b: Scan) {
    !Inked(a) && Ordered(a) && Ordered(b) && AllAlike(FlushRun(render, a).found, FlushRun(render, b).found)
  }

  lemma ShiftAtEase(o: Origin, render: Renderer, a: Scan, b: Scan, jumps: nat)
    requires Faithful(o, render) && Ordered(b)
    requires AllAlike(FlushRun(render, a).found, FlushRun(render, b).found) && (jumps == 0 ==> !Inked(a) && Ordered(a))
    ensures AtEase(render, Shifted(render, a, jumps), b)
  {
    Flushed(o, render, a);
  }

  lemma BlankAtEase(o: Origin, render: Renderer, s: Scan, text: string, s': Scan)
    requires Faithful(o, render) && Ordered(s) && !Inked(s) && Blank(text)
    requires s' == Scan(s.found, s.lines + [text], if s.lines == [] then s.current else s.start, s.current + 1, s.current)
    ensures Ordered(s') && !Inked(s') && FlushRun(render, s').found == FlushRun(render, s).found
  {
    AddedToRun(s, text, s');
    Flushed(o, render, s);
    Flushed(o, render, s');
  }

  /** Nothing is found by the step. */
  predicate FindsNothing(render: Renderer, s: Scan, s': Scan) {
    FlushRun(render, s').found == FlushRun(render, s).found && Ordered(s')
  }

  lemma StepAtEase(render: Renderer, a: Scan, b: Scan, a': Scan, b': Scan)
    requires AtEase(render, a, b) && FindsNothing(render, a, a') && FindsNothing(render, b, b') && !Inked(a')
    ensures AtEase(render, a', b')
  {
  }

  lemma AddedAtEase(o: Origin, render: Renderer, a: Scan, b: Scan, t: string)
    requires Faithful(o, render) && AtEase(render, a, b) && Whole(BodyLine(Added(t))) && !Inked(b) && Blank(t)
    ensures var l := BodyLine(Added(t));
            && AtEase(render, ScanOne(render, a, First(l)), ScanOne(render, b, Meant(l)))
            && !Inked(ScanOne(render, b, Meant(l)))
  {
    hide Rows, RowsAll, Read, LaterFields, LineReadings, FlushRun;
    var l := BodyLine(Added(t));
    var a', b' := ScanOne(render, a, First(l)), ScanOne(render, b, Meant(l));
    FirstOfAdded(t);
    HeadRows(t);
    NoRowsIffBlank(t);
    NoRowsIffBlank(Head(t));
    BlankAtEase(o, render, a, Head(t), a');
    BlankAtEase(o, render, b, t, b');
    StepAtEase(render, a, b, a', b');
  }

  lemma PassFindsNothing(o: Origin, render: Renderer, s: Scan, l: PatchLine)
    requires Faithful(o, render) && Ordered(s) && l.BodyLine?
    ensures FindsNothing(render, s, Passed(render, s, l))
    ensures Inked(Passed(render, s, l)) <==> Inked(s) && !l.line.Context?
  {
    Flushed(o, render, s);
  }

  lemma PassedAtEase(o: Origin, render: Renderer, a: Scan, b: Scan, l: PatchLine)
    requires Faithful(o, render) && AtEase(render, a, b) && l.BodyLine? && !l.line.Added?
    ensures AtEase(render, ScanOne(render, a, First(l)), ScanOne(render, b, Meant(l)))
    ensures Inked(ScanOne(render, b, Meant(l))) <==> Inked(b) && !l.line.Context?
  {
    OthersPass(render, a, l);
    OthersPass(render, b, l);
    PassFindsNothing(o, render, a, l);
    PassFindsNothing(o, render, b, l);
    StepAtEase(render, a, b, Passed(render, a, l), Passed(render, b, l));
  }

  /** A line of a hunk in which nothing more is told. */
  lemma LineAtEase(o: Origin, render: Renderer, a: Scan, b: Scan, l: PatchLine)
    requires Faithful(o, render) && AtEase(render, a, b) && Whole(l) && l.BodyLine?
    requires l.line.Added? ==> !Inked(b) && Blank(l.line.text)
    ensures AtEase(render, AfterLine(render, a, l), ScanOne(render, b, Meant(l)))
    ensures Inked(ScanOne(render, b, Meant(l))) <==> InkAfter(Inked(b), l)
  {
    if l.line.Added? {
      AddedAtEase(o, render, a, b, l.line.text);
    } else {
      PassedAtEase(o, render, a, b, l);
    }
    ShiftAtEase(o, render, ScanOne(render, a, First(l)), ScanOne(render, b, Meant(l)), Spaces(Later(l)));
  }

  /** The two ends are alike exactly if the rest of the patch is calm. */
  predicate AlikeIffCalm(render: Renderer, a: Scan, b: Scan, lines: seq<PatchLine>) {
    AllAlike(Ends(render, a, PatchReadings(lines)), Ends(render, b, MeantReadings(lines))) <==> Calm(Inked(b), lines)
  }

  lemma CalmCons(ink: bool, l: PatchLine, rest: seq<PatchLine>)
    ensures Calm(ink, [l] + rest) <==> (Shifts(l) ==> !Tells(InkAfter(ink, l), rest)) && Calm(InkAfter(ink, l), rest)
  {
    assert ([l] + rest)[1..] == rest;
  }

  lemma AlikeIffCalmCons(o: Origin, render: Renderer, a: Scan, b: Scan, l: PatchLine, rest: seq<PatchLine>)
    requires Faithful(o, render) && Whole(l)
    requires Inked(ScanOne(render, b, Meant(l))) <==> InkAfter(Inked(b), l)
    requires AlikeIffCalm(render, AfterLine(render, a, l), ScanOne(render, b, Meant(l)), rest)
    requires Shifts(l) ==> !Tells(InkAfter(Inked(b), l), rest)
    ensures AlikeIffCalm(render, a, b, [l] + rest)
  {
    LineIsScanned(o, render, a, l, rest);
    MeaningIsScanned(render, b, l, rest);
    CalmCons(Inked(b), l, rest);
  }

  lemma StraysIsNotCalm(o: Origin, render: Renderer, a: Scan, b: Scan, l: PatchLine, rest: seq<PatchLine>)
    requires Faithful(o, render) && Whole(l) && AllWhole(rest)
    requires Inked(ScanOne(render, b, Meant(l))) <==> InkAfter(Inked(b), l)
    requires Ahead(AfterLine(render, a, l), ScanOne(render, b, Meant(l)))
    requires Shifts(l) && Tells(InkAfter(Inked(b), l), rest)
    ensures AlikeIffCalm(render, a, b, [l] + rest)
  {
    LineIsScanned(o, render, a, l, rest);
    MeaningIsScanned(render, b, l, rest);
    CalmCons(Inked(b), l, rest);
    var i := Strays(o, render, AfterLine(render, a, l), ScanOne(render, b, Meant(l)), rest);
    PartsAreNotAlike(
      Ends(render, AfterLine(render, a, l), PatchReadings(rest)),
      Ends(render, ScanOne(render, b, Meant(l)), MeantReadings(rest)), i);
  }

  lemma NothingToScan(render: Renderer, s: Scan)
    ensures Ends(render, s, PatchReadings([])) == FlushRun(render, s).found
    ensures Ends(render, s, MeantReadings([])) == FlushRun(render, s).found
  {
  }

  /** While nothing more is told in the hunk, being out of step does not show. */
  lemma {:induction false} EasyReading(o: Origin, render: Renderer, a: Scan, b: Scan, lines: seq<PatchLine>)
    requires Faithful(o, render) && AllWhole(lines) && AtEase(render, a, b) && !Tells(Inked(b), lines)
    ensures AlikeIffCalm(render, a, b, lines)
    decreases |lines|, 0
  {
    if lines == [] {
      NothingToScan(render, a);
      NothingToScan(render, b);
    } else {
      var l, rest := lines[0], lines[1..];
      WholeTail(lines);
      if l.HeaderLine? {
        HeaderBringsInStep(o, render, a, b, l);
        LineReading(o, render, a, b, l, rest);
      } else {
        LineAtEase(o, render, a, b, l);
        EasyReading(o, render, AfterLine(render, a, l), ScanOne(render, b, Meant(l)), rest);
        AlikeIffCalmCons(o, render, a, b, l, rest);
      }
    }
  }

  lemma HeaderBringsInStep(o: Origin, render: Renderer, a: Scan, b: Scan, l: PatchLine)
    requires Faithful(o, render) && AtEase(render, a, b) && l.HeaderLine?
    ensures InStep(ScanOne(render, a, First(l)), ScanOne(render, b, Meant(l)))
    ensures Ordered(ScanOne(render, b, Meant(l))) && !Inked(ScanOne(render, b, Meant(l)))
  {
    Flushed(o, render, b);
  }

  /** One line that is read in step, and the rest. */
  lemma {:induction false} LineReading(o: Origin, render: Renderer, a: Scan, b: Scan, l: PatchLine, rest: seq<PatchLine>)
    requires Faithful(o, render) && Whole(l) && AllWhole(rest)
    requires InStep(ScanOne(render, a, First(l)), ScanOne(render, b, Meant(l)))
    requires Ordered(ScanOne(render, b, Meant(l)))
    requires Inked(ScanOne(render, b, Meant(l))) <==> InkAfter(Inked(b), l)
    ensures AlikeIffCalm(render, a, b, [l] + rest)
    decreases |rest|, 1
  {
    var a', b' := ScanOne(render, a, First(l)), ScanOne(render, b, Meant(l));
    if !Shifts(l) {
      StepReading(o, render, a', b', rest);
      AlikeIffCalmCons(o, render, a, b, l, rest);
    } else if Tells(InkAfter(Inked(b), l), rest) {
      ShiftGoesAhead(o, render, a', b', Spaces(Later(l)));
      StraysIsNotCalm(o, render, a, b, l, rest);
    } else {
      FlushInStep(o, render, a', b');
      ShiftAtEase(o, render, a', b', Spaces(Later(l)));
      EasyReading(o, render, AfterLine(render, a, l), b', rest);
      AlikeIffCalmCons(o, render, a, b, l, rest);
    }
  }

  /** Reading in step with the meaning, the ends are alike exactly if the patch is calm. */
  lemma {:induction false} StepReading(o: Origin, render: Renderer, a: Scan, b: Scan, lines: seq<PatchLine>)
    requires Faithful(o, render) && AllWhole(lines) && InStep(a, b) && Ordered(b)
    ensures AlikeIffCalm(render, a, b, lines)
    decreases |lines|, 0
  {
    if lines == [] {
      FlushInStep(o, render, a, b);
      NothingToScan(render, a);
      NothingToScan(render, b);
    } else {
      WholeTail(lines);
      FirstInStep(o, render, a, b, lines[0]);
      LineReading(o, render, a, b, lines[0], lines[1..]);
    }
  }
}
