/**
  When the extraction from a printed patch is right, for lines that hold any characters, breaks
  of splitlines() among them, and end in any way.
 */
module DiffGuarantees {
  import opened Wrappers
  import opened Text
  import opened Lines
  import opened DiffHunks
  import opened DiffPatches
  import opened DiffReading
  import opened DiffMeaning
  import opened DiffInk
  import opened DiffSteps

  // ----- up to whitespace ----------------------------------------------------------------------

  function GistInk(gists: seq<Gist>): nat {
    if gists == [] then 0 else |InkAll(gists[0].rows)| + GistInk(gists[1..])
  }

  lemma {:induction false} FoundInkIsGistInk(found: seq<Contribution>)
    ensures FoundInk(found) == GistInk(Gists(found))
  {
    if found != [] {
      FoundInkIsGistInk(found[1..]);
      RowsCarryInk(found[0].text);
      assert Gists(found)[1..] == Gists(found[1..]);
    }
  }

  /** What is alike holds the same characters. */
  lemma AlikeSameInk(a: seq<Contribution>, b: seq<Contribution>)
    requires AllAlike(a, b)
    ensures FoundInk(a) == FoundInk(b)
  {
    FoundInkIsGistInk(a);
    FoundInkIsGistInk(b);
  }

  lemma ExtractedAndExpectedInk(o: Origin, hunks: seq<Hunk>, ends: seq<LineBreak>)
    requires Terminates(ends, |LinesOf(hunks)|)
    ensures FoundInk(Extract(o, PrintPatch(hunks, ends))) == PlusInk(PatchReadings(LinesOf(hunks)))
    ensures FoundInk(Expected(o, hunks)) == PlusInk(MeantReadings(LinesOf(hunks)))
  {
    PatchIsRead(o, hunks, ends);
    ExpectedIsMeant(o, hunks);
    ExtractedInk(o, PatchReadings(LinesOf(hunks)));
    ExtractedInk(o, MeantReadings(LinesOf(hunks)));
  }

  lemma WholeReading(o: Origin, lines: seq<PatchLine>)
    requires AllWhole(lines)
    ensures AllAlike(ExtractReadings(RenderFor(o), PatchReadings(lines)),
                     ExtractReadings(RenderFor(o), MeantReadings(lines)))
      <==> Calm(false, lines)
  {
    RenderIsFaithful(o);
    StepReading(o, RenderFor(o), NOTHING_SCANNED, NOTHING_SCANNED, lines);
  }

  /**
    Extraction is right up to whitespace exactly if every added line is read whole, and no line
    that shifts the numbers is followed in its hunk by the end of a run that says something.
    This is for all patches in which only added lines hold, after a break inside, what looks
    like an added line or a header of its own.
   */
  lemma ExtractionIsRightIff(o: Origin, hunks: seq<Hunk>, ends: seq<LineBreak>)
    requires Terminates(ends, |LinesOf(hunks)|) && NothingInvented(LinesOf(hunks))
    ensures AllAlike(Extract(o, PrintPatch(hunks, ends)), Expected(o, hunks))
      <==> AllIntact(LinesOf(hunks)) && Calm(false, LinesOf(hunks))
  {
    var lines := LinesOf(hunks);
    if AllIntact(lines) {
      PatchIsRead(o, hunks, ends);
      ExpectedIsMeant(o, hunks);
      WholeReading(o, lines);
    } else {
      ExtractedAndExpectedInk(o, hunks, ends);
      LinesInk(lines);
      if AllAlike(Extract(o, PrintPatch(hunks, ends)), Expected(o, hunks)) {
        AlikeSameInk(Extract(o, PrintPatch(hunks, ends)), Expected(o, hunks));
      }
    }
  }

  // ----- text that was not added ---------------------------------------------------------------

  /** A line that was not added holds, after a break inside, what is read as an added line that says something. */
  predicate Invents(l: PatchLine) {
    !(l.BodyLine? && l.line.Added?) && PlusInk(Later(l)) > 0
  }

  lemma IntactLineInk(l: PatchLine)
    requires Intact(l)
    ensures PlusInk(LineReadings(l)) >= PlusInk([Meant(l)])
    ensures Invents(l) ==> PlusInk(LineReadings(l)) > PlusInk([Meant(l)])
  {
    OnePlusInk(Meant(l));
    if l.BodyLine? && l.line.Added? {
      AddedLineInk(l.line.text);
    } else {
      LineReadingsInk(l);
      OnePlusInk(First(l));
    }
  }

  predicate SomeInvents(lines: seq<PatchLine>) {
    exists i :: 0 <= i < |lines| && Invents(lines[i])
  }

  lemma SomeInventsCons(lines: seq<PatchLine>)
    requires lines != [] && SomeInvents(lines)
    ensures Invents(lines[0]) || SomeInvents(lines[1..])
  {
    hide Invents;
    var i :| 0 <= i < |lines| && Invents(lines[i]);
    if i > 0 {
      assert lines[1..][i - 1] == lines[i];
    }
  }

  lemma {:induction false} IntactLinesInk(lines: seq<PatchLine>)
    requires AllIntact(lines)
    ensures PlusInk(PatchReadings(lines)) >= PlusInk(MeantReadings(lines))
    ensures SomeInvents(lines) ==> PlusInk(PatchReadings(lines)) > PlusInk(MeantReadings(lines))
    decreases |lines|
  {
    if lines != [] {
      hide PlusInk, LineReadings, Meant, Invents, SomeInvents, Intact;
      var l, rest := lines[0], lines[1..];
      IntactCons(lines);
      IntactLineInk(l);
      IntactLinesInk(rest);
      PlusInkConcat(LineReadings(l), PatchReadings(rest));
      PlusInkConcat([Meant(l)], MeantReadings(rest));
      if SomeInvents(lines) {
        SomeInventsCons(lines);
      }
    }
  }

  /**
    Where every added line is read whole, text that was not added is reported, and extraction
    goes wrong, whenever another line holds what looks like an added line after a break inside.
   */
  lemma InventedTextIsReported(o: Origin, hunks: seq<Hunk>, ends: seq<LineBreak>, i: nat)
    requires Terminates(ends, |LinesOf(hunks)|) && AllIntact(LinesOf(hunks))
    requires i < |LinesOf(hunks)| && Invents(LinesOf(hunks)[i])
    ensures FoundInk(Extract(o, PrintPatch(hunks, ends))) > FoundInk(Expected(o, hunks))
    ensures !AllAlike(Extract(o, PrintPatch(hunks, ends)), Expected(o, hunks))
  {
    ExtractedAndExpectedInk(o, hunks, ends);
    IntactLinesInk(LinesOf(hunks));
    assert SomeInvents(LinesOf(hunks));
    if AllAlike(Extract(o, PrintPatch(hunks, ends)), Expected(o, hunks)) {
      AlikeSameInk(Extract(o, PrintPatch(hunks, ends)), Expected(o, hunks));
    }
  }

  // ----- lines without a break inside ----------------------------------------------------------

  predicate Unbroken(l: PatchLine) {
    NoBreak(TextOf(l))
  }

  predicate AllUnbroken(lines: seq<PatchLine>) {
    forall i :: 0 <= i < |lines| ==> Unbroken(lines[i])
  }

  /** An added line whose printed form looks like the name of the new file. */
  predicate LooksLikeFileName(l: PatchLine) {
    l.BodyLine? && l.line.Added? && StartsWith(l.line.text, "++")
  }

  predicate NoneNamesFile(lines: seq<PatchLine>) {
    forall i :: 0 <= i < |lines| ==> !LooksLikeFileName(lines[i])
  }

  lemma UnbrokenLine(l: PatchLine)
    requires Unbroken(l)
    ensures Head(TextOf(l)) == TextOf(l) && LaterFields(TextOf(l)) == [] && Later(l) == []
    ensures Innocent(l) && (Intact(l) <==> !LooksLikeFileName(l))
  {
    var t := TextOf(l);
    assert t[..|t|] == t;
    LineEndIs(t, |t|);
  }

  lemma UnbrokenStep(render: Renderer, s: Scan, l: PatchLine)
    requires Unbroken(l) && !LooksLikeFileName(l)
    ensures ScanOne(render, s, First(l)) == ScanOne(render, s, Meant(l))
  {
    UnbrokenLine(l);
    if l.BodyLine? && l.line.Added? {
      FirstOfAdded(l.line.text);
    } else {
      OthersPass(render, s, l);
    }
  }

  lemma {:induction false} UnbrokenScan(render: Renderer, s: Scan, lines: seq<PatchLine>)
    requires AllUnbroken(lines) && NoneNamesFile(lines)
    ensures ScanFrom(render, s, PatchReadings(lines)) == ScanFrom(render, s, MeantReadings(lines))
    decreases |lines|
  {
    if lines != [] {
      var l, rest := lines[0], lines[1..];
      UnbrokenLine(l);
      UnbrokenStep(render, s, l);
      UnbrokenTail(lines);
      UnbrokenScan(render, ScanOne(render, s, Meant(l)), rest);
      assert LineReadings(l) + PatchReadings(rest) == [First(l)] + PatchReadings(rest);
      ScanCons(render, s, First(l), PatchReadings(rest));
      ScanCons(render, s, Meant(l), MeantReadings(rest));
    }
  }

  lemma UnbrokenTail(lines: seq<PatchLine>)
    requires lines != [] && AllUnbroken(lines) && NoneNamesFile(lines)
    ensures AllUnbroken(lines[1..]) && NoneNamesFile(lines[1..])
  {
    forall i | 0 <= i < |lines[1..]| ensures Unbroken(lines[1..][i]) && !LooksLikeFileName(lines[1..][i]) {
      assert lines[1..][i] == lines[i + 1];
    }
  }

  lemma UnbrokenLines(lines: seq<PatchLine>)
    requires AllUnbroken(lines)
    ensures NothingInvented(lines) && (AllIntact(lines) <==> NoneNamesFile(lines))
  {
    forall i | 0 <= i < |lines| ensures Innocent(lines[i]) && (Intact(lines[i]) <==> !LooksLikeFileName(lines[i])) {
      UnbrokenLine(lines[i]);
    }
  }

  /**
    For patches without a break inside a line, extraction inverts printing exactly when no
    added line starts with two plus signs, whatever the line ends are.
   */
  lemma ExtractionIsExactIff(o: Origin, hunks: seq<Hunk>, ends: seq<LineBreak>)
    requires Terminates(ends, |LinesOf(hunks)|) && AllUnbroken(LinesOf(hunks))
    ensures Extract(o, PrintPatch(hunks, ends)) == Expected(o, hunks) <==> NoneNamesFile(LinesOf(hunks))
  {
    var lines := LinesOf(hunks);
    if NoneNamesFile(lines) {
      PatchIsRead(o, hunks, ends);
      ExpectedIsMeant(o, hunks);
      UnbrokenScan(RenderFor(o), NOTHING_SCANNED, lines);
    } else {
      UnbrokenLines(lines);
      ExtractionIsRightIff(o, hunks, ends);
    }
  }

  // ----- examples ------------------------------------------------------------------------------

  const FORM_FEED := '\U{0C}'

  /** A text with one form feed inside. */
  function Cut(a: string, b: string): string {
    a + ([FORM_FEED] + b)
  }

  lemma CutText(a: string, b: string)
    requires NoBreak(a) && NoBreak(b) && b != ""
    ensures Head(Cut(a, b)) == a && LaterFields(Cut(a, b)) == [b]
  {
    var t := Cut(a, b);
    assert t[..|a|] == a && t[|a| + 1..] == b;
    LineEndIs(t, |a|);
    OnlyField(b);
  }

  /** A hunk of one file, in the first line, with this body. */
  function FirstLines(body: seq<DiffLine>): Hunk {
    Hunk(1, Some(1), 1, Some(1), "", body)
  }

  lemma HeaderReadings(body: seq<DiffLine>)
    ensures LineReadings(HeaderLine(FirstLines(body))) == [Header(1)]
  {
    assert LaterFields("") == [];
    assert ReadAll([]) == [];
  }

  lemma OneLine(d: DiffLine)
    ensures LinesOf([FirstLines([d])]) == [HeaderLine(FirstLines([d])), BodyLine(d)]
  {
    assert [FirstLines([d])][1..] == [];
  }

  lemma TwoLines(d: DiffLine, e: DiffLine)
    ensures LinesOf([FirstLines([d, e])]) == [HeaderLine(FirstLines([d, e])), BodyLine(d), BodyLine(e)]
  {
    assert [FirstLines([d, e])][1..] == [];
  }

  lemma CutReadings(d: DiffLine, a: string, b: string, r: Reading)
    requires !d.NoNewline? && d.text == Cut(a, b)
    requires NoBreak(a) && NoBreak(b) && b != "" && Read(b) == r
    ensures LineReadings(BodyLine(d)) == [ReadingOf(d.(text := a)), r]
  {
    CutText(a, b);
    ReadAllOne(b, r);
  }

  lemma CutLater(l: PatchLine, a: string, b: string, r: Reading)
    requires TextOf(l) == Cut(a, b) && NoBreak(a) && NoBreak(b) && b != "" && Read(b) == r
    ensures Later(l) == [r]
  {
    CutText(a, b);
    ReadAllOne(b, r);
  }

  lemma OneLineRun(render: Renderer, line: NewLine)
    requires line.added
    ensures OfRuns(render, Runs([line])) == render([line.text], line.number, line.number)
  {
    RunThenRest(render, [line], []);
    assert [line] + [] == [line] && TextsOf([line]) == [line.text];
    assert OfRun(render, [line]) + [] == OfRun(render, [line]);
  }

  lemma OneAddedLine(o: Origin, h: Hunk, t: string)
    requires NewSide(h.body, h.newStart) == [NewLine(h.newStart, t, true)]
    ensures Expected(o, [h]) == RunContribution(o, [t], h.newStart, h.newStart)
  {
    var render := RenderFor(o);
    OneLineRun(render, NewLine(h.newStart, t, true));
    OfHunksCons(render, h, []);
    assert [h] + [] == [h];
    assert render([t], h.newStart, h.newStart) + [] == render([t], h.newStart, h.newStart);
  }

  /**
    An added line that holds a form feed is cut there, and what follows the form feed is lost
    unless it looks like an added line itself.
   */
  lemma FormFeedLosesText(o: Origin, ends: seq<LineBreak>)
    requires Terminates(ends, 2)
    ensures var h := FirstLines([Added(Cut("a", "b"))]);
            !AllAlike(Extract(o, PrintPatch([h], ends)), Expected(o, [h]))
  {
    hide Extract, Expected, AllAlike, Calm, LaterFields, Head;
    var l := BodyLine(Added(Cut("a", "b")));
    var h := FirstLines([l.line]);
    OneLine(l.line);
    HeaderIsInnocent([l.line]);
    CutText("a", "b");
    assert !Blank("b") by { assert !IsSpace("b"[0]); }
    assert LaterFields(Cut("a", "b"))[0] == "b";
    assert !Intact(LinesOf([h])[1]);
    ExtractionIsRightIff(o, [h], ends);
  }

  lemma HeaderIsInnocent(body: seq<DiffLine>)
    ensures Innocent(HeaderLine(FirstLines(body)))
  {
    HeaderReadings(body);
  }

  lemma LetterIsAdded()
    ensures Read("+b") == Plus("b")
  {
    LineIsRead(Added("b"));
    assert "+" + "b" == "+b";
  }

  lemma TwoPatchLines(l: PatchLine, m: PatchLine, a: seq<Reading>, b: seq<Reading>)
    requires LineReadings(l) == a && LineReadings(m) == b
    ensures PatchReadings([l, m]) == a + b
  {
    assert [l, m][1..] == [m] && [m][1..] == [];
    assert PatchReadings([m]) == b + [];
  }

  lemma ThreePatchLines(l: PatchLine, m: PatchLine, n: PatchLine, a: seq<Reading>, b: seq<Reading>, c: seq<Reading>)
    requires LineReadings(l) == a && LineReadings(m) == b && LineReadings(n) == c
    ensures PatchReadings([l, m, n]) == a + (b + c)
  {
    assert [l, m, n][1..] == [m, n];
    TwoPatchLines(m, n, b, c);
  }

  /** One line read as added, among lines that are not read. */
  lemma OneAddedReading(render: Renderer, n: nat, text: string)
    requires SkipsNothing(render)
    ensures ExtractReadings(render, [Header(n)] + [Ignored, Plus(text)]) == render([text], n, n)
    ensures ExtractReadings(render, [Header(n)] + ([Ignored, Plus(text)] + [FileName])) == render([text], n, n)
  {
    var s1 := Scan([], [], 0, n, 0);
    var s2 := Scan([], [text], n, n + 1, n);
    assert ScanOne(render, NOTHING_SCANNED, Header(n)) == s1 && ScanOne(render, s1, Plus(text)) == s2;
    assert [Ignored, Plus(text)] == [Ignored] + ([Plus(text)] + []);
    assert [Ignored, Plus(text)] + [FileName] == [Ignored] + ([Plus(text)] + [FileName]);
    ScanCons(render, NOTHING_SCANNED, Header(n), [Ignored, Plus(text)]);
    ScanCons(render, s1, Ignored, [Plus(text)] + []);
    ScanCons(render, s1, Plus(text), []);
    ScanCons(render, NOTHING_SCANNED, Header(n), [Ignored, Plus(text)] + [FileName]);
    ScanCons(render, s1, Ignored, [Plus(text)] + [FileName]);
    ScanCons(render, s1, Plus(text), [FileName]);
    LastFileName(render, s2);
    assert [] + render([text], n, n) == render([text], n, n);
  }

  lemma LastFileName(render: Renderer, s: Scan)
    ensures ScanFrom(render, s, [FileName]) == s
  {
    assert [FileName] == [FileName] + [];
    ScanCons(render, s, FileName, []);
  }

  /** What is found of one line with this text. */
  lemma OneTextFound(o: Origin, text: string, stripped: string, n: nat)
    requires Strip(text) == stripped && stripped != ""
    ensures RunContribution(o, [text], n, n) == [Contribution(o.commitSha, o.filePath, stripped, n, n)]
  {
  }

  /** Text behind a form feed of a removed line is reported as added. */
  lemma RemovedTextIsReported(o: Origin, ends: seq<LineBreak>)
    requires Terminates(ends, 2)
    ensures var h := FirstLines([Removed(Cut("a", "+b"))]);
            && Expected(o, [h]) == []
            && Extract(o, PrintPatch([h], ends)) == [Contribution(o.commitSha, o.filePath, "b", 1, 1)]
  {
    var d := Removed(Cut("a", "+b"));
    OneLine(d);
    NothingAdded(o, d);
    LetterIsAdded();
    CutReadings(d, "a", "+b", Plus("b"));
    HeaderReadings([d]);
    TwoPatchLines(HeaderLine(FirstLines([d])), BodyLine(d), [Header(1)], [ReadingOf(Removed("a")), Plus("b")]);
    assert !StartsWith("a", "--");
    PatchIsRead(o, [FirstLines([d])], ends);
    RenderSkipsNothing(o);
    OneAddedReading(RenderFor(o), 1, "b");
    BareLetter();
    OneTextFound(o, "b", "b", 1);
  }

  lemma RemovedIsSkipped(d: DiffLine, body: seq<DiffLine>, n: nat)
    requires d.Removed?
    ensures NewSide([d] + body, n) == NewSide(body, n)
  {
    assert ([d] + body)[1..] == body;
  }

  lemma NothingAdded(o: Origin, d: DiffLine)
    requires d.Removed?
    ensures Expected(o, [FirstLines([d])]) == []
  {
    RemovedIsSkipped(d, [], 1);
    assert [d] + [] == [d];
    OfHunksCons(RenderFor(o), FirstLines([d]), []);
    assert [FirstLines([d])] + [] == [FirstLines([d])];
  }

  lemma BareLetter()
    ensures Strip("b") == "b"
  {
    assert LStrip("b") == "b" && RStrip("b") == "b";
  }

  /**
    A removed line with a blank behind a break inside, between two added lines, loses no text
    and shifts the numbers: the run is not found as one.
   */
  lemma BlankBehindBreakShifts(o: Origin, a: string, d: DiffLine, b: string, ends: seq<LineBreak>)
    requires Terminates(ends, 4)
    requires Whole(BodyLine(Added(a))) && Whole(BodyLine(Added(b))) && !Blank(b)
    requires d.Removed? && Whole(BodyLine(d)) && Shifts(BodyLine(d))
    ensures var h := FirstLines([Added(a), d, Added(b)]);
            && |LinesOf([h])| == 4 && AllIntact(LinesOf([h])) && NothingInvented(LinesOf([h]))
            && !AllAlike(Extract(o, PrintPatch([h], ends)), Expected(o, [h]))
  {
    hide Extract, Expected, AllAlike;
    var h := FirstLines([Added(a), d, Added(b)]);
    HeaderIsInnocent(h.body);
    ThreeLines(Added(a), d, Added(b));
    ShiftIsNotCalm(HeaderLine(h), a, d, b);
    WholeButNotCalm(o, h, ends, [HeaderLine(h), BodyLine(Added(a)), BodyLine(d), BodyLine(Added(b))]);
  }

  lemma ThreeLines(d: DiffLine, e: DiffLine, f: DiffLine)
    ensures LinesOf([FirstLines([d, e, f])])
         == [HeaderLine(FirstLines([d, e, f])), BodyLine(d), BodyLine(e), BodyLine(f)]
  {
    assert [FirstLines([d, e, f])][1..] == [];
  }

  lemma WholeButNotCalm(o: Origin, h: Hunk, ends: seq<LineBreak>, lines: seq<PatchLine>)
    requires lines == LinesOf([h]) && Terminates(ends, |lines|) && AllWhole(lines) && !Calm(false, lines)
    ensures AllIntact(lines) && NothingInvented(lines)
    ensures !AllAlike(Extract(o, PrintPatch([h], ends)), Expected(o, [h]))
  {
    ExtractionIsRightIff(o, [h], ends);
  }

  lemma LastTells(ink: bool, text: string)
    requires !Blank(text)
    ensures Tells(ink, [BodyLine(Added(text))])
  {
  }

  lemma ShiftBeforeLast(ink: bool, m: PatchLine, y: PatchLine)
    requires Shifts(m) && Tells(InkAfter(ink, m), [y])
    ensures !Calm(ink, [m, y])
  {
    hide *;
    assert [m, y] == [m] + [y];
    CalmCons(ink, m, [y]);
  }

  lemma NotCalmLater(ink: bool, l: PatchLine, rest: seq<PatchLine>)
    requires !Calm(InkAfter(ink, l), rest)
    ensures !Calm(ink, [l] + rest)
  {
    hide Calm, Tells, Shifts;
    CalmCons(ink, l, rest);
  }

  lemma ShiftIsNotCalm(l: PatchLine, a: string, d: DiffLine, b: string)
    requires d.Removed? && Shifts(BodyLine(d)) && !Blank(b)
    ensures !Calm(false, [l, BodyLine(Added(a)), BodyLine(d), BodyLine(Added(b))])
  {
    hide *;
    var x, m, y := BodyLine(Added(a)), BodyLine(d), BodyLine(Added(b));
    var ink := InkAfter(InkAfter(false, l), x);
    LastTells(InkAfter(ink, m), b);
    ShiftBeforeLast(ink, m, y);
    NotCalmLater(InkAfter(false, l), x, [m, y]);
    NotCalmLater(false, l, [x] + [m, y]);
    assert [l, x, m, y] == [l] + ([x] + [m, y]);
  }

  /**
    Two mistakes may cancel: what a removed line holds after a form feed stands in for an added
    line that looks like a file name. So the condition for a right extraction is about patches
    in which nothing is invented.
   */
  lemma MistakesCancel(o: Origin, ends: seq<LineBreak>)
    requires Terminates(ends, 3)
    ensures var h := FirstLines([Removed(Cut("a", "+ ++b")), Added("++b")]);
            && Extract(o, PrintPatch([h], ends)) == Expected(o, [h])
            && !AllIntact(LinesOf([h])) && !NothingInvented(LinesOf([h]))
  {
    var d, e := Removed(Cut("a", "+ ++b")), Added("++b");
    TwoLines(d, e);
    MistakenReading(o, d, e, ends);
    MistakenMeaning(o, d);
    CancelledMistakes(d, e);
  }

  lemma MistakenReading(o: Origin, d: DiffLine, e: DiffLine, ends: seq<LineBreak>)
    requires Terminates(ends, 3) && d == Removed(Cut("a", "+ ++b")) && e == Added("++b")
    ensures |LinesOf([FirstLines([d, e])])| == 3
    ensures Extract(o, PrintPatch([FirstLines([d, e])], ends)) == [Contribution(o.commitSha, o.filePath, "++b", 1, 1)]
  {
    var h := FirstLines([d, e]);
    TwoLines(d, e);
    MistakenReadings(d, e);
    PatchIsRead(o, [h], ends);
    RenderSkipsNothing(o);
    OneAddedReading(RenderFor(o), 1, " ++b");
    StrippedPluses();
    OneTextFound(o, " ++b", "++b", 1);
  }

  lemma MistakenReadings(d: DiffLine, e: DiffLine)
    requires d == Removed(Cut("a", "+ ++b")) && e == Added("++b")
    ensures PatchReadings([HeaderLine(FirstLines([d, e])), BodyLine(d), BodyLine(e)])
         == [Header(1)] + ([Ignored, Plus(" ++b")] + [FileName])
  {
    hide Read, ReadAll, PatchReadings;
    PlusesAreAdded();
    CutReadings(d, "a", "+ ++b", Plus(" ++b"));
    PlusesAreAFileName(e);
    HeaderReadings([d, e]);
    ThreePatchLines(HeaderLine(FirstLines([d, e])), BodyLine(d), BodyLine(e),
                    [Header(1)], [Ignored, Plus(" ++b")], [FileName]);
  }

  lemma MistakenMeaning(o: Origin, d: DiffLine)
    requires d.Removed?
    ensures Expected(o, [FirstLines([d, Added("++b")])]) == [Contribution(o.commitSha, o.filePath, "++b", 1, 1)]
  {
    SecondIsAdded(d, "++b");
    OneAddedLine(o, FirstLines([d, Added("++b")]), "++b");
    StrippedPluses();
    OneTextFound(o, "++b", "++b", 1);
  }

  lemma CancelledMistakes(d: DiffLine, e: DiffLine)
    requires d == Removed(Cut("a", "+ ++b")) && e == Added("++b")
    ensures !AllIntact([HeaderLine(FirstLines([d, e])), BodyLine(d), BodyLine(e)])
    ensures !NothingInvented([HeaderLine(FirstLines([d, e])), BodyLine(d), BodyLine(e)])
  {
    hide Later, Read, LaterFields, LineReadings, ReadAll;
    PlusesAreAdded();
    PlusesAreAFileName(e);
    CutLater(BodyLine(d), "a", "+ ++b", Plus(" ++b"));
    Mistakes(HeaderLine(FirstLines([d, e])), d, e, " ++b");
  }

  lemma Mistakes(l: PatchLine, d: DiffLine, e: DiffLine, text: string)
    requires d.Removed? && Later(BodyLine(d)) == [Plus(text)] && e.Added? && StartsWith(e.text, "++")
    ensures !AllIntact([l, BodyLine(d), BodyLine(e)]) && !NothingInvented([l, BodyLine(d), BodyLine(e)])
  {
    hide Later;
    var lines := [l, BodyLine(d), BodyLine(e)];
    assert !Intact(lines[2]);
    assert Later(lines[1])[0] == Plus(text);
    assert !Innocent(lines[1]);
  }

  lemma PlusesAreAdded()
    ensures Read("+ ++b") == Plus(" ++b")
  {
    LineIsRead(Added(" ++b"));
    assert "+" + " ++b" == "+ ++b";
  }

  lemma PlusesAreAFileName(e: DiffLine)
    requires e == Added("++b")
    ensures LineReadings(BodyLine(e)) == [FileName] && StartsWith(e.text, "++")
  {
    assert e.text[..2] == "++";
    UnbrokenLine(BodyLine(e));
    FirstOfAdded(e.text);
  }

  lemma StrippedPluses()
    ensures Strip(" ++b") == "++b" && Strip("++b") == "++b"
  {
    assert " ++b"[1..] == "++b";
    assert LStrip("++b") == "++b" && LStrip(" ++b") == "++b" && RStrip("++b") == "++b";
  }

  lemma SecondIsAdded(d: DiffLine, text: string)
    requires d.Removed?
    ensures NewSide([d, Added(text)], 1) == [NewLine(1, text, true)]
  {
    assert [d, Added(text)] == [d] + [Added(text)] && [Added(text)] == [Added(text)] + [];
    RemovedIsSkipped(d, [Added(text)], 1);
    NewSideHead(Added(text), [], 1);
  }
}
