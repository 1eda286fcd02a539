/**
  What is found holds the characters that were read as added lines; and a line whose text is
  cut at a break inside loses some of them.
 */
module DiffInk {
  import opened Wrappers
  import opened Text
  import opened Lines
  import opened DiffHunks
  import opened DiffPatches
  import opened DiffReading
  import opened DiffMeaning

  // ----- ink of what is found ------------------------------------------------------------------

  function InkLength(texts: seq<string>): nat {
    if texts == [] then 0 else |Ink(texts[0])| + InkLength(texts[1..])
  }

  lemma {:induction false} InkLengthIs(texts: seq<string>)
    ensures InkLength(texts) == |InkAll(texts)|
  {
    if texts != [] {
      InkLengthIs(texts[1..]);
      InkAllCons(texts[0], texts[1..]);
      assert texts == [texts[0]] + texts[1..];
    }
  }
  lemma InkLengthSnoc(texts: seq<string>, text: string)
    ensures InkLength(texts + [text]) == InkLength(texts) + |Ink(text)|
  {
    InkLengthIs(texts);
    InkLengthIs(texts + [text]);
    InkAllSnoc(texts, text);
  }

  function FoundInk(found: seq<Contribution>): nat {
    if found == [] then 0 else |Ink(found[0].text)| + FoundInk(found[1..])
  }

  lemma {:induction false} FoundInkConcat(a: seq<Contribution>, b: seq<Contribution>)
    ensures FoundInk(a + b) == FoundInk(a) + FoundInk(b)
  {
    if a == [] {
      assert a + b == b;
    } else {
      FoundInkConcat(a[1..], b);
      assert (a + b)[0] == a[0] && (a + b)[1..] == a[1..] + b;
    }
  }

  lemma RunInk(o: Origin, lines: seq<string>, start: nat, last: nat)
    ensures FoundInk(RunContribution(o, lines, start, last)) == InkLength(lines)
  {
    InkLengthIs(lines);
    InkJoinLines(lines);
    InkStrip(JoinLines(lines));
    TextInk(o, Strip(JoinLines(lines)), start, MaxNat(start, last));
  }

  lemma TextInk(o: Origin, text: string, start: nat, end: nat)
    ensures FoundInk(if text == "" then [] else [Contribution(o.commitSha, o.filePath, text, start, end)]) == |Ink(text)|
  {
    assert text != "" ==> [Contribution(o.commitSha, o.filePath, text, start, end)][1..] == [];
  }

  /** The characters read as added. */
  function PlusInk(readings: seq<Reading>): nat {
    if readings == [] then 0
    else (if readings[0].Plus? then |Ink(readings[0].text)| else 0) + PlusInk(readings[1..])
  }

  lemma {:induction false} PlusInkConcat(a: seq<Reading>, b: seq<Reading>)
    ensures PlusInk(a + b) == PlusInk(a) + PlusInk(b)
  {
    if a == [] {
      assert a + b == b;
    } else {
      PlusInkConcat(a[1..], b);
      assert (a + b)[0] == a[0] && (a + b)[1..] == a[1..] + b;
    }
  }

  function ScannedInk(s: Scan): nat {
    FoundInk(s.found) + InkLength(s.lines)
  }

  lemma FlushKeepsInk(o: Origin, s: Scan)
    ensures ScannedInk(FlushRun(RenderFor(o), s)) == ScannedInk(s)
    ensures FlushRun(RenderFor(o), s).lines == []
  {
    RunInk(o, s.lines, s.start, s.last);
    FoundInkConcat(s.found, RunContribution(o, s.lines, s.start, s.last));
  }

  lemma ScanOneInk(o: Origin, s: Scan, r: Reading)
    ensures ScannedInk(ScanOne(RenderFor(o), s, r)) == ScannedInk(s) + if r.Plus? then |Ink(r.text)| else 0
  {
    FlushKeepsInk(o, s);
    if r.Plus? {
      InkLengthSnoc(s.lines, r.text);
    }
  }

  lemma {:induction false} ScanInk(o: Origin, s: Scan, readings: seq<Reading>)
    ensures ScannedInk(ScanFrom(RenderFor(o), s, readings)) == ScannedInk(s) + PlusInk(readings)
    decreases |readings|
  {
    if readings != [] {
      ScanOneInk(o, s, readings[0]);
      ScanInk(o, ScanOne(RenderFor(o), s, readings[0]), readings[1..]);
    }
  }

  /** What is found says what was read as added, no more and no less. */
  lemma ExtractedInk(o: Origin, readings: seq<Reading>)
    ensures FoundInk(ExtractReadings(RenderFor(o), readings)) == PlusInk(readings)
  {
    hide ScanFrom, PlusInk;
    ScanInk(o, NOTHING_SCANNED, readings);
    FlushKeepsInk(o, ScanFrom(RenderFor(o), NOTHING_SCANNED, readings));
  }

  // ----- ink of a line -------------------------------------------------------------------------

  lemma {:induction false} FieldsCarryInk(s: string)
    ensures InkAll(Fields(s)) == Ink(s)
    decreases |s|
  {
    var n := LineEnd(s);
    if n == |s| {
      FieldCarriesInk(s);
    } else {
      FieldsCarryInk(s[n + 1..]);
      FieldCarriesInk(s[..n]);
      InkAllConcat(FieldOf(s[..n]), Fields(s[n + 1..]));
      InkOfBreak(s, n, 1);
    }
  }

  lemma FieldCarriesInk(line: string)
    ensures InkAll(FieldOf(line)) == Ink(line)
  {
    if line != "" {
      InkAllSnoc([], line);
    }
  }

  /** A text is its first line and the fields after it. */
  lemma HeadAndLaterInk(t: string)
    ensures |Ink(t)| == |Ink(Head(t))| + InkLength(LaterFields(t))
  {
    FieldsCarryInk(t);
    FieldsOfHead(t);
    InkAllConcat(FieldOf(Head(t)), LaterFields(t));
    FieldCarriesInk(Head(t));
    InkLengthIs(LaterFields(t));
  }

  lemma InkHead(s: string)
    requires s != "" && !IsSpace(s[0])
    ensures |Ink(s)| == 1 + |Ink(s[1..])|
  {
  }

  /** Read as a line of its own, a field loses its mark at least. */
  lemma ReadingLosesInk(f: string)
    ensures (if Read(f).Plus? then |Ink(Read(f).text)| else 0) <= |Ink(f)|
    ensures Ink(f) != "" ==> (if Read(f).Plus? then |Ink(Read(f).text)| else 0) < |Ink(f)|
  {
    if Read(f).Plus? {
      FirstOf(f, "+");
      InkHead(f);
    }
  }

  predicate AllBlank(texts: seq<string>) {
    forall i :: 0 <= i < |texts| ==> Blank(texts[i])
  }

  lemma {:induction false} ReadingsLoseInk(fields: seq<string>)
    ensures PlusInk(ReadAll(fields)) <= InkLength(fields)
    ensures PlusInk(ReadAll(fields)) == InkLength(fields) <==> AllBlank(fields)
    ensures AllBlank(fields) ==> InkLength(fields) == 0
    decreases |fields|
  {
    if fields != [] {
      var f, rest := fields[0], fields[1..];
      ReadingsLoseInk(rest);
      ReadingLosesInk(f);
      InkOfSpace(f);
      assert ReadAll(fields)[1..] == ReadAll(rest);
      assert fields == [f] + rest;
      AllBlankCons(f, rest);
    }
  }

  lemma AllBlankCons(f: string, rest: seq<string>)
    ensures AllBlank([f] + rest) <==> Blank(f) && AllBlank(rest)
  {
    var all := [f] + rest;
    if AllBlank(all) {
      assert all[0] == f;
      forall i | 0 <= i < |rest| ensures Blank(rest[i]) { assert all[i + 1] == rest[i]; }
    }
  }

  // ----- lines that are read whole -------------------------------------------------------------

  /** An added line that is read as one, and says nothing after a break inside. */
  predicate Intact(l: PatchLine) {
    l.BodyLine? && l.line.Added? ==> !StartsWith(l.line.text, "++") && AllBlank(LaterFields(l.line.text))
  }

  /** Only an added line may hold what is read as an added line or as a header of its own. */
  predicate Innocent(l: PatchLine) {
    || (l.BodyLine? && l.line.Added?)
    || forall i :: 0 <= i < |Later(l)| ==> !Later(l)[i].Plus? && !Later(l)[i].Header?
  }

  predicate AllIntact(lines: seq<PatchLine>) {
    forall i :: 0 <= i < |lines| ==> Intact(lines[i])
  }

  predicate NothingInvented(lines: seq<PatchLine>) {
    forall i :: 0 <= i < |lines| ==> Innocent(lines[i])
  }

  lemma {:induction false} NoPlusNoInk(readings: seq<Reading>)
    requires forall i :: 0 <= i < |readings| ==> !readings[i].Plus?
    ensures PlusInk(readings) == 0
  {
    if readings != [] {
      NoPlusNoInk(readings[1..]);
    }
  }

  lemma CharOfMark(t: string, mark: string, n: nat)
    requires StartsWith(t, mark) && n < |mark|
    ensures t[n] == mark[n]
  {
    assert t[..|mark|][n] == t[n];
  }

  lemma SameMark(t: string, mark: string)
    requires NoBreak(mark)
    ensures StartsWith(Head(t), mark) <==> StartsWith(t, mark)
  {
    var n := LineEnd(t);
    if n >= |mark| {
      assert t[..n][..|mark|] == t[..|mark|];
    } else if StartsWith(t, mark) {
      CharOfMark(t, mark, n);
    }
  }

  lemma MarkHasInk(t: string)
    requires StartsWith(t, "++")
    ensures |Ink(t)| > 0
  {
    FirstOf(t, "++");
    InkHead(t);
  }

  lemma LineReadingsInk(l: PatchLine)
    ensures PlusInk(LineReadings(l)) == PlusInk([First(l)]) + PlusInk(Later(l))
  {
    PlusInkConcat([First(l)], Later(l));
  }

  lemma OnePlusInk(r: Reading)
    ensures PlusInk([r]) == if r.Plus? then |Ink(r.text)| else 0
  {
  }

  lemma FirstOfAdded(t: string)
    ensures var r := First(BodyLine(Added(t)));
            r == if StartsWith(t, "++") then FileName else Plus(Head(t))
  {
    SameMark(t, "++");
  }

  lemma AddedFirstInk(t: string)
    ensures PlusInk([First(BodyLine(Added(t)))]) == if StartsWith(t, "++") then 0 else |Ink(Head(t))|
    ensures StartsWith(t, "++") ==> |Ink(Head(t))| > 0
  {
    FirstOfAdded(t);
    OnePlusInk(First(BodyLine(Added(t))));
    SameMark(t, "++");
    if StartsWith(t, "++") {
      MarkHasInk(Head(t));
    }
  }

  lemma AddedLineInk(t: string)
    ensures var l := BodyLine(Added(t));
            && PlusInk(LineReadings(l)) <= |Ink(t)|
            && (PlusInk(LineReadings(l)) == |Ink(t)| <==> Intact(l))
  {
    AddedFirstInk(t);
    HeadAndLaterInk(t);
    ReadingsLoseInk(LaterFields(t));
    LineReadingsInk(BodyLine(Added(t)));
  }

  /** A line is read with the ink it means, exactly if it is read whole. */
  lemma LineInk(l: PatchLine)
    requires Innocent(l)
    ensures PlusInk(LineReadings(l)) <= PlusInk([Meant(l)])
    ensures PlusInk(LineReadings(l)) == PlusInk([Meant(l)]) <==> Intact(l)
  {
    OnePlusInk(Meant(l));
    if l.BodyLine? && l.line.Added? {
      AddedLineInk(l.line.text);
    } else {
      LineReadingsInk(l);
      OnePlusInk(First(l));
      NoPlusNoInk(Later(l));
    }
  }

  lemma IntactCons(lines: seq<PatchLine>)
    requires lines != []
    ensures AllIntact(lines) <==> Intact(lines[0]) && AllIntact(lines[1..])
  {
    hide Intact;
    assert lines == [lines[0]] + lines[1..];
    if Intact(lines[0]) && AllIntact(lines[1..]) {
      forall i | 0 <= i < |lines| ensures Intact(lines[i]) { assert i > 0 ==> lines[i] == lines[1..][i - 1]; }
    }
  }

  lemma InnocentTail(lines: seq<PatchLine>)
    requires lines != [] && NothingInvented(lines)
    ensures Innocent(lines[0]) && NothingInvented(lines[1..])
  {
    hide Innocent;
  }

  lemma {:induction false} LinesInk(lines: seq<PatchLine>)
    requires NothingInvented(lines)
    ensures PlusInk(PatchReadings(lines)) <= PlusInk(MeantReadings(lines))
    ensures PlusInk(PatchReadings(lines)) == PlusInk(MeantReadings(lines)) <==> AllIntact(lines)
    decreases |lines|
  {
    hide PlusInk, LineReadings, Meant, Intact, Innocent, AllIntact, NothingInvented;
    if lines == [] {
      NoLinesInk();
    } else {
      var l, rest := lines[0], lines[1..];
      InnocentTail(lines);
      LineInk(l);
      LinesInk(rest);
      PlusInkConcat(LineReadings(l), PatchReadings(rest));
      PlusInkConcat([Meant(l)], MeantReadings(rest));
      IntactCons(lines);
    }
  }

  lemma NoLinesInk()
    ensures AllIntact([])
  {
  }
}
