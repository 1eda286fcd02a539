/** What the lines of a patch mean, as readings: from these the reader would find what it should. */
module DiffMeaning {
  import opened Wrappers
  import opened Text
  import opened Lines
  import opened DiffHunks
  import opened DiffPatches
  import opened DiffReading

  // ----- what the lines of a patch mean --------------------------------------------------------

  function MeantByLine(d: DiffLine): Reading {
    match d
    case Context(t) => Space(t)
    case Added(t) => Plus(t)
    case Removed(_) => Ignored
    case NoNewline => Ignored
  }

  /** What a line of a patch means, whatever characters it holds. */
  function Meant(l: PatchLine): Reading {
    match l
    case HeaderLine(h) => Header(h.newStart)
    case BodyLine(d) => MeantByLine(d)
  }

  function MeantReadings(lines: seq<PatchLine>): seq<Reading> {
    if lines == [] then [] else [Meant(lines[0])] + MeantReadings(lines[1..])
  }

  lemma MeantCons(l: PatchLine, lines: seq<PatchLine>)
    ensures MeantReadings([l] + lines) == [Meant(l)] + MeantReadings(lines)
  {
    assert ([l] + lines)[1..] == lines;
  }

  lemma HunksOfCons(r: Reading, readings: seq<Reading>)
    ensures HunksOf([r] + readings)
      == if r.Header? then [Hunk(0, None, r.first, None, "", LeadBody(readings))] + HunksOf(readings) else HunksOf(readings)
    ensures LeadBody([r] + readings)
      == if r.Header? then []
         else if r.Plus? then [Added(r.text)] + LeadBody(readings)
         else if r.Space? then [Context(r.text)] + LeadBody(readings)
         else LeadBody(readings)
  {
    assert ([r] + readings)[1..] == readings;
  }

  predicate AtHeader(lines: seq<PatchLine>) {
    lines != [] ==> lines[0].HeaderLine?
  }

  lemma {:induction false} BodyIsMeant(body: seq<DiffLine>, later: seq<PatchLine>, n: nat)
    requires AtHeader(later)
    ensures var readings := MeantReadings(BodyLines(body) + later);
            && NewSide(LeadBody(readings), n) == NewSide(body, n)
            && HunksOf(readings) == HunksOf(MeantReadings(later))
    decreases |body|
  {
    if body == [] {
      assert BodyLines(body) + later == later;
    } else {
      var d, rest := body[0], BodyLines(body[1..]) + later;
      assert BodyLines(body) + later == [BodyLine(d)] + rest;
      BodyIsMeant(body[1..], later, n);
      BodyIsMeant(body[1..], later, n + 1);
      MeantCons(BodyLine(d), rest);
      HunksOfCons(Meant(BodyLine(d)), MeantReadings(rest));
      if d.Added? || d.Context? {
        NewSideHead(d, LeadBody(MeantReadings(rest)), n);
      }
    }
  }

  lemma {:induction false} HunksAreMeant(render: Renderer, hunks: seq<Hunk>)
    ensures OfHunks(render, HunksOf(MeantReadings(LinesOf(hunks)))) == OfHunks(render, hunks)
    ensures AtHeader(LinesOf(hunks))
  {
    if hunks != [] {
      var h, later := hunks[0], LinesOf(hunks[1..]);
      HunksAreMeant(render, hunks[1..]);
      BodyIsMeant(h.body, later, h.newStart);
      var rest := MeantReadings(BodyLines(h.body) + later);
      MeantCons(HeaderLine(h), BodyLines(h.body) + later);
      HunksOfCons(Header(h.newStart), rest);
      OfHunksCons(render, Hunk(0, None, h.newStart, None, "", LeadBody(rest)), HunksOf(rest));
    }
  }

  lemma OfHunksCons(render: Renderer, h: Hunk, hunks: seq<Hunk>)
    ensures OfHunks(render, [h] + hunks) == OfRuns(render, Runs(NewSide(h.body, h.newStart))) + OfHunks(render, hunks)
  {
    assert ([h] + hunks)[1..] == hunks;
  }

  /** What should be found is what the lines mean. */
  lemma ExpectedIsMeant(o: Origin, hunks: seq<Hunk>)
    ensures Expected(o, hunks) == ExtractReadings(RenderFor(o), MeantReadings(LinesOf(hunks)))
  {
    var lines := LinesOf(hunks);
    HunksAreMeant(RenderFor(o), hunks);
    RenderSkipsNothing(o);
    if lines != [] {
      HunksOfCons(Meant(lines[0]), MeantReadings(lines[1..]));
    }
    NothingPending(RenderFor(o), MeantReadings(lines));
  }
}
