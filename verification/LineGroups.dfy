/**
  Lines and sentences put into parts: consecutive groups of them, each as large as it can be. Only
  what is too long by itself is cut, and it makes a group of its own.
 */
module LineGroups {
  import opened Wrappers
  import opened Text
  import opened Lines
  import opened Packing
  import opened Splitting
  import opened CodeChunking
  import opened Chunking

  // ----- lines of a unit that is too long ------------------------------------------------------

  /** The stripped text of each group of lines. */
  function GroupTexts(groups: seq<seq<string>>): (texts: seq<string>)
    ensures |texts| == |groups|
    ensures forall i :: 0 <= i < |texts| ==> texts[i] == Strip(JoinLines(groups[i]))
  {
    seq(|groups|, i requires 0 <= i < |groups| => Strip(JoinLines(groups[i])))
  }

  /** Every group after the first is thought one character longer than it is. */
  function Counted(groups: seq<seq<string>>, i: nat): nat
    requires i < |groups|
  {
    |JoinLines(groups[i])| + if i == 0 then 0 else 1
  }

  predicate NoneEmpty(groups: seq<seq<string>>) {
    forall i :: 0 <= i < |groups| ==> groups[i] != []
  }

  /** No group had room for the first line of the next. */
  predicate Filled(groups: seq<seq<string>>, max: int)
    requires NoneEmpty(groups)
  {
    forall i :: 0 <= i < |groups| - 1 ==> Counted(groups, i) + 1 + |groups[i + 1][0]| > max
  }

  /** The lines so far are grouped; the last group is the open one. */
  predicate Grouped(p: LinePile, groups: seq<seq<string>>, lines: seq<string>, max: int) {
    && groups != [] && NoneEmpty(groups) && Filled(groups, max)
    && Flatten(groups) == lines
    && p.parts == GroupTexts(groups[..|groups| - 1])
    && p.current == groups[|groups| - 1] && p.size == Counted(groups, |groups| - 1)
  }

  lemma StartedGroup(p: LinePile, groups: seq<seq<string>>, lines: seq<string>, line: string, max: int)
    requires Grouped(p, groups, lines, max) && p.size + |line| + 1 > max
    ensures Grouped(AddLine(p, line, max), groups + [[line]], lines + [line], max)
  {
    var groups' := groups + [[line]];
    FlattenSnoc(groups, [line]);
    assert groups'[..|groups|] == groups;
    assert groups == groups[..|groups| - 1] + [groups[|groups| - 1]];
    assert GroupTexts(groups) == GroupTexts(groups[..|groups| - 1]) + [Strip(JoinLines(p.current))];
    forall i | 0 <= i < |groups'| - 1 ensures Counted(groups', i) + 1 + |groups'[i + 1][0]| > max {
      assert Counted(groups', i) == Counted(groups, i);
    }
  }

  lemma GrownLines(p: LinePile, groups: seq<seq<string>>, lines: seq<string>, line: string, max: int)
    requires Grouped(p, groups, lines, max) && p.size + |line| + 1 <= max
    ensures var n := |groups| - 1;
            Grouped(AddLine(p, line, max), groups[..n] + [groups[n] + [line]], lines + [line], max)
  {
    var n := |groups| - 1;
    var groups' := groups[..n] + [groups[n] + [line]];
    assert groups == groups[..n] + [groups[n]];
    FlattenSnoc(groups[..n], groups[n]);
    FlattenSnoc(groups[..n], groups[n] + [line]);
    Associate(Flatten(groups[..n]), groups[n], [line]);
    JoinLinesSnoc(groups[n], line);
    assert groups'[..n] == groups[..n];
    forall i | 0 <= i < n ensures Counted(groups', i) + 1 + |groups'[i + 1][0]| > max {
      assert Counted(groups', i) == Counted(groups, i) && groups'[i + 1][0] == groups[i + 1][0];
    }
  }

  lemma FirstGroup(line: string, max: int)
    ensures Grouped(AddLine(LinePile([], [], 0), line, max), [[line]], [line], max)
  {
    FlattenSnoc([], [line]);
    assert [] + [[line]] == [[line]];
  }

  lemma {:induction false} LinesAreGrouped(lines: seq<string>, max: int) returns (groups: seq<seq<string>>)
    requires lines != []
    ensures Grouped(AddLines(lines, max), groups, lines, max)
  {
    var n := |lines| - 1;
    hide AddLine, Grouped;
    if n == 0 {
      groups := [[lines[0]]];
      assert lines[..0] == [] && lines == [lines[0]];
      FirstGroup(lines[0], max);
    } else {
      var before := LinesAreGrouped(lines[..n], max);
      var p := AddLines(lines[..n], max);
      assert lines == lines[..n] + [lines[n]];
      if p.size + |lines[n]| + 1 > max {
        groups := before + [[lines[n]]];
        StartedGroup(p, before, lines[..n], lines[n], max);
      } else {
        GroupedIsNotEmpty(p, before, lines[..n], max);
        groups := before[..|before| - 1] + [before[|before| - 1] + [lines[n]]];
        GrownLines(p, before, lines[..n], lines[n], max);
      }
    }
  }

  lemma GroupedIsNotEmpty(p: LinePile, groups: seq<seq<string>>, lines: seq<string>, max: int)
    requires Grouped(p, groups, lines, max)
    ensures groups != []
  {
  }

  /**
    A unit that is too long is cut between lines into consecutive groups, and no group had room
    for the first line of the next; after the first group the code reckons one character too
    many, so a line that would just fit goes on.
   */
  lemma LargeUnitIsFilled(unit: string, max: int) returns (groups: seq<seq<string>>)
    requires |unit| > max && unit != ""
    ensures NoneEmpty(groups) && Filled(groups, max)
    ensures Flatten(groups) == SplitLines(unit) && SplitLargeUnit(unit, max) == GroupTexts(groups)
  {
    var lines := SplitLines(unit);
    groups := LinesAreGrouped(lines, max);
    var n := |groups| - 1;
    assert groups == groups[..n] + [groups[n]];
    assert GroupTexts(groups) == GroupTexts(groups[..n]) + [Strip(JoinLines(groups[n]))];
  }

  // ----- sentences -----------------------------------------------------------------------------

  /** Units that are joined, or one that is cut. */
  datatype Group = Joined(units: seq<string>) | Cut(unit: string)

  function UnitsIn(g: Group): seq<string> {
    if g.Joined? then g.units else [g.unit]
  }

  function AllUnits(groups: seq<Group>): seq<string> {
    if groups == [] then [] else AllUnits(groups[..|groups| - 1]) + UnitsIn(groups[|groups| - 1])
  }

  function Rendered(g: Group, max: nat): seq<string>
    requires max > 0
  {
    if g.Joined? then [JoinWith(g.units, " ")] else HardSplit(g.unit, max)
  }

  function AllRendered(groups: seq<Group>, max: nat): seq<string>
    requires max > 0
  {
    if groups == [] then [] else AllRendered(groups[..|groups| - 1], max) + Rendered(groups[|groups| - 1], max)
  }

  /** Joined units fit together; a unit is cut only if it does not fit. */
  predicate IsRight(g: Group, max: nat, separator: string) {
    if g.Joined? then g.units != [] && |JoinWith(g.units, separator)| <= max else |g.unit| > max
  }

  predicate AllRight(groups: seq<Group>, max: nat, separator: string) {
    forall i :: 0 <= i < |groups| ==> IsRight(groups[i], max, separator)
  }

  /** The first of two groups had no room for the first unit of the second. */
  predicate NoRoom(g: Group, h: Group, max: nat, separator: string) {
    g.Joined? && h.Joined? && h.units != [] ==>
      |JoinWith(g.units, separator)| + |separator| + |h.units[0]| > max
  }

  predicate NeverRoom(groups: seq<Group>, max: nat, separator: string) {
    forall i :: 0 <= i < |groups| - 1 ==> NoRoom(groups[i], groups[i + 1], max, separator)
  }

  lemma GroupsSnoc(groups: seq<Group>, g: Group, max: nat)
    requires max > 0
    ensures AllUnits(groups + [g]) == AllUnits(groups) + UnitsIn(g)
    ensures AllRendered(groups + [g], max) == AllRendered(groups, max) + Rendered(g, max)
  {
    assert (groups + [g])[..|groups|] == groups;
  }

  /** The groups of the sentences so far; an open one, if there is one, is the last. */
  predicate Sorted(p: Pile, groups: seq<Group>, units: seq<string>, max: nat)
    requires max > 0
  {
    && AllRight(groups, max, " ") && NeverRoom(groups, max, " ") && AllUnits(groups) == units
    && Trimmed(p.current)
    && (if p.current == "" then AllRendered(groups, max) == p.parts && (groups != [] ==> groups[|groups| - 1].Cut?)
        else
          && groups != [] && groups[|groups| - 1].Joined?
          && p.current == JoinWith(groups[|groups| - 1].units, " ")
          && AllRendered(groups[..|groups| - 1], max) == p.parts)
  }

  lemma SortedFlushes(p: Pile, groups: seq<Group>, units: seq<string>, max: nat)
    requires max > 0 && Sorted(p, groups, units, max)
    ensures AllRendered(groups, max) == Flush(p)
  {
    if p.current != "" {
      TrimmedIsStripped(p.current);
      var n := |groups| - 1;
      assert groups == groups[..n] + [groups[n]];
    }
  }

  lemma AnotherGroup(p: Pile, groups: seq<Group>, units: seq<string>, g: Group, max: nat)
    requires max > 0 && Sorted(p, groups, units, max) && IsRight(g, max, " ")
    requires groups != [] ==> NoRoom(groups[|groups| - 1], g, max, " ")
    ensures AllRight(groups + [g], max, " ") && NeverRoom(groups + [g], max, " ")
    ensures AllUnits(groups + [g]) == units + UnitsIn(g)
    ensures AllRendered(groups + [g], max) == Flush(p) + Rendered(g, max)
    ensures (groups + [g])[..|groups|] == groups && AllRendered(groups, max) == Flush(p)
  {
    hide IsRight, NoRoom, Sorted, Flush, AllUnits, AllRendered;
    SortedIsRight(p, groups, units, max);
    SortedFlushes(p, groups, units, max);
    GroupsSnoc(groups, g, max);
  }

  /** A sentence that is too long is cut. */
  lemma LongIsSorted(p: Pile, groups: seq<Group>, units: seq<string>, u: string, max: nat)
    requires max > 0 && Sorted(p, groups, units, max) && |u| > max
    ensures Sorted(AddSentence(p, u, max), groups + [Cut(u)], units + [u], max)
  {
    AnotherGroup(p, groups, units, Cut(u), max);
  }

  /** A sentence that does not fit any more begins a group. */
  lemma NextIsSorted(p: Pile, groups: seq<Group>, units: seq<string>, u: string, max: nat)
    requires max > 0 && Sorted(p, groups, units, max) && u != "" && Trimmed(u) && |u| <= max
    requires p.current != "" ==> |p.current + " " + u| > max
    ensures Sorted(AddSentence(p, u, max), groups + [Joined([u])], units + [u], max)
  {
    TrimmedIsStripped(u);
    TrimmedIsStripped(p.current);
    AnotherGroup(p, groups, units, Joined([u]), max);
  }

  /** A sentence that fits joins the open group. */
  lemma JoinedIsSorted(p: Pile, groups: seq<Group>, units: seq<string>, u: string, max: nat)
    requires max > 0 && Sorted(p, groups, units, max) && u != "" && Trimmed(u) && |u| <= max
    requires p.current != "" && |p.current + " " + u| <= max
    ensures var n := |groups| - 1;
            Sorted(AddSentence(p, u, max), groups[..n] + [Joined(groups[n].units + [u])], units + [u], max)
  {
    var n := |groups| - 1;
    var init, g, h := groups[..n], groups[n], Joined(groups[n].units + [u]);
    assert IsRight(groups[n], max, " ");
    TrimmedIsStripped(u);
    JoinWithSnoc(g.units, " ", u);
    assert groups == init + [g];
    GroupsSnoc(init, g, max);
    GroupsSnoc(init, h, max);
    Associate(AllUnits(init), g.units, [u]);
    assert (init + [h])[..n] == init;
    forall i | 0 <= i < n ensures NoRoom((init + [h])[i], (init + [h])[i + 1], max, " ") {
      assert NoRoom(groups[i], groups[i + 1], max, " ");
    }
  }

  lemma SentenceIsSorted(p: Pile, groups: seq<Group>, units: seq<string>, u: string, max: nat)
    returns (groups': seq<Group>)
    requires max > 0 && Sorted(p, groups, units, max) && u != "" && Trimmed(u)
    ensures Sorted(AddSentence(p, u, max), groups', units + [u], max)
  {
    hide Sorted, AddSentence, Trimmed, JoinWith;
    if |u| > max {
      LongIsSorted(p, groups, units, u, max);
      groups' := groups + [Cut(u)];
    } else if p.current != "" && |p.current + " " + u| <= max {
      OpenGroup(p, groups, units, max);
      JoinedIsSorted(p, groups, units, u, max);
      groups' := groups[..|groups| - 1] + [Joined(groups[|groups| - 1].units + [u])];
    } else {
      NextIsSorted(p, groups, units, u, max);
      groups' := groups + [Joined([u])];
    }
  }

  lemma NothingSorted(max: nat)
    requires max > 0
    ensures AddSentences([], max) == EMPTY_PILE && Sorted(EMPTY_PILE, [], [], max)
  {
  }

  lemma LastSentence(sentences: seq<string>, max: nat)
    requires max > 0 && Presentable(sentences) && sentences != []
    ensures var init, u := sentences[..|sentences| - 1], sentences[|sentences| - 1];
            && sentences == init + [u] && Presentable(init) && u != "" && Trimmed(u)
            && AddSentences(sentences, max) == AddSentence(AddSentences(init, max), u, max)
  {
  }

  lemma {:induction false} SentencesAreSorted(sentences: seq<string>, max: nat) returns (groups: seq<Group>)
    requires max > 0 && Presentable(sentences)
    ensures Sorted(AddSentences(sentences, max), groups, sentences, max)
  {
    hide Sorted, AddSentence, AddSentences, Presentable, Trimmed;
    if sentences == [] {
      groups := [];
      NothingSorted(max);
    } else {
      var n := |sentences| - 1;
      LastSentence(sentences, max);
      var before := SentencesAreSorted(sentences[..n], max);
      groups := SentenceIsSorted(AddSentences(sentences[..n], max), before, sentences[..n], sentences[n], max);
    }
  }

  lemma OpenGroup(p: Pile, groups: seq<Group>, units: seq<string>, max: nat)
    requires max > 0 && Sorted(p, groups, units, max) && p.current != ""
    ensures groups != [] && groups[|groups| - 1].Joined?
  {
  }

  /**
    A paragraph that is too long is put together from its sentences, in order: as many as fit
    make a part, and only a sentence that does not fit by itself is cut.
   */
  lemma LongBlockIsFilled(block: string, max: nat) returns (groups: seq<Group>)
    requires max > 0 && |block| > max
    ensures AllRight(groups, max, " ") && NeverRoom(groups, max, " ")
    ensures AllUnits(groups) == Sentences(block) && SplitBlock(block, max) == AllRendered(groups, max)
  {
    hide Sorted, Trimmed;
    var sentences := Sentences(block);
    CleanIsTrimmed(SentencesFrom(Strip(block), 0, 0));
    forall i | 0 <= i < |sentences| ensures sentences[i] != "" && Trimmed(sentences[i]) {
      assert sentences[i] in sentences;
    }
    groups := SentencesAreSorted(sentences, max);
    SortedIsRight(AddSentences(sentences, max), groups, sentences, max);
    SortedFlushes(AddSentences(sentences, max), groups, sentences, max);
  }

  lemma SortedIsRight(p: Pile, groups: seq<Group>, units: seq<string>, max: nat)
    requires max > 0 && Sorted(p, groups, units, max)
    ensures AllRight(groups, max, " ") && NeverRoom(groups, max, " ") && AllUnits(groups) == units
  {
  }

  // ----- lines of a code block -----------------------------------------------------------------

  function LinesRendered(g: Group, max: nat): seq<string>
    requires max > 0
  {
    if g.Joined? then [RStrip(JoinWith(g.units, "\n"))] else HardSplit(g.unit, max)
  }

  function AllLinesRendered(groups: seq<Group>, max: nat): seq<string>
    requires max > 0
  {
    if groups == [] then []
    else AllLinesRendered(groups[..|groups| - 1], max) + LinesRendered(groups[|groups| - 1], max)
  }

  lemma LineGroupsSnoc(groups: seq<Group>, g: Group, max: nat)
    requires max > 0
    ensures AllUnits(groups + [g]) == AllUnits(groups) + UnitsIn(g)
    ensures AllLinesRendered(groups + [g], max) == AllLinesRendered(groups, max) + LinesRendered(g, max)
  {
    assert (groups + [g])[..|groups|] == groups;
  }

  /** There is an open group: the part being filled says something. */
  predicate Opened(p: Pile, groups: seq<Group>, max: nat)
    requires max > 0
  {
    && groups != [] && groups[|groups| - 1].Joined?
    && p.current == JoinWith(groups[|groups| - 1].units, "\n")
    && AllLinesRendered(groups[..|groups| - 1], max) == p.parts
  }

  /** All groups are closed, and whatever comes next does not fit in the last. */
  predicate Closed(p: Pile, groups: seq<Group>, max: nat)
    requires max > 0
  {
    && AllLinesRendered(groups, max) == p.parts
    && (groups != [] && groups[|groups| - 1].Joined? ==> |JoinWith(groups[|groups| - 1].units, "\n")| >= max)
  }

  /** The groups of the lines so far. Empty lines at the head of a part are left out. */
  predicate LinesSorted(p: Pile, groups: seq<Group>, lines: seq<string>, max: nat)
    requires max > 0
  {
    && AllRight(groups, max, "\n") && NeverRoom(groups, max, "\n")
    && RowsAll(AllUnits(groups)) == RowsAll(lines)
    && (if p.current == "" then Closed(p, groups, max) else Opened(p, groups, max))
  }

  lemma LinesFlush(p: Pile, groups: seq<Group>, lines: seq<string>, max: nat)
    requires max > 0 && LinesSorted(p, groups, lines, max)
    ensures AllLinesRendered(groups, max) == FlushCode(p)
  {
    if p.current != "" {
      var n := |groups| - 1;
      assert groups == groups[..n] + [groups[n]];
    }
  }

  lemma SortedLinesAreRight(p: Pile, groups: seq<Group>, lines: seq<string>, max: nat)
    requires max > 0 && LinesSorted(p, groups, lines, max)
    ensures AllRight(groups, max, "\n") && NeverRoom(groups, max, "\n")
    ensures RowsAll(AllUnits(groups)) == RowsAll(lines)
  {
  }

  lemma RowsOfNext(groups: seq<Group>, lines: seq<string>, line: string)
    requires RowsAll(AllUnits(groups)) == RowsAll(lines)
    ensures RowsAll(AllUnits(groups) + [line]) == RowsAll(lines + [line])
  {
    RowsAllSnoc(AllUnits(groups), line);
    RowsAllSnoc(lines, line);
  }

  lemma AnotherLineGroup(p: Pile, groups: seq<Group>, lines: seq<string>, g: Group, line: string, max: nat)
    requires max > 0 && LinesSorted(p, groups, lines, max) && IsRight(g, max, "\n") && UnitsIn(g) == [line]
    requires groups != [] ==> NoRoom(groups[|groups| - 1], g, max, "\n")
    ensures AllRight(groups + [g], max, "\n") && NeverRoom(groups + [g], max, "\n")
    ensures RowsAll(AllUnits(groups + [g])) == RowsAll(lines + [line])
    ensures AllLinesRendered(groups + [g], max) == FlushCode(p) + LinesRendered(g, max)
    ensures (groups + [g])[..|groups|] == groups && AllLinesRendered(groups, max) == FlushCode(p)
  {
    hide IsRight, NoRoom, FlushCode, AllUnits, AllLinesRendered, RowsAll, LinesSorted;
    SortedLinesAreRight(p, groups, lines, max);
    LinesFlush(p, groups, lines, max);
    LineGroupsSnoc(groups, g, max);
    RowsOfNext(groups, lines, line);
  }

  lemma LongLineIsSorted(p: Pile, groups: seq<Group>, lines: seq<string>, line: string, max: nat)
    requires max > 0 && LinesSorted(p, groups, lines, max) && |line| > max
    ensures LinesSorted(AddCodeLine(p, line, max), groups + [Cut(line)], lines + [line], max)
  {
    AnotherLineGroup(p, groups, lines, Cut(line), line, max);
  }

  /** A line that does not fit any more begins a group, unless it is empty. */
  lemma NextLineIsSorted(p: Pile, groups: seq<Group>, lines: seq<string>, line: string, max: nat)
    returns (groups': seq<Group>)
    requires max > 0 && LinesSorted(p, groups, lines, max) && |line| <= max
    requires p.current != "" ==> |p.current + "\n" + line| > max
    ensures LinesSorted(AddCodeLine(p, line, max), groups', lines + [line], max)
  {
    LinesFlush(p, groups, lines, max);
    if line == "" {
      groups' := groups;
      RowsAllSnoc(lines, "");
      RowsOfLine("");
    } else {
      groups' := groups + [Joined([line])];
      AnotherLineGroup(p, groups, lines, Joined([line]), line, max);
    }
  }

  lemma JoinedLineIsSorted(p: Pile, groups: seq<Group>, lines: seq<string>, line: string, max: nat)
    requires max > 0 && LinesSorted(p, groups, lines, max)
    requires p.current != "" && |p.current + "\n" + line| <= max
    ensures groups != [] && groups[|groups| - 1].Joined?
    ensures var n := |groups| - 1;
            LinesSorted(AddCodeLine(p, line, max), groups[..n] + [Joined(groups[n].units + [line])], lines + [line], max)
  {
    hide RowsAll, AllUnits, AllLinesRendered, JoinWith;
    var n := |groups| - 1;
    var init, g, h := groups[..n], groups[n], Joined(groups[n].units + [line]);
    assert IsRight(groups[n], max, "\n");
    JoinWithSnoc(g.units, "\n", line);
    assert groups == init + [g];
    LineGroupsSnoc(init, g, max);
    LineGroupsSnoc(init, h, max);
    Associate(AllUnits(init), g.units, [line]);
    RowsOfNext(groups, lines, line);
    assert (init + [h])[..n] == init;
    assert h.units[0] == g.units[0];
    forall i | 0 <= i < n ensures NoRoom((init + [h])[i], (init + [h])[i + 1], max, "\n") {
      assert NoRoom(groups[i], groups[i + 1], max, "\n");
    }
  }

  lemma NoLines(max: nat)
    requires max > 0
    ensures AddCodeLines([], max) == EMPTY_PILE && LinesSorted(EMPTY_PILE, [], [], max)
  {
  }

  lemma LastLine(lines: seq<string>, max: nat)
    requires max > 0 && lines != []
    ensures var init, line := lines[..|lines| - 1], lines[|lines| - 1];
            && lines == init + [line]
            && AddCodeLines(lines, max) == AddCodeLine(AddCodeLines(init, max), line, max)
  {
  }

  lemma {:induction false} LinesAreSorted(lines: seq<string>, max: nat) returns (groups: seq<Group>)
    requires max > 0
    ensures LinesSorted(AddCodeLines(lines, max), groups, lines, max)
  {
    hide LinesSorted, AddCodeLine, AddCodeLines;
    if lines == [] {
      groups := [];
      NoLines(max);
    } else {
      var n := |lines| - 1;
      LastLine(lines, max);
      var before := LinesAreSorted(lines[..n], max);
      var p := AddCodeLines(lines[..n], max);
      if |lines[n]| > max {
        LongLineIsSorted(p, before, lines[..n], lines[n], max);
        groups := before + [Cut(lines[n])];
      } else if p.current != "" && |p.current + "\n" + lines[n]| <= max {
        JoinedLineIsSorted(p, before, lines[..n], lines[n], max);
        groups := before[..|before| - 1] + [Joined(before[|before| - 1].units + [lines[n]])];
      } else {
        groups := NextLineIsSorted(p, before, lines[..n], lines[n], max);
      }
    }
  }

  /**
    A code block that is too long is put together from its lines, in order: as many as fit make a
    part, and only a line that does not fit by itself is cut.
   */
  lemma LongCodeBlockIsFilled(block: string, max: nat) returns (groups: seq<Group>)
    requires max > 0 && |block| > max
    ensures AllRight(groups, max, "\n") && NeverRoom(groups, max, "\n")
    ensures RowsAll(AllUnits(groups)) == RowsAll(SplitLines(block))
    ensures SplitCodeBlock(block, max) == Clean(AllLinesRendered(groups, max))
  {
    hide LinesSorted;
    groups := LinesAreSorted(SplitLines(block), max);
    SortedLinesAreRight(AddCodeLines(SplitLines(block), max), groups, SplitLines(block), max);
    LinesFlush(AddCodeLines(SplitLines(block), max), groups, SplitLines(block), max);
  }
}
