/**
  The evidence splitter: texts by paragraphs, sentences and, at last, length; fenced code by
  fences and lines; other code by its units. Children inherit everything but id and text.
 */
module Chunking {
  import opened Wrappers
  import opened Text
  import opened Lines
  import opened Packing
  import opened Splitting
  import opened CodeChunking
  import opened Decimals

  // ----- plain text --------------------------------------------------------------------------

  /** One sentence of a paragraph that is too long. */
  function AddSentence(p: Pile, sentence: string, max: nat): Pile
    requires max > 0
  {
    if |sentence| > max then Pile(Flush(p) + HardSplit(sentence, max), "")
    else Append(p, sentence, max, " ")
  }

  function AddSentences(sentences: seq<string>, max: nat): Pile
    requires max > 0
  {
    if sentences == [] then EMPTY_PILE
    else AddSentence(AddSentences(sentences[..|sentences| - 1], max), sentences[|sentences| - 1], max)
  }

  function SplitBlock(block: string, max: nat): seq<string>
    requires max > 0
  {
    if |block| <= max then [Strip(block)] else Flush(AddSentences(Sentences(block), max))
  }

  method SplitOversizedBlock(block: string, max: nat) returns (parts: seq<string>)
    requires max > 0
    ensures parts == SplitBlock(block, max)
  {
    if |block| <= max { return [Strip(block)]; }
    parts := PackSentences(Sentences(block), max);
  }

  method PackSentences(sentences: seq<string>, max: nat) returns (parts: seq<string>)
    requires max > 0
    ensures parts == Flush(AddSentences(sentences, max))
  {
    var list := new PartList();
    var current := "";
    for i := 0 to |sentences|
      invariant fresh(list)
      invariant Pile(list.items, current) == AddSentences(sentences[..i], max)
    {
      assert sentences[..i + 1][..i] == sentences[..i];
      if |sentences[i]| > max {
        list.Finish(current);
        current := "";
        list.Extend(HardSplit(sentences[i], max));
      } else {
        current := list.AppendUnit(current, sentences[i], max, " ");
      }
    }
    assert sentences[..|sentences|] == sentences;
    list.Finish(current);
    parts := list.items;
  }

  function UnitsOfBlocks(blocks: seq<string>, max: nat): seq<string>
    requires max > 0
  {
    if blocks == [] then []
    else UnitsOfBlocks(blocks[..|blocks| - 1], max) + SplitBlock(blocks[|blocks| - 1], max)
  }

  function SplitText(text: string, max: nat): seq<string>
    requires max > 0
  {
    Pack(UnitsOfBlocks(Clean(Paragraphs(Strip(text))), max), max, PARAGRAPH)
  }

  lemma AppendAllSnoc(p: Pile, units: seq<string>, u: string, max: int, separator: string)
    ensures AppendAll(p, units + [u], max, separator) == Append(AppendAll(p, units, max, separator), u, max, separator)
  {
    assert (units + [u])[..|units|] == units;
  }

  lemma {:induction false} AppendAllConcat(p: Pile, a: seq<string>, b: seq<string>, max: int, separator: string)
    ensures AppendAll(p, a + b, max, separator) == AppendAll(AppendAll(p, a, max, separator), b, max, separator)
    decreases |b|
  {
    hide Append;
    if b == [] {
      assert a + b == a;
    } else {
      var init, last := b[..|b| - 1], b[|b| - 1];
      AppendAllConcat(p, a, init, max, separator);
      assert b == init + [last];
      Associate(a, init, [last]);
      AppendAllSnoc(p, a + init, last, max, separator);
      AppendAllSnoc(AppendAll(p, a, max, separator), init, last, max, separator);
    }
  }

  method SplitPlainText(text: string, max: nat) returns (parts: seq<string>)
    requires max > 0
    ensures parts == SplitText(text, max)
  {
    parts := PackBlocks(Clean(Paragraphs(Strip(text))), max);
  }

  /** The units of one block, which join those of the blocks before it. */
  method UnitsOfNext(blocks: seq<string>, i: nat, max: nat) returns (units: seq<string>)
    requires max > 0 && i < |blocks|
    ensures UnitsOfBlocks(blocks[..i + 1], max) == UnitsOfBlocks(blocks[..i], max) + units
  {
    assert blocks[..i + 1][..i] == blocks[..i];
    units := SplitOversizedBlock(blocks[i], max);
  }

  method PackBlocks(blocks: seq<string>, max: nat) returns (parts: seq<string>)
    requires max > 0
    ensures parts == Pack(UnitsOfBlocks(blocks, max), max, PARAGRAPH)
  {
    var list := new PartList();
    var current := "";
    for i := 0 to |blocks|
      invariant fresh(list)
      invariant Pile(list.items, current) == AppendAll(EMPTY_PILE, UnitsOfBlocks(blocks[..i], max), max, PARAGRAPH)
    {
      var units := UnitsOfNext(blocks, i, max);
      AppendAllConcat(EMPTY_PILE, UnitsOfBlocks(blocks[..i], max), units, max, PARAGRAPH);
      current := list.AppendUnits(current, units, max, PARAGRAPH);
    }
    assert blocks[..|blocks|] == blocks;
    list.Finish(current);
    parts := list.items;
  }

  // ----- what plain text keeps ---------------------------------------------------------------

  predicate PileFits(p: Pile, max: int) {
    AllWithin(p.parts, max) && |p.current| <= max
  }

  lemma StripIsShorter(s: string)
    ensures |Strip(s)| <= |s|
  {
  }

  lemma FlushFits(p: Pile, max: int)
    requires PileFits(p, max)
    ensures AllWithin(Flush(p), max)
  {
    StripIsShorter(p.current);
  }

  lemma PlaceFits(p: Pile, u: string, max: int, separator: string)
    requires PileFits(p, max) && |u| <= max
    ensures PileFits(Place(p, u, max, separator), max)
  {
    StripIsShorter(p.current);
  }

  lemma AddSentenceFits(p: Pile, sentence: string, max: nat)
    requires max > 0 && PileFits(p, max)
    ensures PileFits(AddSentence(p, sentence, max), max)
  {
    if |sentence| > max {
      FlushFits(p, max);
      HardSplitFits(sentence, max);
    } else {
      StripIsShorter(sentence);
      PlaceFits(p, Strip(sentence), max, " ");
    }
  }

  lemma AddSentenceKeepsInk(p: Pile, sentence: string, max: nat)
    requires max > 0
    ensures PileInk(AddSentence(p, sentence, max)) == PileInk(p) + Ink(sentence)
  {
    if |sentence| > max {
      FlushKeepsInk(p);
      HardSplitFits(sentence, max);
      InkAllConcat(Flush(p), HardSplit(sentence, max));
    } else {
      AppendKeepsInk(p, sentence, max, " ");
    }
  }

  lemma {:induction false} SentencesFit(sentences: seq<string>, max: nat)
    requires max > 0
    ensures PileFits(AddSentences(sentences, max), max)
    ensures PileInk(AddSentences(sentences, max)) == InkAll(sentences)
  {
    if sentences != [] {
      var init, last := sentences[..|sentences| - 1], sentences[|sentences| - 1];
      SentencesFit(init, max);
      AddSentenceFits(AddSentences(init, max), last, max);
      AddSentenceKeepsInk(AddSentences(init, max), last, max);
    }
  }

  lemma PackedSentencesFit(sentences: seq<string>, max: nat)
    requires max > 0
    ensures AllWithin(Flush(AddSentences(sentences, max)), max)
    ensures InkAll(Flush(AddSentences(sentences, max))) == InkAll(sentences)
  {
    SentencesFit(sentences, max);
    FlushFits(AddSentences(sentences, max), max);
    FlushKeepsInk(AddSentences(sentences, max));
  }

  lemma BlockFits(block: string, max: nat)
    requires max > 0
    ensures AllWithin(SplitBlock(block, max), max)
    ensures InkAll(SplitBlock(block, max)) == Ink(block)
  {
    if |block| <= max {
      StripIsShorter(block);
      InkStrip(block);
      InkAllOne(Strip(block));
    } else {
      PackedSentencesFit(Sentences(block), max);
      SentencesKeepInk(block);
    }
  }

  lemma {:induction false} BlocksFit(blocks: seq<string>, max: nat)
    requires max > 0
    ensures AllWithin(UnitsOfBlocks(blocks, max), max)
    ensures InkAll(UnitsOfBlocks(blocks, max)) == InkAll(blocks)
  {
    if blocks != [] {
      var init, last := blocks[..|blocks| - 1], blocks[|blocks| - 1];
      BlocksFit(init, max);
      BlockFits(last, max);
      InkAllConcat(UnitsOfBlocks(init, max), SplitBlock(last, max));
    }
  }

  lemma PackedUnitsKeepContent(units: seq<string>, max: nat)
    requires AllWithin(units, max)
    ensures InkAll(Pack(units, max, PARAGRAPH)) == InkAll(units)
    ensures AllWithin(Pack(units, max, PARAGRAPH), max)
  {
    PackKeepsInk(units, max, PARAGRAPH);
    PackFits(units, max, PARAGRAPH);
  }

  lemma PackedBlocksKeepContent(blocks: seq<string>, max: nat)
    requires max > 0
    ensures InkAll(Pack(UnitsOfBlocks(blocks, max), max, PARAGRAPH)) == InkAll(blocks)
    ensures AllWithin(Pack(UnitsOfBlocks(blocks, max), max, PARAGRAPH), max)
  {
    BlocksFit(blocks, max);
    PackedUnitsKeepContent(UnitsOfBlocks(blocks, max), max);
  }

  /**
    Splitting a plain text keeps its content and the size bound: the parts' non-whitespace
    characters, in order, are those of the text, and no part is too long.
   */
  lemma TextPartsKeepContent(text: string, max: nat)
    requires max > 0
    ensures InkAll(SplitText(text, max)) == Ink(text)
    ensures AllWithin(SplitText(text, max), max)
  {
    PackedBlocksKeepContent(Clean(Paragraphs(Strip(text))), max);
    BlocksKeepInk(Strip(text));
    InkStrip(text);
  }

  // ----- fenced code -------------------------------------------------------------------------

  /** The blocks so far, the lines of the current one, and whether a fence is open. */
  datatype FencePile = FencePile(blocks: seq<string>, current: seq<string>, inFence: bool)

  function AddFenceLine(p: FencePile, line: string): FencePile {
    var inFence := if StartsWith(Strip(line), "```") then !p.inFence else p.inFence;
    if !inFence && Strip(line) == "" && p.current != []
    then FencePile(p.blocks + [Strip(JoinLines(p.current))], [], inFence)
    else FencePile(p.blocks, p.current + [RStrip(line)], inFence)
  }

  function AddFenceLines(lines: seq<string>): FencePile {
    if lines == [] then FencePile([], [], false)
    else AddFenceLine(AddFenceLines(lines[..|lines| - 1]), lines[|lines| - 1])
  }

  function FlushFence(p: FencePile): seq<string> {
    if p.current == [] then p.blocks else p.blocks + [Strip(JoinLines(p.current))]
  }

  /** Fences are kept together; the rest is split at blank lines. */
  function CodeBlocks(text: string): seq<string> {
    NonEmpty(FlushFence(AddFenceLines(SplitLines(Strip(text)))))
  }

  method AddOneFenceLine(blocks: seq<string>, current: seq<string>, inFence: bool, line: string)
    returns (blocks': seq<string>, current': seq<string>, inFence': bool)
    ensures FencePile(blocks', current', inFence') == AddFenceLine(FencePile(blocks, current, inFence), line)
  {
    blocks', current', inFence' := blocks, current, inFence;
    if StartsWith(Strip(line), "```") {
      inFence' := !inFence';
    }
    if !inFence' && Strip(line) == "" && current' != [] {
      blocks' := blocks' + [Strip(JoinLines(current'))];
      current' := [];
      return;
    }
    current' := current' + [RStrip(line)];
  }

  method SplitCodeBlocks(lines: seq<string>) returns (blocks: seq<string>)
    ensures blocks == NonEmpty(FlushFence(AddFenceLines(lines)))
  {
    blocks := [];
    var current: seq<string> := [];
    var inFence := false;
    for i := 0 to |lines|
      invariant FencePile(blocks, current, inFence) == AddFenceLines(lines[..i])
    {
      assert lines[..i + 1][..i] == lines[..i];
      blocks, current, inFence := AddOneFenceLine(blocks, current, inFence, lines[i]);
    }
    assert lines[..|lines|] == lines;
    if current != [] {
      blocks := blocks + [Strip(JoinLines(current))];
    }
    blocks := NonEmpty(blocks);
  }

  /** One line of a code block that is too long. */
  function AddCodeLine(p: Pile, line: string, max: nat): Pile
    requires max > 0
  {
    if |line| > max then Pile(FlushCode(p) + HardSplit(line, max), "")
    else if p.current == "" then p.(current := line)
    else if |p.current + "\n" + line| <= max then p.(current := p.current + "\n" + line)
    else Pile(p.parts + [RStrip(p.current)], line)
  }

  function FlushCode(p: Pile): seq<string> {
    if p.current == "" then p.parts else p.parts + [RStrip(p.current)]
  }

  function AddCodeLines(lines: seq<string>, max: nat): Pile
    requires max > 0
  {
    if lines == [] then EMPTY_PILE
    else AddCodeLine(AddCodeLines(lines[..|lines| - 1], max), lines[|lines| - 1], max)
  }

  function SplitCodeBlock(block: string, max: nat): seq<string>
    requires max > 0
  {
    if |block| <= max then [Strip(block)] else Clean(FlushCode(AddCodeLines(SplitLines(block), max)))
  }

  method SplitOversizedCodeBlock(block: string, max: nat) returns (parts: seq<string>)
    requires max > 0
    ensures parts == SplitCodeBlock(block, max)
  {
    if |block| <= max { return [Strip(block)]; }
    var lines := PackCodeLines(SplitLines(block), max);
    parts := Clean(lines);
  }

  method PackCodeLines(lines: seq<string>, max: nat) returns (parts: seq<string>)
    requires max > 0
    ensures parts == FlushCode(AddCodeLines(lines, max))
  {
    parts := [];
    var current := "";
    for i := 0 to |lines|
      invariant Pile(parts, current) == AddCodeLines(lines[..i], max)
    {
      assert lines[..i + 1][..i] == lines[..i];
      var line := lines[i];
      if |line| > max {
        if current != "" {
          parts := parts + [RStrip(current)];
          current := "";
        }
        parts := parts + HardSplit(line, max);
        continue;
      }
      var candidate := if current == "" then line else current + "\n" + line;
      if |candidate| <= max {
        current := candidate;
      } else {
        parts := parts + [RStrip(current)];
        current := line;
      }
    }
    assert lines[..|lines|] == lines;
    if current != "" {
      parts := parts + [RStrip(current)];
    }
  }

  function UnitsOfCodeBlocks(blocks: seq<string>, max: nat): seq<string>
    requires max > 0
  {
    if blocks == [] then []
    else UnitsOfCodeBlocks(blocks[..|blocks| - 1], max) + SplitCodeBlock(blocks[|blocks| - 1], max)
  }

  method CodeUnitsOfNext(blocks: seq<string>, i: nat, max: nat) returns (units: seq<string>)
    requires max > 0 && i < |blocks|
    ensures UnitsOfCodeBlocks(blocks[..i + 1], max) == UnitsOfCodeBlocks(blocks[..i], max) + units
  {
    assert blocks[..i + 1][..i] == blocks[..i];
    units := SplitOversizedCodeBlock(blocks[i], max);
  }

  method PackCodeBlocks(blocks: seq<string>, max: nat) returns (parts: seq<string>)
    requires max > 0
    ensures parts == Pack(UnitsOfCodeBlocks(blocks, max), max, PARAGRAPH)
  {
    var list := new PartList();
    var current := "";
    for i := 0 to |blocks|
      invariant fresh(list)
      invariant Pile(list.items, current)
             == AppendAll(EMPTY_PILE, UnitsOfCodeBlocks(blocks[..i], max), max, PARAGRAPH)
    {
      var units := CodeUnitsOfNext(blocks, i, max);
      AppendAllConcat(EMPTY_PILE, UnitsOfCodeBlocks(blocks[..i], max), units, max, PARAGRAPH);
      current := list.AppendUnits(current, units, max, PARAGRAPH);
    }
    assert blocks[..|blocks|] == blocks;
    list.Finish(current);
    parts := list.items;
  }

  // ----- what fenced code keeps --------------------------------------------------------------

  function FenceInk(p: FencePile): string {
    InkAll(p.blocks) + InkAll(p.current)
  }

  lemma CloseFenceKeepsInk(p: FencePile)
    ensures InkAll(p.blocks + [Strip(JoinLines(p.current))]) == FenceInk(p)
  {
    InkAllSnoc(p.blocks, Strip(JoinLines(p.current)));
    InkStrip(JoinLines(p.current));
    InkJoinLines(p.current);
  }

  lemma AddFenceLineKeepsInk(p: FencePile, line: string)
    ensures FenceInk(AddFenceLine(p, line)) == FenceInk(p) + Ink(line)
  {
    CloseFenceKeepsInk(p);
    InkRStrip(line);
    InkAllSnoc(p.current, RStrip(line));
    Associate(InkAll(p.blocks), InkAll(p.current), Ink(line));
    if Strip(line) == "" {
      InkStrip(line);
    }
  }

  lemma {:induction false} FenceLinesKeepInk(lines: seq<string>)
    ensures FenceInk(AddFenceLines(lines)) == InkAll(lines)
  {
    if lines != [] {
      FenceLinesKeepInk(lines[..|lines| - 1]);
      AddFenceLineKeepsInk(AddFenceLines(lines[..|lines| - 1]), lines[|lines| - 1]);
    }
  }

  lemma {:induction false} NonEmptyKeepsInk(parts: seq<string>)
    ensures InkAll(NonEmpty(parts)) == InkAll(parts)
  {
    if parts != [] {
      var init, last := parts[..|parts| - 1], parts[|parts| - 1];
      NonEmptyKeepsInk(init);
      InkAllConcat(NonEmpty(init), Kept(last));
      InkAllOne(last);
    }
  }

  lemma FencedBlocksKeepInk(lines: seq<string>)
    ensures InkAll(NonEmpty(FlushFence(AddFenceLines(lines)))) == InkAll(lines)
  {
    var p := AddFenceLines(lines);
    FenceLinesKeepInk(lines);
    CloseFenceKeepsInk(p);
    NonEmptyKeepsInk(FlushFence(p));
  }

  lemma FlushCodeKeeps(p: Pile, max: int)
    requires PileFits(p, max)
    ensures InkAll(FlushCode(p)) == PileInk(p) && AllWithin(FlushCode(p), max)
  {
    if p.current != "" {
      InkAllSnoc(p.parts, RStrip(p.current));
      InkRStrip(p.current);
    }
  }

  lemma AddCodeLineKeeps(p: Pile, line: string, max: nat)
    requires max > 0 && PileFits(p, max)
    ensures PileFits(AddCodeLine(p, line, max), max)
    ensures PileInk(AddCodeLine(p, line, max)) == PileInk(p) + Ink(line)
  {
    hide HardSplit, InkAll;
    FlushCodeKeeps(p, max);
    if |line| > max {
      HardSplitFits(line, max);
      InkAllConcat(FlushCode(p), HardSplit(line, max));
    } else if p.current != "" && |p.current + "\n" + line| <= max {
      InkSeparated(p.current, "\n", line);
      Associate(InkAll(p.parts), Ink(p.current), Ink(line));
    }
  }

  lemma {:induction false} CodeLinesKeep(lines: seq<string>, max: nat)
    requires max > 0
    ensures PileFits(AddCodeLines(lines, max), max)
    ensures PileInk(AddCodeLines(lines, max)) == InkAll(lines)
  {
    if lines != [] {
      CodeLinesKeep(lines[..|lines| - 1], max);
      AddCodeLineKeeps(AddCodeLines(lines[..|lines| - 1], max), lines[|lines| - 1], max);
    }
  }

  lemma PackedCodeLinesKeep(lines: seq<string>, max: nat)
    requires max > 0
    ensures InkAll(Clean(FlushCode(AddCodeLines(lines, max)))) == InkAll(lines)
    ensures AllWithin(Clean(FlushCode(AddCodeLines(lines, max))), max)
  {
    var parts := FlushCode(AddCodeLines(lines, max));
    CodeLinesKeep(lines, max);
    FlushCodeKeeps(AddCodeLines(lines, max), max);
    CleanKeepsInk(parts);
    CleanWithin(parts, max);
  }

  lemma CodeBlockFits(block: string, max: nat)
    requires max > 0
    ensures AllWithin(SplitCodeBlock(block, max), max)
    ensures InkAll(SplitCodeBlock(block, max)) == Ink(block)
  {
    if |block| <= max {
      StripIsShorter(block);
      InkStrip(block);
      InkAllOne(Strip(block));
    } else {
      PackedCodeLinesKeep(SplitLines(block), max);
      InkSplitLines(block);
    }
  }

  lemma {:induction false} CodeBlocksFit(blocks: seq<string>, max: nat)
    requires max > 0
    ensures AllWithin(UnitsOfCodeBlocks(blocks, max), max)
    ensures InkAll(UnitsOfCodeBlocks(blocks, max)) == InkAll(blocks)
  {
    if blocks != [] {
      var init, last := blocks[..|blocks| - 1], blocks[|blocks| - 1];
      CodeBlocksFit(init, max);
      CodeBlockFits(last, max);
      InkAllConcat(UnitsOfCodeBlocks(init, max), SplitCodeBlock(last, max));
    }
  }

  function SplitFencedText(text: string, max: nat): seq<string>
    requires max > 0
  {
    Pack(UnitsOfCodeBlocks(CodeBlocks(text), max), max, PARAGRAPH)
  }

  lemma PackedCodeBlocksKeepContent(blocks: seq<string>, max: nat)
    requires max > 0
    ensures InkAll(Pack(UnitsOfCodeBlocks(blocks, max), max, PARAGRAPH)) == InkAll(blocks)
    ensures AllWithin(Pack(UnitsOfCodeBlocks(blocks, max), max, PARAGRAPH), max)
  {
    CodeBlocksFit(blocks, max);
    PackedUnitsKeepContent(UnitsOfCodeBlocks(blocks, max), max);
  }

  /** Splitting fenced code keeps its content and the size bound. */
  lemma FencedPartsKeepContent(text: string, max: nat)
    requires max > 0
    ensures InkAll(SplitFencedText(text, max)) == Ink(text)
    ensures AllWithin(SplitFencedText(text, max), max)
  {
    PackedCodeBlocksKeepContent(CodeBlocks(text), max);
    FencedBlocksKeepInk(SplitLines(Strip(text)));
    InkSplitLines(Strip(text));
    InkStrip(text);
  }

  // ----- code without fences -------------------------------------------------------------------

  /** Every stripped unit is a line or fits, and so is every part it makes alone. */
  lemma {:induction false} CleanKeepsFits(units: seq<string>, max: int)
    requires AllFitOrLines(units, max)
    ensures AllFitOrLines(Clean(units), max)
  {
    if units != [] {
      CleanKeepsFits(units[..|units| - 1], max);
      var last := units[|units| - 1];
      StripIsShorter(last);
      RowsStrip(last);
    }
  }

  lemma PackKeepsLines(units: seq<string>, max: int)
    requires AllFitOrLines(units, max)
    ensures AllFitOrLines(Pack(units, max, PARAGRAPH), max)
  {
    var parts := Pack(units, max, PARAGRAPH);
    var groups := PackIsGreedy(units, max, PARAGRAPH);
    CleanKeepsFits(units, max);
    forall i | 0 <= i < |parts| ensures FitsOrLine(parts[i], max) {
      assert IsGroup(parts[i], groups[i], max, PARAGRAPH);
      if |groups[i]| == 1 {
        GroupsAreFlattened(groups, i);
        assert FitsOrLine(groups[i][0], max);
      }
    }
  }

  function SplitUnfencedText(text: string, language: Option<string>, max: nat, x: Syntax): seq<string>
    requires x.parse(Normalize(text)).Some? ==>
      ValidSpans(x.parse(Normalize(text)).value, |SplitLines(Normalize(text))|)
  {
    Pack(SplitCodeUnits(text, language, max, x), max, PARAGRAPH)
  }

  /**
    Splitting code without fences keeps its lines: the rows of the parts are the rows of the
    text, in order, so no line is cut, lost or moved; and a part that is too long is a single
    line.
   */
  lemma {:induction false} CodePartsKeepLines(text: string, language: Option<string>, max: nat, x: Syntax)
    requires ValidSyntax(x)
    ensures RowsAll(SplitUnfencedText(text, language, max, x)) == Rows(text)
    ensures AllFitOrLines(SplitUnfencedText(text, language, max, x), max)
  {
    CodeUnitsKeepLines(text, language, max, x);
    PackKeepsRows(SplitCodeUnits(text, language, max, x), max);
    PackKeepsLines(SplitCodeUnits(text, language, max, x), max);
  }

  lemma {:induction false} SmallUnitsSurvive(units: seq<string>, max: int, i: nat)
    requires i < |units| && units[i] != "" && |units[i]| <= max
    ensures units[i] in SplitAllLarge(units, max)
  {
    var init, last := units[..|units| - 1], units[|units| - 1];
    if i == |units| - 1 {
      assert SplitLargeUnit(last, max) == [last];
      assert NonEmpty([last]) == [last] by { assert [last][..0] == []; }
    } else {
      SmallUnitsSurvive(init, max, i);
    }
  }

  lemma {:induction false} CleanHasStripped(units: seq<string>, u: string)
    requires u in units && Strip(u) != ""
    ensures Strip(u) in Clean(units)
  {
    if u != units[|units| - 1] {
      CleanHasStripped(units[..|units| - 1], u);
    }
  }

  lemma {:induction false} FlattenedIsInGroup(groups: seq<seq<string>>, u: string) returns (i: nat)
    requires u in Flatten(groups)
    ensures i < |groups| && u in groups[i]
  {
    if u in groups[|groups| - 1] {
      i := |groups| - 1;
    } else {
      i := FlattenedIsInGroup(groups[..|groups| - 1], u);
    }
  }

  /** A declaration that fits is never cut: it lies, whole, in the group of one part. */
  lemma SmallUnitsStayWhole(units: seq<string>, max: int, i: nat)
      returns (groups: seq<seq<string>>, k: nat)
    requires i < |units| && units[i] != "" && |units[i]| <= max && Strip(units[i]) == units[i]
    ensures Greedy(Pack(SplitAllLarge(units, max), max, PARAGRAPH), groups, max, PARAGRAPH)
    ensures k < |groups| && units[i] in groups[k]
  {
    SmallUnitsSurvive(units, max, i);
    groups := PackIsGreedy(SplitAllLarge(units, max), max, PARAGRAPH);
    CleanHasStripped(SplitAllLarge(units, max), units[i]);
    k := FlattenedIsInGroup(groups, units[i]);
  }

  // ----- chunks ------------------------------------------------------------------------------

  /** A piece of evidence; `origin` stands for the metadata no splitter looks at. */
  datatype EvidenceChunk = EvidenceChunk(
    chunkId: string, text: string, docType: string, language: Option<string>, origin: string)

  datatype ChunkError = BadMaxChars

  predicate Contains(s: string, t: string) {
    exists i :: 0 <= i <= |s| && StartsWith(s[i..], t)
  }

  predicate IsCode(c: EvidenceChunk) {
    c.docType == "code" || StartsWith(Strip(c.text), "```") || Contains(Strip(c.text), "\n```")
  }

  predicate IsFenced(c: EvidenceChunk) {
    Contains(Normalize(c.text), "```")
  }

  function TextParts(text: string, max: nat): seq<string>
    requires max > 0
  {
    if text == "" then [] else if |text| <= max then [text] else SplitText(text, max)
  }

  function CodeParts(text: string, language: Option<string>, max: nat, x: Syntax): seq<string>
    requires max > 0
    requires x.parse(Normalize(text)).Some? ==>
      ValidSpans(x.parse(Normalize(text)).value, |SplitLines(Normalize(text))|)
  {
    if text == "" then []
    else if |text| <= max then [text]
    else if Contains(text, "```") then SplitFencedText(text, max)
    else SplitUnfencedText(text, language, max, x)
  }

  function PartsOf(c: EvidenceChunk, max: nat, x: Syntax): seq<string>
    requires max > 0 && ValidSyntax(x)
  {
    if IsCode(c) then CodeParts(Normalize(c.text), c.language, max, x) else TextParts(Strip(c.text), max)
  }

  function ChildId(id: string, n: nat): string {
    id + "-" + Decimal(n)
  }

  /** One part keeps its parent's id; several are numbered from one. */
  function Children(c: EvidenceChunk, parts: seq<string>): (children: seq<EvidenceChunk>)
    ensures |children| == |parts|
    ensures forall i :: 0 <= i < |parts| ==> children[i].text == parts[i]
    ensures forall i :: 0 <= i < |parts| ==>
      children[i].chunkId == if |parts| == 1 then c.chunkId else ChildId(c.chunkId, i + 1)
  {
    if |parts| == 1 then [c.(text := parts[0])]
    else seq(|parts|, i requires 0 <= i < |parts| => c.(chunkId := ChildId(c.chunkId, i + 1), text := parts[i]))
  }

  function ChunkAll(chunks: seq<EvidenceChunk>, max: nat, x: Syntax): seq<EvidenceChunk>
    requires max > 0 && ValidSyntax(x)
  {
    if chunks == [] then []
    else
      var last := chunks[|chunks| - 1];
      ChunkAll(chunks[..|chunks| - 1], max, x) + Children(last, PartsOf(last, max, x))
  }

  method SplitCodeText(text: string, language: Option<string>, max: nat, x: Syntax) returns (parts: seq<string>)
    requires max > 0
    requires x.parse(Normalize(text)).Some? ==>
      ValidSpans(x.parse(Normalize(text)).value, |SplitLines(Normalize(text))|)
    ensures parts == if Contains(text, "```") then SplitFencedText(text, max)
                     else SplitUnfencedText(text, language, max, x)
  {
    if !Contains(text, "```") {
      var units := SplitIntoCodeUnits(text, language, max, x);
      parts := PackCodeUnits(units, max);
    } else {
      var blocks := SplitCodeBlocks(SplitLines(Strip(text)));
      parts := PackCodeBlocks(blocks, max);
    }
  }

  method PackCodeUnits(units: seq<string>, max: nat) returns (parts: seq<string>)
    ensures parts == Pack(units, max, PARAGRAPH)
  {
    var list := new PartList();
    var current := list.AppendUnits("", units, max, PARAGRAPH);
    list.Finish(current);
    parts := list.items;
  }

  method ChunkOne(c: EvidenceChunk, max: nat, x: Syntax) returns (children: seq<EvidenceChunk>)
    requires max > 0 && ValidSyntax(x)
    ensures children == Children(c, PartsOf(c, max, x))
  {
    var code := IsCode(c);
    var text: string;
    if code {
      text := NormalizeCodeText(c.text);
    } else {
      text := Strip(c.text);
    }
    if text == "" { return []; }
    if |text| <= max { return [c.(text := text)]; }
    var parts: seq<string>;
    if code {
      parts := SplitCodeText(text, c.language, max, x);
    } else {
      parts := SplitPlainText(text, max);
    }
    children := Children(c, parts);
  }

  method Chunk(chunks: seq<EvidenceChunk>, max: int, x: Syntax) returns (r: Result<seq<EvidenceChunk>, ChunkError>)
    requires ValidSyntax(x)
    ensures r == if max <= 0 then Err(BadMaxChars) else Ok(ChunkAll(chunks, max, x))
  {
    if max <= 0 { return Err(BadMaxChars); }
    var result: seq<EvidenceChunk> := [];
    for i := 0 to |chunks|
      invariant result == ChunkAll(chunks[..i], max, x)
    {
      assert chunks[..i + 1][..i] == chunks[..i];
      var children := ChunkOne(chunks[i], max, x);
      result := result + children;
    }
    assert chunks[..|chunks|] == chunks;
    r := Ok(result);
  }

  // ----- what chunking keeps -----------------------------------------------------------------

  lemma {:induction false} JoinWithIsTrimmed(group: seq<string>, separator: string)
    requires group != []
    requires forall i :: 0 <= i < |group| ==> group[i] != "" && Trimmed(group[i])
    ensures JoinWith(group, separator) != "" && Trimmed(JoinWith(group, separator))
  {
    if |group| > 1 {
      JoinWithIsTrimmed(group[..|group| - 1], separator);
    }
  }

  lemma CleanOneIsTrimmed(unit: string)
    ensures forall u :: u in CleanOne(unit) ==> u != "" && Trimmed(u)
  {
    hide Strip, Trimmed;
    StripTrims(unit);
  }

  lemma {:induction false} CleanIsTrimmed(units: seq<string>)
    ensures forall u :: u in Clean(units) ==> u != "" && Trimmed(u)
  {
    if units != [] {
      CleanIsTrimmed(units[..|units| - 1]);
      CleanOneIsTrimmed(units[|units| - 1]);
    }
  }

  lemma {:induction false} GroupIsFlattened(groups: seq<seq<string>>, i: nat, j: nat)
    requires i < |groups| && j < |groups[i]|
    ensures groups[i][j] in Flatten(groups)
  {
    if i < |groups| - 1 {
      GroupIsFlattened(groups[..|groups| - 1], i, j);
    }
  }

  /** Every part says something, and has no whitespace at its ends. */
  predicate Presentable(parts: seq<string>) {
    forall i :: 0 <= i < |parts| ==> parts[i] != "" && Trimmed(parts[i])
  }

  lemma PackIsPresentable(units: seq<string>, max: int, separator: string)
    ensures Presentable(Pack(units, max, separator))
  {
    var parts := Pack(units, max, separator);
    var groups := PackIsGreedy(units, max, separator);
    CleanIsTrimmed(units);
    forall i | 0 <= i < |parts| ensures parts[i] != "" && Trimmed(parts[i]) {
      assert IsGroup(parts[i], groups[i], max, separator);
      forall j | 0 <= j < |groups[i]| ensures groups[i][j] != "" && Trimmed(groups[i][j]) {
        GroupIsFlattened(groups, i, j);
      }
      JoinWithIsTrimmed(groups[i], separator);
    }
  }

  function Texts(chunks: seq<EvidenceChunk>): (texts: seq<string>)
    ensures |texts| == |chunks|
    ensures forall i :: 0 <= i < |texts| ==> texts[i] == chunks[i].text
  {
    seq(|chunks|, i requires 0 <= i < |chunks| => chunks[i].text)
  }

  predicate KeepsLines(c: EvidenceChunk) {
    IsCode(c) && !IsFenced(c)
  }

  lemma NormalizeKeepsInk(text: string)
    ensures Ink(Normalize(text)) == Ink(text)
  {
    NormalizeKeepsRows(text);
    RowsCarryInk(text);
    RowsCarryInk(Normalize(text));
  }

  lemma TextPartsKeep(text: string, max: nat)
    requires max > 0
    ensures InkAll(TextParts(text, max)) == Ink(text) && AllWithin(TextParts(text, max), max)
  {
    if text != "" && |text| > max {
      TextPartsKeepContent(text, max);
    } else {
      InkAllOne(text);
    }
  }

  lemma {:induction false} CodePartsKeep(text: string, language: Option<string>, max: nat, x: Syntax)
    requires max > 0 && ValidSyntax(x)
    ensures InkAll(CodeParts(text, language, max, x)) == Ink(text)
    ensures Contains(text, "```") ==> AllWithin(CodeParts(text, language, max, x), max)
    ensures !Contains(text, "```") ==>
      RowsAll(CodeParts(text, language, max, x)) == Rows(text)
      && AllFitOrLines(CodeParts(text, language, max, x), max)
  {
    if text == "" || |text| <= max {
      ShortPartKeeps(text);
    } else if Contains(text, "```") {
      FencedPartsKeepContent(text, max);
    } else {
      CodePartsKeepLines(text, language, max, x);
      RowsAllCarryInk(SplitUnfencedText(text, language, max, x));
      RowsCarryInk(text);
    }
  }

  lemma ShortPartKeeps(text: string)
    ensures InkAll([text]) == Ink(text) && RowsAll([text]) == Rows(text)
    ensures InkAll([]) == Ink("") && RowsAll([]) == Rows("")
  {
    InkAllOne(text);
    RowsAllOne(text);
    RowsOfLine("");
  }

  /**
    A chunk and its children say the same: their non-whitespace characters, in order, are
    those of the chunk. Every child fits; on the path that keeps lines whole, the children's
    rows are the chunk's rows, and a child that does not fit is a single line.
   */
  lemma {:induction false} ChildrenKeepContent(c: EvidenceChunk, max: nat, x: Syntax)
    requires max > 0 && ValidSyntax(x)
    ensures InkAll(PartsOf(c, max, x)) == Ink(c.text)
    ensures !KeepsLines(c) ==> AllWithin(PartsOf(c, max, x), max)
    ensures KeepsLines(c) ==>
      RowsAll(PartsOf(c, max, x)) == Rows(c.text) && AllFitOrLines(PartsOf(c, max, x), max)
  {
    if IsCode(c) {
      NormalizeKeepsInk(c.text);
      NormalizeKeepsRows(c.text);
      CodePartsKeep(Normalize(c.text), c.language, max, x);
    } else {
      InkStrip(c.text);
      TextPartsKeep(Strip(c.text), max);
    }
  }

  /** Children of one chunk have different ids, and inherit everything else. */
  lemma ChildrenAreDistinct(c: EvidenceChunk, parts: seq<string>, i: nat, j: nat)
    requires i < j < |parts|
    ensures Children(c, parts)[i].chunkId != Children(c, parts)[j].chunkId
    ensures Children(c, parts)[i].(chunkId := c.chunkId, text := c.text) == c
  {
    var a, b := ChildId(c.chunkId, i + 1), ChildId(c.chunkId, j + 1);
    if a == b {
      var n := |c.chunkId| + 1;
      assert a[n..] == Decimal(i + 1) && b[n..] == Decimal(j + 1);
      DecimalsDiffer(i + 1, j + 1);
    }
  }

  lemma TextsConcat(a: seq<EvidenceChunk>, b: seq<EvidenceChunk>)
    ensures InkAll(Texts(a + b)) == InkAll(Texts(a)) + InkAll(Texts(b))
  {
    assert Texts(a + b) == Texts(a) + Texts(b);
    InkAllConcat(Texts(a), Texts(b));
  }

  lemma ChildrenTexts(c: EvidenceChunk, parts: seq<string>)
    ensures Texts(Children(c, parts)) == parts
  {
  }

  lemma ChildrenAdd(done: seq<EvidenceChunk>, init: seq<EvidenceChunk>, last: EvidenceChunk, parts: seq<string>)
    requires InkAll(Texts(done)) == InkAll(Texts(init)) && InkAll(parts) == Ink(last.text)
    ensures InkAll(Texts(done + Children(last, parts))) == InkAll(Texts(init + [last]))
  {
    ChildrenTexts(last, parts);
    TextsConcat(done, Children(last, parts));
    TextsConcat(init, [last]);
    InkAllOne(last.text);
    assert Texts([last]) == [last.text];
  }

  lemma {:induction false} ChunkAllSnoc(init: seq<EvidenceChunk>, last: EvidenceChunk, max: nat, x: Syntax)
    requires max > 0 && ValidSyntax(x)
    ensures ChunkAll(init + [last], max, x) == ChunkAll(init, max, x) + Children(last, PartsOf(last, max, x))
  {
    hide PartsOf, Children, ValidSyntax;
    assert (init + [last])[..|init|] == init;
  }

  lemma {:induction false} OneMoreChunk(init: seq<EvidenceChunk>, last: EvidenceChunk, max: nat, x: Syntax)
    requires max > 0 && ValidSyntax(x)
    requires InkAll(Texts(ChunkAll(init, max, x))) == InkAll(Texts(init))
    ensures InkAll(Texts(ChunkAll(init + [last], max, x))) == InkAll(Texts(init + [last]))
  {
    hide *;
    ChildrenKeepContent(last, max, x);
    ChildrenAdd(ChunkAll(init, max, x), init, last, PartsOf(last, max, x));
    ChunkAllSnoc(init, last, max, x);
  }

  lemma {:induction false} NoChunks(max: nat, x: Syntax)
    requires max > 0 && ValidSyntax(x)
    ensures InkAll(Texts(ChunkAll([], max, x))) == InkAll(Texts([]))
  {
    hide PartsOf, Children, InkAll, ValidSyntax;
    assert ChunkAll([], max, x) == [];
  }

  /** Chunking a list of chunks says what the list said, in order. */
  lemma {:induction false} ChunkingKeepsContent(chunks: seq<EvidenceChunk>, max: nat, x: Syntax)
    requires max > 0 && ValidSyntax(x)
    ensures InkAll(Texts(ChunkAll(chunks, max, x))) == InkAll(Texts(chunks))
  {
    hide *;
    if chunks == [] {
      NoChunks(max, x);
    } else {
      var init, last := chunks[..|chunks| - 1], chunks[|chunks| - 1];
      ChunkingKeepsContent(init, max, x);
      OneMoreChunk(init, last, max, x);
      assert chunks == init + [last];
    }
  }
}
