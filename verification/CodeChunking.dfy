/**
  Cutting source code into units: declarations with their leading comments where the language
  allows it, paragraphs otherwise, and whole lines of whatever is still too long.

  Python's parser and the per-language declaration patterns are given from outside. Whatever
  the patterns match, and as long as the parser lists declarations in order, no line is cut,
  lost or moved.
 */
module CodeChunking {
  import opened Wrappers
  import opened Text
  import opened Lines
  import opened Packing
  import opened Splitting

  /** The lines of a top-level declaration, counted from one, both ends included. */
  datatype Span = Span(first: nat, last: nat)

  /** What Python's parser and the declaration patterns answer. */
  datatype Syntax = Syntax(parse: string -> Option<seq<Span>>, declares: (string, string) -> bool)

  /** Top-level declarations come in order, do not overlap, and lie within the text. */
  predicate ValidSpans(spans: seq<Span>, lines: nat) {
    && (forall i :: 0 <= i < |spans| ==> 1 <= spans[i].first <= spans[i].last <= lines)
    && (forall i, j :: 0 <= i < j < |spans| ==> spans[i].last < spans[j].first)
  }

  ghost predicate ValidSyntax(x: Syntax) {
    forall text: string :: x.parse(text).Some? ==> ValidSpans(x.parse(text).value, |SplitLines(text)|)
  }

  // ----- normalising -----------------------------------------------------------------------

  /** The lines kept so far, and how many blank ones were just seen. */
  datatype Tidy = Tidy(kept: seq<string>, blanks: nat)

  function TidyLine(t: Tidy, line: string): Tidy {
    if Strip(line) == ""
    then Tidy(if t.blanks == 0 then t.kept + [""] else t.kept, t.blanks + 1)
    else Tidy(t.kept + [line], 0)
  }

  function TidyLines(lines: seq<string>): Tidy {
    if lines == [] then Tidy([], 0)
    else TidyLine(TidyLines(lines[..|lines| - 1]), RStrip(lines[|lines| - 1]))
  }

  /** Trailing blanks go, and of several blank lines one stays. */
  function Normalize(text: string): string {
    Strip(JoinLines(TidyLines(SplitLines(Strip(text))).kept))
  }

  lemma TidyPrefix(lines: seq<string>, i: nat)
    requires i < |lines|
    ensures TidyLines(lines[..i + 1]) == TidyLine(TidyLines(lines[..i]), RStrip(lines[i]))
  {
    assert lines[..i + 1][..i] == lines[..i];
  }

  /** One line of the loop: blank lines are counted, and only the first of a run is kept. */
  method KeepLine(kept: seq<string>, blanks: nat, line: string) returns (kept': seq<string>, blanks': nat)
    ensures Tidy(kept', blanks') == TidyLine(Tidy(kept, blanks), line)
  {
    kept', blanks' := kept, 0;
    if Strip(line) == "" {
      blanks' := blanks + 1;
      if blanks' <= 1 {
        kept' := kept + [""];
      }
    } else {
      kept' := kept + [line];
    }
  }

  method TidyUp(lines: seq<string>) returns (kept: seq<string>)
    ensures kept == TidyLines(lines).kept
  {
    kept := [];
    var blanks: nat := 0;
    for i := 0 to |lines|
      invariant Tidy(kept, blanks) == TidyLines(lines[..i])
    {
      TidyPrefix(lines, i);
      kept, blanks := KeepLine(kept, blanks, RStrip(lines[i]));
    }
    assert lines[..|lines|] == lines;
  }

  method NormalizeCodeText(text: string) returns (normalized: string)
    ensures normalized == Normalize(text)
  {
    var kept := TidyUp(SplitLines(Strip(text)));
    normalized := Strip(JoinLines(kept));
  }

  lemma TidyLineKeepsRows(t: Tidy, line: string)
    ensures RowsAll(TidyLine(t, line).kept) == RowsAll(t.kept) + Rows(line)
  {
    RowsOfLine("");
    if Strip(line) == "" {
      RowsStrip(line);
      RowsAllSnoc(t.kept, "");
    } else {
      RowsAllSnoc(t.kept, line);
    }
  }

  lemma {:induction false} TidyKeepsRows(lines: seq<string>)
    ensures RowsAll(TidyLines(lines).kept) == RowsAll(lines)
  {
    if lines != [] {
      var init, last := lines[..|lines| - 1], lines[|lines| - 1];
      TidyKeepsRows(init);
      RowsRStrip(last);
      TidyLineKeepsRows(TidyLines(init), RStrip(last));
    }
  }

  /** Normalising keeps every line that says something. */
  lemma NormalizeKeepsRows(text: string)
    ensures Rows(Normalize(text)) == Rows(text)
  {
    var lines := SplitLines(Strip(text));
    var kept := TidyLines(lines).kept;
    RowsStrip(text);
    RowsSplitLines(Strip(text));
    TidyKeepsRows(lines);
    RowsJoinLines(kept);
    RowsStrip(JoinLines(kept));
  }

  // ----- units made of lines ---------------------------------------------------------------

  /** The stripped text of some lines, if there is any. */
  function Piece(lines: seq<string>): seq<string> {
    CleanOne(JoinLines(lines))
  }

  lemma PieceKeepsRows(lines: seq<string>)
    ensures RowsAll(Piece(lines)) == RowsAll(lines)
  {
    RowsJoinLines(lines);
    CleanOneKeepsRows(JoinLines(lines));
  }

  /** The units made of consecutive slices of lines. */
  function UnitsOf(slices: seq<seq<string>>): seq<string> {
    if slices == [] then [] else UnitsOf(slices[..|slices| - 1]) + Piece(slices[|slices| - 1])
  }

  lemma UnitsSnoc(slices: seq<seq<string>>, lines: seq<string>)
    ensures UnitsOf(slices + [lines]) == UnitsOf(slices) + Piece(lines)
  {
    assert (slices + [lines])[..|slices|] == slices;
  }

  /** Units hold the rows of the lines they were made of. */
  lemma {:induction false} UnitsKeepRows(slices: seq<seq<string>>)
    ensures RowsAll(UnitsOf(slices)) == RowsAll(Flatten(slices))
  {
    if slices != [] {
      var init, last := slices[..|slices| - 1], slices[|slices| - 1];
      UnitsKeepRows(init);
      PieceKeepsRows(last);
      RowsAllConcat(UnitsOf(init), Piece(last));
      RowsAllConcat(Flatten(init), last);
    }
  }

  /** units.append(...), unless the lines say nothing. */
  method AddUnit(units: seq<string>, lines: seq<string>, ghost slices: seq<seq<string>>)
    returns (units': seq<string>, ghost slices': seq<seq<string>>)
    requires units == UnitsOf(slices)
    ensures slices' == slices + [lines] && units' == UnitsOf(slices')
  {
    slices' := slices + [lines];
    UnitsSnoc(slices, lines);
    var unit := Strip(JoinLines(lines));
    units' := units;
    if unit != "" {
      units' := units + [unit];
    }
  }

  /** A declaration, and the lines before it, of which there may be none. */
  method AddDeclaration(
    units: seq<string>, before: seq<string>, lines: seq<string>, ghost slices: seq<seq<string>>)
    returns (units': seq<string>, ghost slices': seq<seq<string>>)
    requires units == UnitsOf(slices)
    ensures slices' == (slices + [before]) + [lines] && units' == UnitsOf(slices')
  {
    units', slices' := units, slices + [before];
    if before != [] {
      units', slices' := AddUnit(units, before, slices);
    } else {
      UnitsSnoc(slices, before);
      assert Piece([]) == [];
    }
    units', slices' := AddUnit(units', lines, slices');
  }

  lemma Regroup<T>(s: seq<T>, a: T, b: T, rest: seq<T>)
    ensures s + ([a] + ([b] + rest)) == ((s + [a]) + [b]) + rest
  {
  }

  /** A line that may belong to the comment above a declaration. */
  predicate HashComment(line: string) {
    StartsWith(Strip(line), "#") || Strip(line) == ""
  }

  predicate SlashComment(line: string) {
    || StartsWith(Strip(line), "//") || StartsWith(Strip(line), "/*")
    || StartsWith(Strip(line), "*") || StartsWith(Strip(line), "*/") || Strip(line) == ""
  }

  /** Where the run of comment lines above `start` begins. */
  function CommentStart(lines: seq<string>, comment: string -> bool, start: nat, lower: nat): (b: nat)
    requires lower <= start <= |lines|
    ensures lower <= b <= start
  {
    if start > lower && comment(lines[start - 1]) then CommentStart(lines, comment, start - 1, lower)
    else start
  }

  /** It takes in as many comment and blank lines as there are. */
  lemma {:induction false} CommentStartIsFirst(
    lines: seq<string>, comment: string -> bool, start: nat, lower: nat)
    requires lower <= start <= |lines|
    ensures var b := CommentStart(lines, comment, start, lower);
            && (forall k :: b <= k < start ==> comment(lines[k]))
            && (b > lower ==> !comment(lines[b - 1]))
  {
    if start > lower && comment(lines[start - 1]) {
      CommentStartIsFirst(lines, comment, start - 1, lower);
    }
  }

  method IncludeLeadingComments(lines: seq<string>, comment: string -> bool, start: nat, lower: nat)
    returns (b: nat)
    requires lower <= start <= |lines|
    ensures b == CommentStart(lines, comment, start, lower)
  {
    var index: int := start - 1;
    while index >= lower
      invariant lower - 1 <= index < start
      invariant CommentStart(lines, comment, start, lower) == CommentStart(lines, comment, index + 1, lower)
    {
      if comment(lines[index]) {
        index := index - 1;
        continue;
      }
      break;
    }
    b := index + 1;
  }

  // ----- Python ----------------------------------------------------------------------------

  /** The lines before, of, and after each top-level declaration. */
  function PythonSlices(lines: seq<string>, spans: seq<Span>, i: nat, cursor: nat): seq<seq<string>>
    requires ValidSpans(spans, |lines|) && i <= |spans| && cursor <= |lines|
    requires i < |spans| ==> cursor < spans[i].first
    decreases |spans| - i
  {
    if i == |spans| then [lines[cursor..]]
    else
      var start := CommentStart(lines, HashComment, spans[i].first - 1, cursor);
      var end := spans[i].last;
      [lines[cursor..start]] + ([lines[start..end]] + PythonSlices(lines, spans, i + 1, end))
  }

  lemma TwoSlices(lines: seq<string>, a: nat, b: nat, c: nat, rest: seq<seq<string>>)
    requires a <= b <= c <= |lines| && Flatten(rest) == lines[c..]
    ensures Flatten([lines[a..b]] + ([lines[b..c]] + rest)) == lines[a..]
  {
    FlattenCons(lines[b..c], rest);
    FlattenCons(lines[a..b], [lines[b..c]] + rest);
    assert lines[b..] == lines[b..c] + lines[c..];
    assert lines[a..] == lines[a..b] + lines[b..];
  }

  lemma OneSlice(lines: seq<string>)
    ensures Flatten([lines]) == lines
  {
    FlattenSnoc([], lines);
    assert [] + [lines] == [lines];
  }

  lemma {:induction false} PythonSlicesCover(lines: seq<string>, spans: seq<Span>, i: nat, cursor: nat)
    requires ValidSpans(spans, |lines|) && i <= |spans| && cursor <= |lines|
    requires i < |spans| ==> cursor < spans[i].first
    ensures Flatten(PythonSlices(lines, spans, i, cursor)) == lines[cursor..]
    decreases |spans| - i
  {
    if i == |spans| {
      OneSlice(lines[cursor..]);
    } else {
      var start := CommentStart(lines, HashComment, spans[i].first - 1, cursor);
      PythonSlicesCover(lines, spans, i + 1, spans[i].last);
      TwoSlices(lines, cursor, start, spans[i].last, PythonSlices(lines, spans, i + 1, spans[i].last));
    }
  }

  /** Paragraphs, when there is no declaration to go by. */
  function BlankLineUnits(text: string): seq<string> {
    Clean(Paragraphs(text))
  }

  function PythonUnits(text: string, x: Syntax): seq<string>
    requires x.parse(text).Some? ==> ValidSpans(x.parse(text).value, |SplitLines(text)|)
  {
    match x.parse(text)
    case None => BlankLineUnits(text)
    case Some(spans) => if spans == [] then BlankLineUnits(text) else UnitsOf(PythonSlices(SplitLines(text), spans, 0, 0))
  }

  method SplitPython(text: string, x: Syntax) returns (units: seq<string>)
    requires x.parse(text).Some? ==> ValidSpans(x.parse(text).value, |SplitLines(text)|)
    ensures units == PythonUnits(text, x)
  {
    if x.parse(text).None? || x.parse(text).value == [] {
      return BlankLineUnits(text);
    }
    units := TakeSpans(SplitLines(text), x.parse(text).value);
  }

  lemma {:induction false} NextSpan(lines: seq<string>, spans: seq<Span>, i: nat, cursor: nat)
    requires ValidSpans(spans, |lines|) && i < |spans| && cursor < spans[i].first
    ensures var start, end := CommentStart(lines, HashComment, spans[i].first - 1, cursor), spans[i].last;
            PythonSlices(lines, spans, i, cursor)
              == [lines[cursor..start]] + ([lines[start..end]] + PythonSlices(lines, spans, i + 1, end))
  {
  }

  lemma NextSpanStarts(spans: seq<Span>, lines: nat, i: nat, k: nat)
    requires ValidSpans(spans, lines) && i <= k < |spans|
    ensures 1 <= spans[i].first <= spans[i].last <= lines
    ensures i + 1 < |spans| ==> spans[i].last < spans[i + 1].first
  {
  }

  lemma {:induction false} AfterLastSpan(lines: seq<string>, spans: seq<Span>, cursor: nat)
    requires ValidSpans(spans, |lines|) && cursor <= |lines|
    ensures PythonSlices(lines, spans, |spans|, cursor) == [lines[cursor..]]
  {
  }

  /** The units of one declaration and of the lines before it. */
  method TakeSpan(
    lines: seq<string>, spans: seq<Span>, i: nat, cursor: nat, units: seq<string>, ghost slices: seq<seq<string>>)
    returns (units': seq<string>, ghost slices': seq<seq<string>>)
    requires ValidSpans(spans, |lines|) && i < |spans| && cursor < spans[i].first
    requires units == UnitsOf(slices)
    ensures spans[i].last <= |lines| && (i + 1 < |spans| ==> spans[i].last < spans[i + 1].first)
    ensures units' == UnitsOf(slices')
    ensures slices + PythonSlices(lines, spans, i, cursor)
         == slices' + PythonSlices(lines, spans, i + 1, spans[i].last)
  {
    hide UnitsOf, PythonSlices, CommentStart, HashComment, ValidSpans;
    NextSpanStarts(spans, |lines|, i, i);
    NextSpan(lines, spans, i, cursor);
    var start := IncludeLeadingComments(lines, HashComment, spans[i].first - 1, cursor);
    var end := spans[i].last;
    Regroup(slices, lines[cursor..start], lines[start..end], PythonSlices(lines, spans, i + 1, end));
    units', slices' := AddDeclaration(units, lines[cursor..start], lines[start..end], slices);
  }

  method TakeSpans(lines: seq<string>, spans: seq<Span>) returns (units: seq<string>)
    requires ValidSpans(spans, |lines|)
    ensures units == UnitsOf(PythonSlices(lines, spans, 0, 0))
  {
    units := [];
    ghost var slices: seq<seq<string>> := [];
    var cursor: nat := 0;
    for i := 0 to |spans|
      invariant cursor <= |lines| && (i < |spans| ==> cursor < spans[i].first)
      invariant units == UnitsOf(slices)
      invariant PythonSlices(lines, spans, 0, 0) == slices + PythonSlices(lines, spans, i, cursor)
    {
      units, slices := TakeSpan(lines, spans, i, cursor, units, slices);
      cursor := spans[i].last;
    }
    AfterLastSpan(lines, spans, cursor);
    units, slices := AddUnit(units, lines[cursor..], slices);
  }

  // ----- languages with braces ---------------------------------------------------------------

  /** The line without what follows two slashes. */
  function CutComment(line: string): string {
    if line == "" then ""
    else if StartsWith(line, "//") then ""
    else [line[0]] + CutComment(line[1..])
  }

  /** Opening braces minus closing ones. */
  function Net(line: string): int {
    if line == "" then 0
    else (if line[0] == '{' then 1 else if line[0] == '}' then -1 else 0) + Net(line[1..])
  }

  function Depth(lines: seq<string>): int {
    if lines == [] then 0 else Depth(lines[..|lines| - 1]) + Net(CutComment(lines[|lines| - 1]))
  }

  predicate Opens(line: string) {
    '{' in CutComment(line)
  }

  predicate Opened(lines: seq<string>) {
    exists i :: 0 <= i < |lines| && Opens(lines[i])
  }

  /** The block that began with these lines has been closed. */
  predicate Closed(lines: seq<string>) {
    Opened(lines) && Depth(lines) <= 0
  }

  /** Just after the first line at which the block that starts at `start` is closed. */
  predicate IsBlockEnd(lines: seq<string>, start: nat, end: nat) {
    && start < end <= |lines|
    && (end < |lines| ==> Closed(lines[start..end]))
    && (forall e :: start < e < end ==> !Closed(lines[start..e]))
  }

  function BlockEndFrom(lines: seq<string>, start: nat, e: nat): (end: nat)
    requires start < e <= |lines|
    ensures e <= end <= |lines|
    decreases |lines| - e
  {
    if e == |lines| || Closed(lines[start..e]) then e else BlockEndFrom(lines, start, e + 1)
  }

  lemma {:induction false} BlockEndIsFirst(lines: seq<string>, start: nat, e: nat)
    requires start < e <= |lines|
    requires forall k :: start < k < e ==> !Closed(lines[start..k])
    ensures IsBlockEnd(lines, start, BlockEndFrom(lines, start, e))
    decreases |lines| - e
  {
    if e < |lines| && !Closed(lines[start..e]) {
      BlockEndIsFirst(lines, start, e + 1);
    }
  }

  lemma BlockEndIsUnique(lines: seq<string>, start: nat, d: nat, e: nat)
    requires IsBlockEnd(lines, start, d) && IsBlockEnd(lines, start, e)
    ensures d == e
  {
  }

  method FindBraceBlockEnd(lines: seq<string>, start: nat) returns (end: nat)
    requires start < |lines|
    ensures IsBlockEnd(lines, start, end)
  {
    hide Depth, Opened, Net, CutComment;
    NothingOpened(lines, start);
    var depth: int, hasOpened := 0, false;
    for index := start to |lines|
      invariant depth == Depth(lines[start..index]) && (hasOpened <==> Opened(lines[start..index]))
      invariant forall e :: start < e <= index ==> !Closed(lines[start..e])
    {
      var line := CutComment(lines[index]);
      BlockGrows(lines, start, index);
      depth := depth + Net(line);
      hasOpened := hasOpened || '{' in line;
      if hasOpened && depth <= 0 {
        return index + 1;
      }
    }
    end := |lines|;
  }

  lemma NothingOpened(lines: seq<string>, start: nat)
    requires start <= |lines|
    ensures Depth(lines[start..start]) == 0 && !Opened(lines[start..start])
  {
  }

  lemma BlockGrows(lines: seq<string>, start: nat, index: nat)
    requires start <= index < |lines|
    ensures Depth(lines[start..index + 1]) == Depth(lines[start..index]) + Net(CutComment(lines[index]))
    ensures Opened(lines[start..index + 1]) <==> Opened(lines[start..index]) || Opens(lines[index])
  {
    var before, after := lines[start..index], lines[start..index + 1];
    assert after == before + [lines[index]];
    assert after[..|after| - 1] == before;
    if Opened(before) {
      var i :| 0 <= i < |before| && Opens(before[i]);
      assert Opens(after[i]);
    }
    assert after[|before|] == lines[index];
  }

  /** The next declaration at or after `cursor`, or the end. */
  function NextDeclaration(lines: seq<string>, declares: string -> bool, cursor: nat): (n: nat)
    requires cursor <= |lines|
    ensures cursor <= n <= |lines|
    decreases |lines| - cursor
  {
    if cursor == |lines| || declares(lines[cursor]) then cursor
    else NextDeclaration(lines, declares, cursor + 1)
  }

  lemma {:induction false} NextDeclarationIs(lines: seq<string>, declares: string -> bool, cursor: nat, n: nat)
    requires cursor <= n <= |lines|
    requires n < |lines| ==> declares(lines[n])
    requires forall k :: cursor <= k < n ==> !declares(lines[k])
    ensures NextDeclaration(lines, declares, cursor) == n
    decreases |lines| - cursor
  {
    if cursor < n {
      NextDeclarationIs(lines, declares, cursor + 1, n);
    }
  }

  predicate ValidEnds(ends: seq<nat>, lines: nat) {
    |ends| == lines && forall n :: 0 <= n < lines ==> n < ends[n] <= lines
  }

  /** For each line, where the block of a declaration on that line ends. */
  function BlockEnds(lines: seq<string>): (ends: seq<nat>)
    ensures ValidEnds(ends, |lines|)
    ensures forall n :: 0 <= n < |lines| ==> ends[n] == BlockEndFrom(lines, n, n + 1)
  {
    seq(|lines|, n requires 0 <= n < |lines| => BlockEndFrom(lines, n, n + 1))
  }

  /** The lines before, of, and after each declaration that is not inside an earlier one. */
  function BraceSlices(lines: seq<string>, declares: string -> bool, ends: seq<nat>, cursor: nat): seq<seq<string>>
    requires cursor <= |lines| && ValidEnds(ends, |lines|)
    decreases |lines| - cursor
  {
    var n := NextDeclaration(lines, declares, cursor);
    if n == |lines| then [lines[cursor..]]
    else
      var start := CommentStart(lines, SlashComment, n, cursor);
      [lines[cursor..start]] + ([lines[start..ends[n]]] + BraceSlices(lines, declares, ends, ends[n]))
  }

  lemma {:induction false} BraceSlicesCover(lines: seq<string>, declares: string -> bool, ends: seq<nat>, cursor: nat)
    requires cursor <= |lines| && ValidEnds(ends, |lines|)
    ensures Flatten(BraceSlices(lines, declares, ends, cursor)) == lines[cursor..]
    decreases |lines| - cursor
  {
    var n := NextDeclaration(lines, declares, cursor);
    if n == |lines| {
      OneSlice(lines[cursor..]);
    } else {
      var start := CommentStart(lines, SlashComment, n, cursor);
      BraceSlicesCover(lines, declares, ends, ends[n]);
      TwoSlices(lines, cursor, start, ends[n], BraceSlices(lines, declares, ends, ends[n]));
    }
  }

  function BraceUnits(text: string, declares: string -> bool): seq<string> {
    var lines := SplitLines(text);
    if NextDeclaration(lines, declares, 0) == |lines| then BlankLineUnits(text)
    else UnitsOf(BraceSlices(lines, declares, BlockEnds(lines), 0))
  }

  predicate ListedFrom(starts: seq<nat>, i: nat, k: nat) {
    exists j :: i <= j < |starts| && starts[j] == k
  }

  /** The indices of all declarations, in order. */
  method Declarations(lines: seq<string>, declares: string -> bool) returns (starts: seq<nat>)
    ensures forall i :: 0 <= i < |starts| ==> starts[i] < |lines| && declares(lines[starts[i]])
    ensures Ascending(starts) && Listed(lines, declares, starts, 0, 0)
  {
    starts := [];
    for n := 0 to |lines|
      invariant forall i :: 0 <= i < |starts| ==> starts[i] < n && declares(lines[starts[i]])
      invariant Ascending(starts)
      invariant forall k :: 0 <= k < n && declares(lines[k]) ==> ListedFrom(starts, 0, k)
    {
      if declares(lines[n]) {
        ghost var before := starts;
        starts := starts + [n];
        assert starts[|before|] == n;
        forall k | 0 <= k < n && declares(lines[k]) ensures ListedFrom(starts, 0, k) {
          var j :| 0 <= j < |before| && before[j] == k;
          assert starts[j] == k;
        }
      }
    }
  }

  /** The end of a declaration's block. */
  method DeclarationEnd(lines: seq<string>, n: nat, ghost ends: seq<nat>) returns (end: nat)
    requires n < |lines| && ends == BlockEnds(lines)
    ensures end == ends[n]
  {
    end := FindBraceBlockEnd(lines, n);
    BlockEndIsFirst(lines, n, n + 1);
    BlockEndIsUnique(lines, n, end, BlockEndFrom(lines, n, n + 1));
  }

  method SplitBraces(text: string, declares: string -> bool) returns (units: seq<string>)
    ensures units == BraceUnits(text, declares)
  {
    var lines := SplitLines(text);
    var starts := Declarations(lines, declares);
    if starts == [] {
      NextDeclarationIs(lines, declares, 0, |lines|);
      return BlankLineUnits(text);
    }
    units := TakeDeclarations(lines, declares, starts, BlockEnds(lines));
    if NextDeclaration(lines, declares, 0) == |lines| {
      NoDeclaration(lines, declares, 0, starts[0]);
    }
  }

  lemma {:induction false} NoDeclaration(lines: seq<string>, declares: string -> bool, cursor: nat, n: nat)
    requires cursor <= n < |lines| && declares(lines[n])
    ensures NextDeclaration(lines, declares, cursor) < |lines|
    decreases n - cursor
  {
    if cursor < n {
      NoDeclaration(lines, declares, cursor + 1, n);
    }
  }

  /** All declarations from `cursor` on are among starts[i..]. */
  predicate Listed(lines: seq<string>, declares: string -> bool, starts: seq<nat>, i: nat, cursor: nat) {
    forall k :: cursor <= k < |lines| && declares(lines[k]) ==> ListedFrom(starts, i, k)
  }

  predicate Ascending(starts: seq<nat>) {
    forall i, j :: 0 <= i < j < |starts| ==> starts[i] < starts[j]
  }

  lemma {:induction false} ListedIsNext(lines: seq<string>, declares: string -> bool, starts: seq<nat>, i: nat, cursor: nat)
    requires i < |starts| && starts[i] < |lines| && declares(lines[starts[i]])
    requires Ascending(starts) && Listed(lines, declares, starts, i, cursor) && cursor <= starts[i]
    ensures NextDeclaration(lines, declares, cursor) == starts[i]
  {
    forall k | cursor <= k < starts[i] ensures !declares(lines[k]) {}
    NextDeclarationIs(lines, declares, cursor, starts[i]);
  }

  lemma ListedAfter(lines: seq<string>, declares: string -> bool, starts: seq<nat>, i: nat, cursor: nat, cursor': nat)
    requires i < |starts| && Listed(lines, declares, starts, i, cursor)
    requires cursor <= cursor' && starts[i] < cursor'
    ensures Listed(lines, declares, starts, i + 1, cursor')
  {
    forall k | cursor' <= k < |lines| && declares(lines[k]) ensures ListedFrom(starts, i + 1, k) {
      assert ListedFrom(starts, i, k);
    }
  }

  lemma {:induction false} NothingListed(lines: seq<string>, declares: string -> bool, starts: seq<nat>, cursor: nat)
    requires Listed(lines, declares, starts, |starts|, cursor) && cursor <= |lines|
    ensures NextDeclaration(lines, declares, cursor) == |lines|
  {
    forall k | cursor <= k < |lines| ensures !declares(lines[k]) {}
    NextDeclarationIs(lines, declares, cursor, |lines|);
  }

  lemma {:induction false} LastSlice(lines: seq<string>, declares: string -> bool, ends: seq<nat>, cursor: nat)
    requires cursor <= |lines| && ValidEnds(ends, |lines|) && NextDeclaration(lines, declares, cursor) == |lines|
    ensures BraceSlices(lines, declares, ends, cursor) == [lines[cursor..]]
  {
  }

  lemma {:induction false} NextSlices(lines: seq<string>, declares: string -> bool, ends: seq<nat>, cursor: nat, start: nat)
    requires cursor <= |lines| && ValidEnds(ends, |lines|) && NextDeclaration(lines, declares, cursor) < |lines|
    requires start == CommentStart(lines, SlashComment, NextDeclaration(lines, declares, cursor), cursor)
    ensures var end := ends[NextDeclaration(lines, declares, cursor)];
            BraceSlices(lines, declares, ends, cursor)
              == [lines[cursor..start]] + ([lines[start..end]] + BraceSlices(lines, declares, ends, end))
  {
    hide CommentStart, NextDeclaration;
  }

  method TakeDeclarations(
    lines: seq<string>, declares: string -> bool, starts: seq<nat>, ghost ends: seq<nat>)
    returns (units: seq<string>)
    requires ends == BlockEnds(lines) && Ascending(starts) && Listed(lines, declares, starts, 0, 0)
    requires forall i :: 0 <= i < |starts| ==> starts[i] < |lines| && declares(lines[starts[i]])
    ensures units == UnitsOf(BraceSlices(lines, declares, ends, 0))
  {
    units := [];
    ghost var slices: seq<seq<string>> := [];
    assert UnitsOf(slices) == [];
    hide UnitsOf, BraceSlices, Listed, NextDeclaration, CommentStart;
    var cursor: nat := 0;
    for i := 0 to |starts|
      invariant cursor <= |lines| && Listed(lines, declares, starts, i, cursor)
      invariant units == UnitsOf(slices)
      invariant BraceSlices(lines, declares, ends, 0) == slices + BraceSlices(lines, declares, ends, cursor)
    {
      var n := starts[i];
      if n < cursor {
        ListedAfter(lines, declares, starts, i, cursor, cursor);
        continue;
      }
      ListedIsNext(lines, declares, starts, i, cursor);
      var start := IncludeLeadingComments(lines, SlashComment, n, cursor);
      var end := DeclarationEnd(lines, n, ends);
      ListedAfter(lines, declares, starts, i, cursor, end);
      NextSlices(lines, declares, ends, cursor, start);
      Regroup(slices, lines[cursor..start], lines[start..end], BraceSlices(lines, declares, ends, end));
      units, slices := AddDeclaration(units, lines[cursor..start], lines[start..end], slices);
      cursor := end;
    }
    NothingListed(lines, declares, starts, cursor);
    LastSlice(lines, declares, ends, cursor);
    units, slices := AddUnit(units, lines[cursor..], slices);
  }

  // ----- units that are too long -------------------------------------------------------------

  /** The finished parts, the lines of the current one, and a bound on its length. */
  datatype LinePile = LinePile(parts: seq<string>, current: seq<string>, size: nat)

  function AddLine(p: LinePile, line: string, max: int): LinePile {
    var lineSize := |line| + if p.current == [] then 0 else 1;
    if p.current != [] && p.size + lineSize > max
    then LinePile(p.parts + [Strip(JoinLines(p.current))], [line], lineSize)
    else LinePile(p.parts, p.current + [line], p.size + lineSize)
  }

  function AddLines(lines: seq<string>, max: int): LinePile {
    if lines == [] then LinePile([], [], 0)
    else AddLine(AddLines(lines[..|lines| - 1], max), lines[|lines| - 1], max)
  }

  function SplitLargeUnit(unit: string, max: int): seq<string> {
    if |unit| <= max then [unit]
    else
      var p := AddLines(SplitLines(unit), max);
      if p.current == [] then p.parts else p.parts + [Strip(JoinLines(p.current))]
  }

  method SplitLarge(unit: string, max: int) returns (parts: seq<string>)
    ensures parts == SplitLargeUnit(unit, max)
  {
    if |unit| <= max { return [unit]; }
    var lines := SplitLines(unit);
    parts := [];
    var current: seq<string> := [];
    var size: nat := 0;
    for i := 0 to |lines|
      invariant LinePile(parts, current, size) == AddLines(lines[..i], max)
    {
      assert lines[..i + 1][..i] == lines[..i];
      var lineSize := |lines[i]| + if current == [] then 0 else 1;
      if current != [] && size + lineSize > max {
        parts := parts + [Strip(JoinLines(current))];
        current, size := [], 0;
      }
      current := current + [lines[i]];
      size := size + lineSize;
    }
    assert lines[..|lines|] == lines;
    if current != [] {
      parts := parts + [Strip(JoinLines(current))];
    }
  }

  /** A part fits, or it is a single line. */
  predicate FitsOrLine(part: string, max: int) {
    |part| <= max || |Rows(part)| <= 1
  }

  predicate AllFitOrLines(parts: seq<string>, max: int) {
    forall i :: 0 <= i < |parts| ==> FitsOrLine(parts[i], max)
  }

  lemma {:induction false} JoinLinesSnoc(lines: seq<string>, line: string)
    requires lines != []
    ensures JoinLines(lines + [line]) == JoinLines(lines) + ("\n" + line)
  {
    if |lines| == 1 {
      assert (lines + [line])[1..] == [line];
    } else {
      JoinLinesSnoc(lines[1..], line);
      assert (lines + [line])[1..] == lines[1..] + [line];
    }
  }

  predicate LinePileFits(p: LinePile, max: int) {
    && |JoinLines(p.current)| <= p.size
    && (|p.current| > 1 ==> p.size <= max)
    && (forall i :: 0 <= i < |p.current| ==> NoBreak(p.current[i]))
  }

  lemma RowOfOneLine(line: string)
    requires NoBreak(line)
    ensures |Rows(Strip(line))| <= 1
  {
    RowsStrip(line);
    RowsOfLine(line);
  }

  lemma CurrentFits(p: LinePile, max: int)
    requires LinePileFits(p, max) && p.current != []
    ensures FitsOrLine(Strip(JoinLines(p.current)), max)
  {
    if |p.current| == 1 {
      RowOfOneLine(p.current[0]);
    }
  }

  lemma AddLineFits(p: LinePile, line: string, max: int)
    requires LinePileFits(p, max) && NoBreak(line)
    ensures LinePileFits(AddLine(p, line, max), max)
  {
    if p.current != [] {
      JoinLinesSnoc(p.current, line);
    } else {
      assert p.current + [line] == [line];
    }
  }

  function LinePileRows(p: LinePile): seq<string> {
    RowsAll(p.parts) + RowsAll(p.current)
  }

  lemma CloseKeepsRows(p: LinePile)
    ensures RowsAll(p.parts + [Strip(JoinLines(p.current))]) == LinePileRows(p)
  {
    RowsAllSnoc(p.parts, Strip(JoinLines(p.current)));
    RowsStrip(JoinLines(p.current));
    RowsJoinLines(p.current);
  }

  lemma RowsAllOne(line: string)
    ensures RowsAll([line]) == Rows(line)
  {
    RowsAllSnoc([], line);
    assert [] + [line] == [line];
  }

  lemma AddLineKeepsRows(p: LinePile, line: string, max: int)
    ensures LinePileRows(AddLine(p, line, max)) == LinePileRows(p) + Rows(line)
  {
    if p.current != [] && p.size + |line| + 1 > max {
      CloseKeepsRows(p);
      RowsAllOne(line);
    } else {
      RowsAllSnoc(p.current, line);
      Associate(RowsAll(p.parts), RowsAll(p.current), Rows(line));
    }
  }

  lemma {:induction false} AddLinesKeep(lines: seq<string>, max: int)
    requires forall i :: 0 <= i < |lines| ==> NoBreak(lines[i])
    ensures LinePileFits(AddLines(lines, max), max)
    ensures AllFitOrLines(AddLines(lines, max).parts, max)
    ensures LinePileRows(AddLines(lines, max)) == RowsAll(lines)
    ensures lines != [] ==> AddLines(lines, max).current != []
  {
    if lines != [] {
      var init, last := lines[..|lines| - 1], lines[|lines| - 1];
      AddLinesKeep(init, max);
      AddLineFits(AddLines(init, max), last, max);
      AddLineKeepsRows(AddLines(init, max), last, max);
      if AddLines(init, max).current != [] {
        CurrentFits(AddLines(init, max), max);
      }
    }
  }

  /** A unit that is too long is cut between lines only. */
  lemma LargeUnitKeepsRows(unit: string, max: int)
    ensures RowsAll(SplitLargeUnit(unit, max)) == Rows(unit)
    ensures AllFitOrLines(SplitLargeUnit(unit, max), max)
  {
    hide Rows, SplitLines;
    if |unit| <= max {
      RowsAllSnoc([], unit);
      assert [] + [unit] == [unit];
    } else {
      var p := AddLines(SplitLines(unit), max);
      AddLinesKeep(SplitLines(unit), max);
      RowsSplitLines(unit);
      if p.current != [] {
        CloseKeepsRows(p);
        CurrentFits(p, max);
      }
    }
  }

  // ----- all together ------------------------------------------------------------------------

  function Kept(part: string): seq<string> {
    if part == "" then [] else [part]
  }

  function NonEmpty(parts: seq<string>): seq<string> {
    if parts == [] then [] else NonEmpty(parts[..|parts| - 1]) + Kept(parts[|parts| - 1])
  }

  function SplitAllLarge(units: seq<string>, max: int): seq<string> {
    if units == [] then []
    else SplitAllLarge(units[..|units| - 1], max) + NonEmpty(SplitLargeUnit(units[|units| - 1], max))
  }

  const DECLARING_LANGUAGES := {"java", "kotlin", "javascript", "typescript"}

  function UnitsFor(text: string, language: Option<string>, x: Syntax): seq<string>
    requires x.parse(text).Some? ==> ValidSpans(x.parse(text).value, |SplitLines(text)|)
  {
    if language == Some("python") then PythonUnits(text, x)
    else if language.Some? && language.value in DECLARING_LANGUAGES
    then BraceUnits(text, line => x.declares(language.value, line))
    else BlankLineUnits(text)
  }

  function SplitNormalized(normalized: string, language: Option<string>, max: int, x: Syntax): seq<string>
    requires x.parse(normalized).Some? ==> ValidSpans(x.parse(normalized).value, |SplitLines(normalized)|)
  {
    if normalized == "" then []
    else
      var units := UnitsFor(normalized, language, x);
      SplitAllLarge(if units == [] then [normalized] else units, max)
  }

  function SplitCodeUnits(text: string, language: Option<string>, max: int, x: Syntax): seq<string>
    requires x.parse(Normalize(text)).Some? ==>
      ValidSpans(x.parse(Normalize(text)).value, |SplitLines(Normalize(text))|)
  {
    SplitNormalized(Normalize(text), language, max, x)
  }

  method SplitIntoCodeUnits(text: string, language: Option<string>, max: int, x: Syntax)
    returns (parts: seq<string>)
    requires x.parse(Normalize(text)).Some? ==>
      ValidSpans(x.parse(Normalize(text)).value, |SplitLines(Normalize(text))|)
    ensures parts == SplitCodeUnits(text, language, max, x)
  {
    var normalized := NormalizeCodeText(text);
    if normalized == "" { return []; }
    var units: seq<string>;
    if language == Some("python") {
      units := SplitPython(normalized, x);
    } else if language.Some? && language.value in DECLARING_LANGUAGES {
      units := SplitBraces(normalized, line => x.declares(language.value, line));
    } else {
      units := BlankLineUnits(normalized);
    }
    if units == [] {
      units := [normalized];
    }
    parts := SplitEach(units, max);
  }

  method SplitEach(units: seq<string>, max: int) returns (parts: seq<string>)
    ensures parts == SplitAllLarge(units, max)
  {
    parts := [];
    for i := 0 to |units|
      invariant parts == SplitAllLarge(units[..i], max)
    {
      assert units[..i + 1][..i] == units[..i];
      var cut := SplitLarge(units[i], max);
      parts := parts + NonEmpty(cut);
    }
    assert units[..|units|] == units;
  }

  lemma KeptRows(part: string)
    ensures RowsAll(Kept(part)) == Rows(part)
  {
    RowsOfLine("");
    RowsAllOne(part);
  }

  lemma {:induction false} NonEmptyKeeps(parts: seq<string>, max: int)
    requires AllFitOrLines(parts, max)
    ensures RowsAll(NonEmpty(parts)) == RowsAll(parts) && AllFitOrLines(NonEmpty(parts), max)
  {
    if parts != [] {
      var init, last := parts[..|parts| - 1], parts[|parts| - 1];
      NonEmptyKeeps(init, max);
      KeptRows(last);
      RowsAllConcat(NonEmpty(init), Kept(last));
    }
  }

  lemma {:induction false} SplitAllKeeps(units: seq<string>, max: int)
    ensures RowsAll(SplitAllLarge(units, max)) == RowsAll(units)
    ensures AllFitOrLines(SplitAllLarge(units, max), max)
  {
    if units != [] {
      var init, last := units[..|units| - 1], units[|units| - 1];
      SplitAllKeeps(init, max);
      LargeUnitKeepsRows(last, max);
      NonEmptyKeeps(SplitLargeUnit(last, max), max);
      RowsAllConcat(SplitAllLarge(init, max), NonEmpty(SplitLargeUnit(last, max)));
    }
  }

  /** However the units are found, they hold the rows of the text, in order. */
  lemma {:induction false} UnitsForKeepRows(text: string, language: Option<string>, x: Syntax)
    requires x.parse(text).Some? ==> ValidSpans(x.parse(text).value, |SplitLines(text)|)
    ensures RowsAll(UnitsFor(text, language, x)) == Rows(text)
  {
    var lines := SplitLines(text);
    BlocksKeepRows(text);
    RowsSplitLines(text);
    assert lines[0..] == lines;
    if language == Some("python") {
      if x.parse(text).Some? && x.parse(text).value != [] {
        PythonSlicesCover(lines, x.parse(text).value, 0, 0);
        UnitsKeepRows(PythonSlices(lines, x.parse(text).value, 0, 0));
      }
    } else if language.Some? && language.value in DECLARING_LANGUAGES {
      var declares := line => x.declares(language.value, line);
      BraceSlicesCover(lines, declares, BlockEnds(lines), 0);
      UnitsKeepRows(BraceSlices(lines, declares, BlockEnds(lines), 0));
    }
  }

  /**
    Splitting code keeps its lines: the rows of the units are the rows of the text, in order,
    for every language and whatever the parser and the patterns answer; and a unit that is
    longer than allowed is a single line.
   */
  lemma {:induction false} CodeUnitsKeepLines(text: string, language: Option<string>, max: int, x: Syntax)
    requires ValidSyntax(x)
    ensures RowsAll(SplitCodeUnits(text, language, max, x)) == Rows(text)
    ensures AllFitOrLines(SplitCodeUnits(text, language, max, x), max)
  {
    NormalizeKeepsRows(text);
    NormalizedKeepsLines(Normalize(text), language, max, x);
  }

  lemma {:induction false} NormalizedKeepsLines(normalized: string, language: Option<string>, max: int, x: Syntax)
    requires x.parse(normalized).Some? ==> ValidSpans(x.parse(normalized).value, |SplitLines(normalized)|)
    ensures RowsAll(SplitNormalized(normalized, language, max, x)) == Rows(normalized)
    ensures AllFitOrLines(SplitNormalized(normalized, language, max, x), max)
  {
    if normalized == "" {
      RowsOfLine("");
    } else {
      var units := UnitsFor(normalized, language, x);
      UnitsForKeepRows(normalized, language, x);
      RowsAllOne(normalized);
      SplitAllKeeps(if units == [] then [normalized] else units, max);
    }

  }
}
