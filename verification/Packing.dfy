/**
  Packing units of text into parts of a bounded size, greedily and in order.

  A unit is never cut here, so a unit that is too long makes a part of its own. What greedy
  means is said without reference to the packing: the parts are consecutive groups of units,
  and no part had room for the first unit of the next.
 */
module Packing {
  import opened Wrappers
  import opened Text
  import opened Lines

  /** The finished parts, and the part being filled; an empty one is no part. */
  datatype Pile = Pile(parts: seq<string>, current: string)

  const EMPTY_PILE := Pile([], "")

  /** A stripped unit joins the current part, or starts the next one. */
  function Place(p: Pile, u: string, max: int, separator: string): Pile {
    if p.current == "" then p.(current := u)
    else if |p.current + separator + u| <= max then p.(current := p.current + separator + u)
    else Pile(p.parts + [Strip(p.current)], u)
  }

  function Append(p: Pile, unit: string, max: int, separator: string): Pile {
    if Strip(unit) == "" then p else Place(p, Strip(unit), max, separator)
  }

  function AppendAll(p: Pile, units: seq<string>, max: int, separator: string): Pile {
    if units == [] then p
    else Append(AppendAll(p, units[..|units| - 1], max, separator), units[|units| - 1], max, separator)
  }

  function Flush(p: Pile): seq<string> {
    if p.current == "" then p.parts else p.parts + [Strip(p.current)]
  }

  /** All units packed, the last part included. */
  function Pack(units: seq<string>, max: int, separator: string): seq<string> {
    Flush(AppendAll(EMPTY_PILE, units, max, separator))
  }

  /** A list that its users append to. */
  class PartList {
    var items: seq<string>

    constructor ()
      ensures items == []
    {
      items := [];
    }

    method Push(part: string)
      modifies this
      ensures items == old(items) + [part]
    {
      items := items + [part];
    }

    method Extend(parts: seq<string>)
      modifies this
      ensures items == old(items) + parts
    {
      items := items + parts;
    }

    /** Adds a unit to the current part; if it does not fit, the part goes on the list first. */
    method AppendUnit(current: string, unit: string, max: int, separator: string) returns (next: string)
      modifies this
      ensures Pile(items, next) == Append(Pile(old(items), current), unit, max, separator)
    {
      var stripped := Strip(unit);
      if stripped == "" { return current; }
      if current == "" { return stripped; }
      var candidate := current + separator + stripped;
      if |candidate| <= max { return candidate; }
      Push(Strip(current));
      next := stripped;
    }

    method AppendUnits(current: string, units: seq<string>, max: int, separator: string) returns (next: string)
      modifies this
      ensures Pile(items, next) == AppendAll(Pile(old(items), current), units, max, separator)
    {
      next := current;
      for i := 0 to |units|
        invariant Pile(items, next) == AppendAll(Pile(old(items), current), units[..i], max, separator)
      {
        assert units[..i + 1][..i] == units[..i];
        next := AppendUnit(next, units[i], max, separator);
      }
      assert units[..|units|] == units;
    }

    method Finish(current: string)
      modifies this
      ensures items == Flush(Pile(old(items), current))
    {
      if current != "" {
        Push(Strip(current));
      }
    }
  }

  // ----- nothing is lost -------------------------------------------------------------------

  /** No whitespace at either end. */
  predicate Trimmed(s: string) {
    s != "" ==> !IsSpace(s[0]) && !IsSpace(s[|s| - 1])
  }

  lemma TrimmedIsStripped(s: string)
    requires Trimmed(s)
    ensures Strip(s) == s
  {
  }

  function PileInk(p: Pile): string {
    InkAll(p.parts) + Ink(p.current)
  }

  lemma FlushKeepsInk(p: Pile)
    ensures InkAll(Flush(p)) == PileInk(p)
  {
    if p.current != "" {
      InkAllSnoc(p.parts, Strip(p.current));
      InkStrip(p.current);
    }
  }

  lemma InkSeparated(a: string, separator: string, b: string)
    requires AllSpace(separator)
    ensures Ink(a + separator + b) == Ink(a) + Ink(b)
  {
    InkConcat(a + separator, b);
    InkConcat(a, separator);
    InkOfSpace(separator);
  }

  lemma AppendKeepsInk(p: Pile, unit: string, max: int, separator: string)
    requires AllSpace(separator)
    ensures PileInk(Append(p, unit, max, separator)) == PileInk(p) + Ink(unit)
  {
    hide Strip, AllSpace, InkAll;
    var u := Strip(unit);
    InkStrip(unit);
    if u != "" && p.current != "" {
      if |p.current + separator + u| <= max {
        InkSeparated(p.current, separator, u);
        Associate(InkAll(p.parts), Ink(p.current), Ink(u));
      } else {
        FlushKeepsInk(p);
      }
    }
  }

  lemma {:induction false} AppendAllKeepsInk(p: Pile, units: seq<string>, max: int, separator: string)
    requires AllSpace(separator)
    ensures PileInk(AppendAll(p, units, max, separator)) == PileInk(p) + InkAll(units)
  {
    if units != [] {
      var init, last := units[..|units| - 1], units[|units| - 1];
      AppendAllKeepsInk(p, init, max, separator);
      AppendKeepsInk(AppendAll(p, init, max, separator), last, max, separator);
      Associate(PileInk(p), InkAll(init), Ink(last));
    }
  }

  /** The parts say what the units say, in order. */
  lemma PackKeepsInk(units: seq<string>, max: int, separator: string)
    requires AllSpace(separator)
    ensures InkAll(Pack(units, max, separator)) == InkAll(units)
  {
    PiledInk(units, max, separator);
    FlushKeepsInk(AppendAll(EMPTY_PILE, units, max, separator));
  }

  lemma PiledInk(units: seq<string>, max: int, separator: string)
    requires AllSpace(separator)
    ensures PileInk(AppendAll(EMPTY_PILE, units, max, separator)) == InkAll(units)
  {
    AppendAllKeepsInk(EMPTY_PILE, units, max, separator);
    EmptyPileInk();
    EmptyFirst(InkAll(units));
  }

  lemma EmptyPileInk()
    ensures PileInk(EMPTY_PILE) == ""
  {
  }

  lemma EmptyFirst<T>(s: seq<T>)
    ensures [] + s == s
  {
  }

  const PARAGRAPH := "\n\n"

  function PileRows(p: Pile): seq<string> {
    RowsAll(p.parts) + Rows(p.current)
  }

  lemma FlushKeepsRows(p: Pile)
    ensures RowsAll(Flush(p)) == PileRows(p)
  {
    if p.current == "" {
      RowsOfLine("");
    } else {
      RowsAllSnoc(p.parts, Strip(p.current));
      RowsStrip(p.current);
    }
  }

  lemma RowsSeparated(a: string, b: string)
    ensures Rows(a + PARAGRAPH + b) == Rows(a) + Rows(b)
  {
    RowsConcat(a, '\n', "\n" + b);
    RowsSpaceFirst('\n', b);
    assert a + PARAGRAPH + b == a + (['\n'] + ("\n" + b));
  }

  lemma PlaceKeepsRows(p: Pile, u: string, max: int)
    ensures PileRows(Place(p, u, max, PARAGRAPH)) == PileRows(p) + Rows(u)
  {
    if p.current == "" {
      RowsOfLine("");
    } else if |p.current + PARAGRAPH + u| <= max {
      RowsSeparated(p.current, u);
      Associate(RowsAll(p.parts), Rows(p.current), Rows(u));
    } else {
      FlushKeepsRows(p);
    }
  }

  lemma AppendKeepsRows(p: Pile, unit: string, max: int)
    ensures PileRows(Append(p, unit, max, PARAGRAPH)) == PileRows(p) + Rows(unit)
  {
    RowsStrip(unit);
    RowsOfLine("");
    if Strip(unit) != "" {
      PlaceKeepsRows(p, Strip(unit), max);
    }
  }

  lemma {:induction false} AppendAllKeepsRows(p: Pile, units: seq<string>, max: int)
    ensures PileRows(AppendAll(p, units, max, PARAGRAPH)) == PileRows(p) + RowsAll(units)
  {
    if units != [] {
      var init, last := units[..|units| - 1], units[|units| - 1];
      AppendAllKeepsRows(p, init, max);
      AppendKeepsRows(AppendAll(p, init, max, PARAGRAPH), last, max);
      Associate(PileRows(p), RowsAll(init), Rows(last));
    }
  }

  /** No line of a unit is cut, lost or moved by packing. */
  lemma PackKeepsRows(units: seq<string>, max: int)
    ensures RowsAll(Pack(units, max, PARAGRAPH)) == RowsAll(units)
  {
    AppendAllKeepsRows(EMPTY_PILE, units, max);
    FlushKeepsRows(AppendAll(EMPTY_PILE, units, max, PARAGRAPH));
    RowsOfLine("");
  }

  // ----- greedy groups -----------------------------------------------------------------------

  /** separator.join(group) */
  function JoinWith(group: seq<string>, separator: string): string {
    if group == [] then ""
    else if |group| == 1 then group[0]
    else JoinWith(group[..|group| - 1], separator) + separator + group[|group| - 1]
  }

  function CleanOne(unit: string): seq<string> {
    if Strip(unit) == "" then [] else [Strip(unit)]
  }

  /** The units that say something, stripped. */
  function Clean(units: seq<string>): seq<string> {
    if units == [] then [] else Clean(units[..|units| - 1]) + CleanOne(units[|units| - 1])
  }

  /** A part is its group, joined; a group of more than one unit fits. */
  predicate IsGroup(part: string, group: seq<string>, max: int, separator: string) {
    group != [] && part == JoinWith(group, separator) && (|group| > 1 ==> |part| <= max)
  }

  predicate Greedy(parts: seq<string>, groups: seq<seq<string>>, max: int, separator: string) {
    && |groups| == |parts|
    && (forall i :: 0 <= i < |parts| ==> IsGroup(parts[i], groups[i], max, separator))
    && (forall i :: 0 <= i < |parts| - 1 ==> |parts[i]| + |separator| + |groups[i + 1][0]| > max)
  }

  predicate GreedyPile(p: Pile, groups: seq<seq<string>>, max: int, separator: string) {
    && Trimmed(p.current)
    && (p.current == "" ==> p.parts == [])
    && Greedy(Flush(p), groups, max, separator)
  }

  lemma JoinWithSnoc(group: seq<string>, separator: string, unit: string)
    requires group != []
    ensures JoinWith(group + [unit], separator) == JoinWith(group, separator) + separator + unit
  {
    assert (group + [unit])[..|group|] == group;
  }

  lemma GreedySnoc(parts: seq<string>, groups: seq<seq<string>>, u: string, max: int, separator: string)
    requires Greedy(parts, groups, max, separator) && IsGroup(u, [u], max, separator)
    requires parts != [] ==> |parts[|parts| - 1]| + |separator| + |u| > max
    ensures Greedy(parts + [u], groups + [[u]], max, separator)
  {
    hide IsGroup;
  }

  lemma AloneIsGroup(u: string, max: int, separator: string)
    ensures IsGroup(u, [u], max, separator)
  {
  }

  lemma FlushAdds(p: Pile, u: string)
    requires Trimmed(p.current) && Trimmed(u) && u != ""
    ensures Flush(Pile(Flush(p), u)) == Flush(p) + [u]
    ensures Flush(p) == if p.current == "" then p.parts else p.parts + [p.current]
  {
    TrimmedIsStripped(u);
    TrimmedIsStripped(p.current);
  }

  lemma NewGroup(p: Pile, groups: seq<seq<string>>, u: string, max: int, separator: string)
    requires GreedyPile(p, groups, max, separator) && Trimmed(u) && u != ""
    requires p.current != "" ==> |p.current + separator + u| > max
    ensures var p' := Pile(Flush(p), u);
            GreedyPile(p', groups + [[u]], max, separator)
    ensures Flatten(groups + [[u]]) == Flatten(groups) + [u]
  {
    hide Trimmed, IsGroup, Greedy, Flush;
    FlushAdds(p, u);
    FlattenSnoc(groups, [u]);
    AloneIsGroup(u, max, separator);
    GreedySnoc(Flush(p), groups, u, max, separator);
  }

  lemma GrownGroup(p: Pile, groups: seq<seq<string>>, u: string, max: int, separator: string)
      returns (groups': seq<seq<string>>)
    requires GreedyPile(p, groups, max, separator) && Trimmed(u) && u != "" && p.current != ""
    requires |p.current + separator + u| <= max
    ensures GreedyPile(p.(current := p.current + separator + u), groups', max, separator)
    ensures Flatten(groups') == Flatten(groups) + [u]
  {
    var n := |groups| - 1;
    var init, last, current' := groups[..n], groups[n], p.current + separator + u;
    TrimmedIsStripped(p.current);
    assert Trimmed(current');
    TrimmedIsStripped(current');
    assert Flush(p) == p.parts + [p.current];
    assert Flush(p.(current := current')) == p.parts + [current'];
    JoinWithSnoc(last, separator, u);
    assert IsGroup(Flush(p)[n], groups[n], max, separator);
    groups' := init + [last + [u]];
    assert groups == init + [last];
    FlattenSnoc(init, last);
    FlattenSnoc(init, last + [u]);
    Associate(Flatten(init), last, [u]);
    forall i | 0 <= i <= n
      ensures IsGroup((p.parts + [current'])[i], groups'[i], max, separator)
    {
      if i < n {
        assert IsGroup(Flush(p)[i], groups[i], max, separator);
      }
    }
    forall i | 0 <= i < n
      ensures |(p.parts + [current'])[i]| + |separator| + |groups'[i + 1][0]| > max
    {
      assert |Flush(p)[i]| + |separator| + |groups[i + 1][0]| > max;
    }
  }

  lemma PlaceIsGreedy(p: Pile, groups: seq<seq<string>>, u: string, max: int, separator: string)
      returns (groups': seq<seq<string>>)
    requires GreedyPile(p, groups, max, separator) && Trimmed(u) && u != ""
    ensures GreedyPile(Place(p, u, max, separator), groups', max, separator)
    ensures Flatten(groups') == Flatten(groups) + [u]
  {
    if p.current != "" && |p.current + separator + u| <= max {
      groups' := GrownGroup(p, groups, u, max, separator);
    } else {
      assert Place(p, u, max, separator) == Pile(Flush(p), u);
      NewGroup(p, groups, u, max, separator);
      groups' := groups + [[u]];
    }
  }

  lemma StripTrims(s: string)
    ensures Trimmed(Strip(s))
  {
  }

  lemma AppendIsGreedy(p: Pile, groups: seq<seq<string>>, unit: string, max: int, separator: string)
      returns (groups': seq<seq<string>>)
    requires GreedyPile(p, groups, max, separator)
    ensures GreedyPile(Append(p, unit, max, separator), groups', max, separator)
    ensures Flatten(groups') == Flatten(groups) + CleanOne(unit)
  {
    StripTrims(unit);
    if Strip(unit) == "" {
      groups' := groups;
      Associate(Flatten(groups), [], []);
    } else {
      groups' := PlaceIsGreedy(p, groups, Strip(unit), max, separator);
    }
  }

  lemma {:induction false} AppendAllIsGreedy(units: seq<string>, max: int, separator: string)
      returns (groups: seq<seq<string>>)
    ensures GreedyPile(AppendAll(EMPTY_PILE, units, max, separator), groups, max, separator)
    ensures Flatten(groups) == Clean(units)
  {
    if units == [] {
      groups := [];
    } else {
      var init := units[..|units| - 1];
      var before := AppendAllIsGreedy(init, max, separator);
      groups := AppendIsGreedy(AppendAll(EMPTY_PILE, init, max, separator), before, units[|units| - 1], max, separator);
    }
  }

  /**
    Packing is greedy. The parts are consecutive groups of the stripped units, none lost; a
    part of more than one unit fits; and no part had room for the first unit of the next.
   */
  lemma PackIsGreedy(units: seq<string>, max: int, separator: string) returns (groups: seq<seq<string>>)
    ensures Greedy(Pack(units, max, separator), groups, max, separator)
    ensures Flatten(groups) == Clean(units)
  {
    groups := AppendAllIsGreedy(units, max, separator);
  }

  // ----- sizes -------------------------------------------------------------------------------

  predicate AllWithin(parts: seq<string>, max: int) {
    forall i :: 0 <= i < |parts| ==> |parts[i]| <= max
  }

  /** The first unit of a part is no longer than the part. */
  lemma {:induction false} CleanWithin(units: seq<string>, max: int)
    requires AllWithin(units, max)
    ensures AllWithin(Clean(units), max)
  {
    if units != [] {
      CleanWithin(units[..|units| - 1], max);
    }
  }

  lemma {:induction false} GroupsAreFlattened(groups: seq<seq<string>>, i: nat)
    requires i < |groups| && groups[i] != []
    ensures groups[i][0] in Flatten(groups)
  {
    if i < |groups| - 1 {
      GroupsAreFlattened(groups[..|groups| - 1], i);
    }
  }

  /** If every unit fits, every part does. */
  lemma PackFits(units: seq<string>, max: int, separator: string)
    requires AllWithin(units, max)
    ensures AllWithin(Pack(units, max, separator), max)
  {
    var parts := Pack(units, max, separator);
    var groups := PackIsGreedy(units, max, separator);
    CleanWithin(units, max);
    forall i | 0 <= i < |parts| ensures |parts[i]| <= max {
      assert IsGroup(parts[i], groups[i], max, separator);
      GroupsAreFlattened(groups, i);
    }
  }
}
