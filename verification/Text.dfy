/**
  The string operations the interview backend relies on, with the meaning they have in the
  original language: whitespace, strip, split on whitespace, and splitting into lines.

  `Ink` is the yardstick of this module: the non-whitespace characters of a text, in order.
  "Equal up to whitespace" is stated with `Collapse`, the text whose words are joined by one
  blank.
 */
module Text {
  import opened Wrappers

  /** The characters for which str.isspace() holds; also the class \s of a str pattern. */
  predicate IsSpace(c: char) {
    || '\t' <= c <= '\r'
    || '\U{1C}' <= c <= ' '
    || c == '\U{85}' || c == '\U{A0}' || c == '\U{1680}'
    || '\U{2000}' <= c <= '\U{200A}'
    || c == '\U{2028}' || c == '\U{2029}' || c == '\U{202F}' || c == '\U{205F}' || c == '\U{3000}'
  }

  /** The single characters at which str.splitlines() breaks a text. */
  predicate IsBreak(c: char) {
    || '\n' <= c <= '\r'
    || '\U{1C}' <= c <= '\U{1E}'
    || c == '\U{85}' || c == '\U{2028}' || c == '\U{2029}'
  }

  predicate AllSpace(s: string) {
    forall i :: 0 <= i < |s| ==> IsSpace(s[i])
  }

  predicate NoBreak(s: string) {
    forall i :: 0 <= i < |s| ==> !IsBreak(s[i])
  }

  /** str.startswith() */
  predicate StartsWith(s: string, prefix: string) {
    |prefix| <= |s| && s[..|prefix|] == prefix
  }

  function LStrip(s: string): (r: string)
    ensures |r| <= |s|
    ensures r == "" || !IsSpace(r[0])
  {
    if s != "" && IsSpace(s[0]) then LStrip(s[1..]) else s
  }

  function RStrip(s: string): (r: string)
    ensures |r| <= |s| && (r != "" ==> r[0] == s[0])
    ensures r == "" || !IsSpace(r[|r| - 1])
  {
    if s != "" && IsSpace(s[|s| - 1]) then RStrip(s[..|s| - 1]) else s
  }

  /** str.strip() */
  function Strip(s: string): (r: string)
    ensures |r| <= |s|
    ensures r == "" || (!IsSpace(r[0]) && !IsSpace(r[|r| - 1]))
  {
    RStrip(LStrip(s))
  }

  /** Nothing is left of the text when it is stripped; see BlankIsStrippedEmpty. */
  predicate Blank(s: string) {
    AllSpace(s)
  }

  /** The non-whitespace characters of a text, in order. */
  function Ink(s: string): (r: string)
  {
    if s == "" then ""
    else if IsSpace(s[0]) then Ink(s[1..])
    else [s[0]] + Ink(s[1..])
  }

  lemma InkCons(c: char, s: string)
    ensures Ink([c] + s) == if IsSpace(c) then Ink(s) else [c] + Ink(s)
  {
    assert ([c] + s)[1..] == s;
  }

  lemma InkOfNothing()
    ensures Ink("") == ""
  {
  }

  lemma {:induction false} InkConcat(a: string, b: string)
    ensures Ink(a + b) == Ink(a) + Ink(b)
  {
    hide Ink, IsSpace;
    if a == "" {
      assert a + b == b;
      InkOfNothing();
    } else {
      var c, rest := a[0], a[1..];
      InkConcat(rest, b);
      InkCons(c, rest);
      InkCons(c, rest + b);
      assert a == [c] + rest;
      assert a + b == [c] + (rest + b);
    }
  }

  lemma {:induction false} InkOfSpace(s: string)
    ensures AllSpace(s) <==> Ink(s) == ""
  {
    if s != "" {
      InkOfSpace(s[1..]);
      if AllSpace(s) {
        assert IsSpace(s[0]) && AllSpace(s[1..]);
      } else if IsSpace(s[0]) {
        var i :| 0 <= i < |s| && !IsSpace(s[i]);
        assert !IsSpace(s[1..][i - 1]);
      }
    }
  }

  lemma {:induction false} InkLStrip(s: string)
    ensures Ink(LStrip(s)) == Ink(s)
  {
    if s != "" && IsSpace(s[0]) {
      InkLStrip(s[1..]);
    }
  }

  lemma {:induction false} InkRStrip(s: string)
    ensures Ink(RStrip(s)) == Ink(s)
  {
    if s != "" && IsSpace(s[|s| - 1]) {
      var init := s[..|s| - 1];
      InkRStrip(init);
      assert s == init + [s[|s| - 1]];
      InkConcat(init, [s[|s| - 1]]);
    }
  }

  lemma InkStrip(s: string)
    ensures Ink(Strip(s)) == Ink(s)
  {
    InkLStrip(s);
    InkRStrip(LStrip(s));
  }

  lemma BlankIsStrippedEmpty(s: string)
    ensures Blank(s) <==> Strip(s) == ""
  {
    InkOfSpace(s);
    InkStrip(s);
    var t := Strip(s);
    if t != "" {
      assert Ink(t) == [t[0]] + Ink(t[1..]);
    }
  }

  lemma StripKeepsBlank(s: string)
    ensures Blank(Strip(s)) <==> Blank(s)
  {
    InkStrip(s);
    InkOfSpace(s);
    InkOfSpace(Strip(s));
  }

  /** The length of the leading run of non-whitespace characters. */
  function WordLength(s: string): (n: nat)
    ensures n <= |s|
    ensures s != "" && !IsSpace(s[0]) ==> n > 0
  {
    if s == "" || IsSpace(s[0]) then 0 else 1 + WordLength(s[1..])
  }

  /** str.split() */
  function Words(s: string): (ws: seq<string>)
    decreases |s|
  {
    if s == "" then []
    else if IsSpace(s[0]) then Words(s[1..])
    else [s[..WordLength(s)]] + Words(s[WordLength(s)..])
  }

  /** " ".join(words) */
  function Spaced(words: seq<string>): string {
    if words == [] then ""
    else if |words| == 1 then words[0]
    else words[0] + " " + Spaced(words[1..])
  }

  /** " ".join(s.split()): two texts with the same value are equal up to whitespace. */
  function Collapse(s: string): string {
    Spaced(Words(s))
  }

  lemma {:induction false} WordsLStrip(s: string)
    ensures Words(LStrip(s)) == Words(s)
  {
    if s != "" && IsSpace(s[0]) {
      WordsLStrip(s[1..]);
    }
  }

  lemma {:induction false} WordLengthSnoc(s: string, c: char)
    requires IsSpace(c)
    ensures WordLength(s + [c]) == WordLength(s)
  {
    if s != "" && !IsSpace(s[0]) {
      WordLengthSnoc(s[1..], c);
      assert (s + [c])[1..] == s[1..] + [c];
    }
  }

  lemma {:induction false} WordsSnoc(s: string, c: char)
    requires IsSpace(c)
    ensures Words(s + [c]) == Words(s)
    decreases |s|
  {
    var t := s + [c];
    if s == "" {
      assert t[1..] == "";
    } else if IsSpace(s[0]) {
      WordsSnoc(s[1..], c);
      assert t[1..] == s[1..] + [c];
    } else {
      WordLengthSnoc(s, c);
      var n := WordLength(s);
      WordsSnoc(s[n..], c);
      assert t[..n] == s[..n] && t[n..] == s[n..] + [c];
    }
  }

  lemma {:induction false} WordsRStrip(s: string)
    ensures Words(RStrip(s)) == Words(s)
  {
    if s != "" && IsSpace(s[|s| - 1]) {
      WordsRStrip(s[..|s| - 1]);
      WordsSnoc(s[..|s| - 1], s[|s| - 1]);
      assert s == s[..|s| - 1] + [s[|s| - 1]];
    }
  }

  lemma WordsStrip(s: string)
    ensures Words(Strip(s)) == Words(s)
  {
    WordsLStrip(s);
    WordsRStrip(LStrip(s));
  }

  /** Stripping a text does not change it up to whitespace. */
  lemma CollapseStrip(s: string)
    ensures Collapse(Strip(s)) == Collapse(s)
  {
    WordsStrip(s);
  }

  lemma {:induction false} WordLengthStops(a: string, t: string)
    requires t == "" || IsSpace(t[0])
    ensures WordLength(a + t) == WordLength(a)
  {
    if a == "" {
      assert a + t == t;
    } else if !IsSpace(a[0]) {
      WordLengthStops(a[1..], t);
      assert (a + t)[1..] == a[1..] + t;
    }
  }

  lemma WordsFromSpace(c: char, s: string)
    requires IsSpace(c)
    ensures Words([c] + s) == Words(s)
  {
    assert ([c] + s)[1..] == s;
  }

  lemma WordsFirst(s: string)
    requires s != "" && !IsSpace(s[0])
    ensures Words(s) == [s[..WordLength(s)]] + Words(s[WordLength(s)..])
  {
  }

  lemma SplitAt(a: string, t: string, n: nat)
    requires n <= |a|
    ensures (a + t)[..n] == a[..n] && (a + t)[n..] == a[n..] + t
  {
  }

  /** The words of two texts with whitespace between them. */
  lemma {:induction false} WordsConcat(a: string, c: char, b: string)
    requires IsSpace(c)
    ensures Words(a + ([c] + b)) == Words(a) + Words(b)
    decreases |a|
  {
    var t := [c] + b;
    WordsFromSpace(c, b);
    if a == "" {
      assert a + t == t;
    } else if IsSpace(a[0]) {
      hide WordLength;
      WordsConcat(a[1..], c, b);
      WordsFromSpace(a[0], a[1..] + t);
      SplitAt(a, t, 1);
      assert a + t == [a[0]] + (a[1..] + t);
    } else {
      hide Words, IsSpace;
      var n := WordLength(a);
      WordLengthStops(a, t);
      WordsFirst(a);
      WordsFirst(a + t);
      WordsConcat(a[n..], c, b);
      SplitAt(a, t, n);
      Associate([a[..n]], Words(a[n..]), Words(b));
    }
  }

  /** str.replace(" ", "") */
  function DropBlanks(s: string): string {
    if s == "" then ""
    else if s[0] == ' ' then DropBlanks(s[1..])
    else [s[0]] + DropBlanks(s[1..])
  }

  lemma {:induction false} DropBlanksConcat(a: string, b: string)
    ensures DropBlanks(a + b) == DropBlanks(a) + DropBlanks(b)
  {
    var s := a + b;
    if a == "" {
      assert s == b;
    } else {
      DropBlanksConcat(a[1..], b);
      assert s[0] == a[0] && s[1..] == a[1..] + b;
      assert ([a[0]] + DropBlanks(a[1..])) + DropBlanks(b) == [a[0]] + (DropBlanks(a[1..]) + DropBlanks(b));
    }
  }

  lemma {:induction false} DropBlanksWord(s: string)
    ensures DropBlanks(s[..WordLength(s)]) == s[..WordLength(s)]
    ensures Ink(s) == s[..WordLength(s)] + Ink(s[WordLength(s)..])
  {
    var n := WordLength(s);
    if s == "" || IsSpace(s[0]) {
      assert s[..n] == "" && s[n..] == s;
    } else {
      DropBlanksWord(s[1..]);
      assert s[..n] == [s[0]] + s[1..][..n - 1];
      assert s[..n][1..] == s[1..][..n - 1];
      assert s[n..] == s[1..][n - 1..];
    }
  }

  lemma {:induction false} DropBlanksCollapse(s: string)
    ensures DropBlanks(Collapse(s)) == Ink(s)
    decreases |s|
  {
    if s == "" {
    } else if IsSpace(s[0]) {
      DropBlanksCollapse(s[1..]);
    } else {
      var n := WordLength(s);
      DropBlanksWord(s);
      DropBlanksCollapse(s[n..]);
      DropBlanksSpaced(s[..n], Words(s[n..]));
    }
  }

  lemma DropBlanksSpaced(word: string, rest: seq<string>)
    ensures DropBlanks(Spaced([word] + rest)) == DropBlanks(word) + DropBlanks(Spaced(rest))
  {
    assert ([word] + rest)[1..] == rest;
    if rest == [] {
      assert DropBlanks(Spaced(rest)) == "";
    } else {
      DropBlanksConcat(word + " ", Spaced(rest));
      DropBlanksConcat(word, " ");
      assert DropBlanks(" ") == "";
    }
  }
}
