/**
 * The greedy word wrap that lays the title out in the highlight panel
 * (`processar_texto`), with the glyph-width measurement of the title font
 * abstracted as a function `width: string -> nat`.
 */
module TextWrap {

  /** Python's `str.isspace` for one character: the separators of `str.split()`. */
  predicate IsSpace(c: char) {
    var n := c as int;
    (9 <= n <= 13) || (28 <= n <= 32) || n == 0x85 || n == 0xA0 || n == 0x1680
    || (0x2000 <= n <= 0x200A) || n == 0x2028 || n == 0x2029 || n == 0x202F
    || n == 0x205F || n == 0x3000
  }

  /** A word of `str.split()`: non-empty, without separators. */
  predicate IsWord(w: string) {
    w != [] && forall i :: 0 <= i < |w| ==> !IsSpace(w[i])
  }

  predicate AllWords(ws: seq<string>) {
    forall k :: 0 <= k < |ws| ==> IsWord(ws[k])
  }

  /** The length of the run of non-separators at the start of `s`. */
  function WordLength(s: string): (n: nat)
    ensures n <= |s|
    ensures forall i :: 0 <= i < n ==> !IsSpace(s[i])
    ensures n < |s| ==> IsSpace(s[n])
  {
    if s == [] || IsSpace(s[0]) then 0 else 1 + WordLength(s[1..])
  }

  /** Python's `s.split()` with no argument: the maximal runs of non-separators, in order. */
  function Split(s: string): (ws: seq<string>)
    ensures AllWords(ws)
    decreases |s|
  {
    if s == [] then []
    else if IsSpace(s[0]) then Split(s[1..])
    else
      var n := WordLength(s);
      [s[..n]] + Split(s[n..])
  }

  /** Python's `' '.join(ws)`. */
  function Join(ws: seq<string>): string {
    if ws == [] then "" else if |ws| == 1 then ws[0] else ws[0] + " " + Join(ws[1..])
  }

  /** Python's `str.upper()` on one character, for ASCII and Latin-1 letters. */
  function UpperChar(c: char): char {
    var n := c as int;
    if 'a' <= c <= 'z' || (0xE0 <= n <= 0xFE && n != 0xF7) then (n - 32) as char else c
  }

  /** Python's `str.upper()`, letter by letter. */
  function Upper(s: string): (u: string)
    ensures |u| == |s|
    ensures forall i :: 0 <= i < |s| ==> (IsSpace(u[i]) <==> IsSpace(s[i]))
  {
    seq(|s|, i requires 0 <= i < |s| => UpperChar(s[i]))
  }

  lemma {:induction false} JoinSnoc(ws: seq<string>, w: string)
    requires ws != []
    ensures Join(ws + [w]) == Join(ws) + " " + w
  {
    if |ws| == 1 {
      assert ws + [w] == [ws[0], w];
    } else {
      assert (ws + [w])[1..] == ws[1..] + [w];
      JoinSnoc(ws[1..], w);
    }
  }

  lemma {:induction false} WordLengthOfWord(w: string, t: string)
    requires forall i :: 0 <= i < |w| ==> !IsSpace(w[i])
    requires t == [] || IsSpace(t[0])
    ensures WordLength(w + t) == |w|
  {
    if w != [] {
      assert (w + t)[1..] == w[1..] + t;
      WordLengthOfWord(w[1..], t);
    }
  }

  /** Splitting a single-spaced join of words gives the words back. */
  lemma {:induction false} SplitJoin(ws: seq<string>)
    requires AllWords(ws)
    ensures Split(Join(ws)) == ws
  {
    if ws == [] {
    } else if |ws| == 1 {
      var w := ws[0];
      WordLengthOfWord(w, "");
      assert w + "" == w;
      assert w[|w|..] == "";
    } else {
      var w, rest := ws[0], Join(ws[1..]);
      var s := w + " " + rest;
      assert Join(ws) == s;
      assert w + (" " + rest) == s;
      WordLengthOfWord(w, " " + rest);
      assert s[..|w|] == w;
      assert s[|w|..] == " " + rest;
      assert (" " + rest)[1..] == rest;
      SplitJoin(ws[1..]);
    }
  }

  /** The words of `lines`, line by line, in order. */
  function WordsOf(lines: seq<string>): seq<string> {
    if lines == [] then [] else WordsOf(lines[..|lines| - 1]) + Split(lines[|lines| - 1])
  }

  /** The words of a list of word lists, in order. */
  function Flatten(lw: seq<seq<string>>): seq<string> {
    if lw == [] then [] else Flatten(lw[..|lw| - 1]) + lw[|lw| - 1]
  }

  /** Each word list joined by single spaces: the text of each line. */
  function JoinAll(lw: seq<seq<string>>): seq<string> {
    seq(|lw|, k requires 0 <= k < |lw| => Join(lw[k]))
  }

  lemma FlattenSnoc(lw: seq<seq<string>>, ws: seq<string>)
    ensures Flatten(lw + [ws]) == Flatten(lw) + ws
  {
    assert (lw + [ws])[..|lw|] == lw;
  }

  lemma JoinAllSnoc(lw: seq<seq<string>>, ws: seq<string>)
    ensures JoinAll(lw + [ws]) == JoinAll(lw) + [Join(ws)]
  {
  }

  /** The lines of `lw` are those before its last, then its last. */
  lemma CloseLine(lw: seq<seq<string>>)
    requires lw != []
    ensures JoinAll(lw) == JoinAll(lw[..|lw| - 1]) + [Join(lw[|lw| - 1])]
  {
    assert lw[..|lw| - 1] + [lw[|lw| - 1]] == lw;
    JoinAllSnoc(lw[..|lw| - 1], lw[|lw| - 1]);
  }

  // The greedy wrap, stated on the word lists of the lines.

  /** Every prefix of two or more words of the line fits the width. */
  predicate PrefixesFit(ws: seq<string>, max: int, width: string -> nat) {
    forall j :: 2 <= j <= |ws| ==> width(Join(ws[..j])) <= max
  }

  /** The line `next` follows `line` only because `line` with the next word would be too wide. */
  predicate Forced(line: seq<string>, next: seq<string>, max: int, width: string -> nat) {
    next != [] && (line != [] ==> width(Join(line + [next[0]])) > max)
  }

  /**
   * `lw` is a greedy wrap of `words` into width `max`: the lines hold the words
   * in order; every word added to a line after its first left the line within
   * the width; a line is closed only when the next word does not fit on it; only
   * the first line can be empty, and it is empty exactly when the first word
   * alone is too wide.
   */
  predicate GreedyWrap(words: seq<string>, lw: seq<seq<string>>, max: int, width: string -> nat) {
    && Flatten(lw) == words
    && (forall k :: 0 <= k < |lw| ==> AllWords(lw[k]) && PrefixesFit(lw[k], max, width))
    && (forall k :: 0 <= k < |lw| - 1 ==> Forced(lw[k], lw[k + 1], max, width))
    && (lw != [] ==> lw[|lw| - 1] != [] && (lw[0] == [] <==> |words| > 0 && width(words[0]) > max))
  }

  /** The first word opens the first line, after an empty one when it is too wide alone. */
  lemma StartWrap(w: string, max: int, width: string -> nat)
    requires IsWord(w)
    ensures GreedyWrap([w], if width(w) > max then [[], [w]] else [[w]], max, width)
  {
    assert Join([w]) == w;
    FlattenSnoc([], []);
    FlattenSnoc([], [w]);
    FlattenSnoc([[]], [w]);
    assert [[]] + [[w]] == [[], [w]];
    assert Forced([], [w], max, width);
    assert PrefixesFit([w], max, width);
  }

  /** A word that keeps the line within the width keeps every prefix of it within the width. */
  lemma PrefixesFitSnoc(line: seq<string>, w: string, max: int, width: string -> nat)
    requires PrefixesFit(line, max, width) && width(Join(line + [w])) <= max
    ensures PrefixesFit(line + [w], max, width)
  {
    forall j | 2 <= j <= |line + [w]|
      ensures width(Join((line + [w])[..j])) <= max
    {
      if j <= |line| {
        assert (line + [w])[..j] == line[..j];
      } else {
        assert (line + [w])[..j] == line + [w];
      }
    }
  }

  /** The next word fits: it joins the last line. */
  lemma {:induction false} ExtendLast(words: seq<string>, lw: seq<seq<string>>, w: string, max: int, width: string -> nat)
    requires GreedyWrap(words, lw, max, width) && lw != []
    requires IsWord(w) && width(Join(lw[|lw| - 1] + [w])) <= max
    ensures GreedyWrap(words + [w], lw[..|lw| - 1] + [lw[|lw| - 1] + [w]], max, width)
  {
    var n := |lw| - 1;
    var line := lw[n];
    var lw' := lw[..n] + [line + [w]];
    assert lw[..n] + [line] == lw;
    FlattenSnoc(lw[..n], line);
    FlattenSnoc(lw[..n], line + [w]);
    assert Flatten(lw') == words + [w];
    PrefixesFitSnoc(line, w, max, width);
    forall k | 0 <= k < |lw'| ensures AllWords(lw'[k]) && PrefixesFit(lw'[k], max, width) {
      if k < n {
        assert lw'[k] == lw[k];
      }
    }
    forall k | 0 <= k < |lw'| - 1 ensures Forced(lw'[k], lw'[k + 1], max, width) {
      assert lw'[k] == lw[k];
      assert Forced(lw[k], lw[k + 1], max, width);
      if k + 1 == n {
        assert lw'[k + 1][0] == lw[k + 1][0];
      } else {
        assert lw'[k + 1] == lw[k + 1];
      }
    }
    assert lw'[0] == [] <==> lw[0] == [];
    assert words != [] ==> (words + [w])[0] == words[0];
  }

  /** The next word does not fit: the last line is closed and the word opens a new one. */
  lemma {:induction false} BreakLine(words: seq<string>, lw: seq<seq<string>>, w: string, max: int, width: string -> nat)
    requires GreedyWrap(words, lw, max, width) && lw != []
    requires IsWord(w) && width(Join(lw[|lw| - 1] + [w])) > max
    ensures GreedyWrap(words + [w], lw + [[w]], max, width)
  {
    var n := |lw| - 1;
    assert lw[..n] + [lw[n]] == lw;
    FlattenSnoc(lw[..n], lw[n]);
    FlattenSnoc(lw, [w]);
    assert Forced(lw[n], [w], max, width);
  }

  // The same properties, stated on the lines as strings.

  /** Concatenating the words of the lines gives exactly `text.split()`. */
  predicate WordsPreserved(text: string, lines: seq<string>) {
    WordsOf(lines) == Split(text)
  }

  /** Every line is its words joined by single spaces. */
  predicate Canonical(lines: seq<string>) {
    forall k :: 0 <= k < |lines| ==> lines[k] == Join(Split(lines[k]))
  }

  /** A line of two or more words fits; a single word may be wider than the panel. */
  predicate MultiWordLinesFit(lines: seq<string>, max: int, width: string -> nat) {
    forall k :: 0 <= k < |lines| && |Split(lines[k])| >= 2 ==> width(lines[k]) <= max
  }

  /**
   * Every word after the first went onto its line because the line with it
   * still fit: each prefix of two or more words of a line is within the width.
   */
  predicate LinePrefixesFit(lines: seq<string>, max: int, width: string -> nat) {
    forall k, j :: 0 <= k < |lines| && 2 <= j <= |Split(lines[k])| ==> width(Join(Split(lines[k])[..j])) <= max
  }

  /** Only the first line can be empty, and it is exactly when the first word alone is too wide. */
  predicate EmptyOnlyFirst(text: string, lines: seq<string>, max: int, width: string -> nat) {
    && (forall k :: 0 <= k < |lines| && lines[k] == "" ==> k == 0)
    && ((|lines| > 0 && lines[0] == "") <==> (Split(text) != [] && width(Split(text)[0]) > max))
  }

  /** A non-empty line ends only because the next line's first word would not fit on it. */
  predicate BreaksAreForced(lines: seq<string>, max: int, width: string -> nat) {
    forall k :: 0 <= k < |lines| - 1 && lines[k] != "" && Split(lines[k + 1]) != [] ==>
      width(lines[k] + " " + Split(lines[k + 1])[0]) > max
  }

  /** `lines` is the greedy wrap of `text` into width `max`, stated on the lines as strings. */
  predicate IsWrap(text: string, max: int, width: string -> nat, lines: seq<string>) {
    && (Split(text) == [] <==> lines == [])
    && WordsPreserved(text, lines)
    && Canonical(lines)
    && MultiWordLinesFit(lines, max, width)
    && LinePrefixesFit(lines, max, width)
    && EmptyOnlyFirst(text, lines, max, width)
    && BreaksAreForced(lines, max, width)
  }

  lemma SplitJoinAll(lw: seq<seq<string>>)
    requires forall k :: 0 <= k < |lw| ==> AllWords(lw[k])
    ensures forall k :: 0 <= k < |lw| ==> Split(JoinAll(lw)[k]) == lw[k]
  {
    forall k | 0 <= k < |lw| ensures Split(JoinAll(lw)[k]) == lw[k] {
      SplitJoin(lw[k]);
    }
  }

  lemma {:induction false} WordsOfJoinAll(lw: seq<seq<string>>)
    requires forall k :: 0 <= k < |lw| ==> AllWords(lw[k])
    ensures WordsOf(JoinAll(lw)) == Flatten(lw)
  {
    if lw != [] {
      var n := |lw| - 1;
      assert JoinAll(lw)[..n] == JoinAll(lw[..n]);
      WordsOfJoinAll(lw[..n]);
      SplitJoin(lw[n]);
    }
  }

  lemma LastLineNonEmpty(words: seq<string>, lw: seq<seq<string>>, max: int, width: string -> nat)
    requires GreedyWrap(words, lw, max, width)
    ensures words == [] <==> lw == []
    ensures forall k :: 0 < k < |lw| ==> lw[k] != []
  {
    if lw != [] {
      var n := |lw| - 1;
      assert lw[..n] + [lw[n]] == lw;
      FlattenSnoc(lw[..n], lw[n]);
    }
    forall k | 0 < k < |lw|
      ensures lw[k] != []
    {
      assert Forced(lw[k - 1], lw[k], max, width);
    }
  }

  lemma MultiWordLinesOfWrap(words: seq<string>, lw: seq<seq<string>>, max: int, width: string -> nat)
    requires GreedyWrap(words, lw, max, width)
    ensures MultiWordLinesFit(JoinAll(lw), max, width)
  {
    var lines := JoinAll(lw);
    SplitJoinAll(lw);
    forall k | 0 <= k < |lines| && |Split(lines[k])| >= 2
      ensures width(lines[k]) <= max
    {
      assert PrefixesFit(lw[k], max, width);
      assert lw[k][..|lw[k]|] == lw[k];
    }
  }

  lemma PrefixesOfWrap(words: seq<string>, lw: seq<seq<string>>, max: int, width: string -> nat)
    requires GreedyWrap(words, lw, max, width)
    ensures LinePrefixesFit(JoinAll(lw), max, width)
  {
    var lines := JoinAll(lw);
    SplitJoinAll(lw);
    forall k, j | 0 <= k < |lines| && 2 <= j <= |Split(lines[k])|
      ensures width(Join(Split(lines[k])[..j])) <= max
    {
      assert PrefixesFit(lw[k], max, width);
    }
  }

  lemma EmptyOnlyFirstOfWrap(text: string, lw: seq<seq<string>>, max: int, width: string -> nat)
    requires GreedyWrap(Split(text), lw, max, width)
    ensures EmptyOnlyFirst(text, JoinAll(lw), max, width)
  {
    var lines := JoinAll(lw);
    SplitJoinAll(lw);
    LastLineNonEmpty(Split(text), lw, max, width);
    forall k | 0 <= k < |lines| && lines[k] == ""
      ensures k == 0
    {
      assert Split(lines[k]) == [];
    }
    if lw != [] && lw[0] != [] {
      assert Split(lines[0]) != [];
    }
  }

  lemma BreaksOfWrap(words: seq<string>, lw: seq<seq<string>>, max: int, width: string -> nat)
    requires GreedyWrap(words, lw, max, width)
    ensures BreaksAreForced(JoinAll(lw), max, width)
  {
    var lines := JoinAll(lw);
    SplitJoinAll(lw);
    forall k | 0 <= k < |lines| - 1 && lines[k] != "" && Split(lines[k + 1]) != []
      ensures width(lines[k] + " " + Split(lines[k + 1])[0]) > max
    {
      assert lw[k] != [];
      assert Forced(lw[k], lw[k + 1], max, width);
      JoinSnoc(lw[k], lw[k + 1][0]);
    }
  }

  /** The lines of a greedy wrap, as strings, have the string-level properties. */
  lemma WrapLines(text: string, lw: seq<seq<string>>, max: int, width: string -> nat)
    requires GreedyWrap(Split(text), lw, max, width)
    ensures Split(text) == [] <==> lw == []
    ensures WordsPreserved(text, JoinAll(lw))
    ensures Canonical(JoinAll(lw))
    ensures MultiWordLinesFit(JoinAll(lw), max, width)
    ensures LinePrefixesFit(JoinAll(lw), max, width)
    ensures EmptyOnlyFirst(text, JoinAll(lw), max, width)
    ensures BreaksAreForced(JoinAll(lw), max, width)
  {
    SplitJoinAll(lw);
    WordsOfJoinAll(lw);
    LastLineNonEmpty(Split(text), lw, max, width);
    MultiWordLinesOfWrap(Split(text), lw, max, width);
    PrefixesOfWrap(Split(text), lw, max, width);
    EmptyOnlyFirstOfWrap(text, lw, max, width);
    BreaksOfWrap(Split(text), lw, max, width);
  }

  // The greedy wrap is unique: the properties above determine the lines.

  /** `lw` splits `words` into non-empty lines, each filled and closed as the greedy wrap does. */
  predicate Tiling(words: seq<string>, lw: seq<seq<string>>, max: int, width: string -> nat) {
    && Flatten(lw) == words
    && (forall k :: 0 <= k < |lw| ==> lw[k] != [] && PrefixesFit(lw[k], max, width))
    && (forall k :: 0 <= k < |lw| - 1 ==> Forced(lw[k], lw[k + 1], max, width))
  }

  lemma {:induction false} FlattenCons(ws: seq<string>, lw: seq<seq<string>>)
    ensures Flatten([ws] + lw) == ws + Flatten(lw)
    decreases |lw|
  {
    if lw == [] {
      assert [ws] + lw == [] + [ws];
      FlattenSnoc([], ws);
    } else {
      var n := |lw| - 1;
      assert [ws] + lw == ([ws] + lw[..n]) + [lw[n]];
      FlattenSnoc([ws] + lw[..n], lw[n]);
      FlattenCons(ws, lw[..n]);
      assert lw[..n] + [lw[n]] == lw;
      FlattenSnoc(lw[..n], lw[n]);
    }
  }

  /** The first line of a tiling is a prefix of the words, and the other lines tile the rest. */
  lemma TilingTail(words: seq<string>, lw: seq<seq<string>>, max: int, width: string -> nat)
    requires Tiling(words, lw, max, width) && lw != []
    ensures |lw[0]| <= |words| && words[..|lw[0]|] == lw[0]
    ensures Tiling(words[|lw[0]|..], lw[1..], max, width)
    ensures |lw| == 1 ==> words == lw[0]
    ensures |lw| > 1 ==> |lw[0]| < |words| && words[|lw[0]|] == lw[1][0]
  {
    assert lw == [lw[0]] + lw[1..];
    FlattenCons(lw[0], lw[1..]);
    assert words == lw[0] + Flatten(lw[1..]);
    assert words[|lw[0]|..] == Flatten(lw[1..]);
    forall k | 0 <= k < |lw[1..]| - 1 ensures Forced(lw[1..][k], lw[1..][k + 1], max, width) {
      assert Forced(lw[k + 1], lw[k + 2], max, width);
    }
    if |lw| > 1 {
      assert lw[1..] == [lw[1]] + lw[2..];
      FlattenCons(lw[1], lw[2..]);
    }
  }

  /** Two tilings of the same words are the same lines. */
  lemma {:induction false} TilingUnique(words: seq<string>, a: seq<seq<string>>, b: seq<seq<string>>, max: int, width: string -> nat)
    requires Tiling(words, a, max, width) && Tiling(words, b, max, width)
    ensures a == b
    decreases |words|
  {
    if a == [] || b == [] {
      if a != [] {
        TilingTail(words, a, max, width);
      } else if b != [] {
        TilingTail(words, b, max, width);
      }
    } else {
      TilingTail(words, a, max, width);
      TilingTail(words, b, max, width);
      FirstLinesAgree(words, a, b, max, width);
      FirstLinesAgree(words, b, a, max, width);
      assert a[0] == b[0];
      TilingUnique(words[|a[0]|..], a[1..], b[1..], max, width);
      assert a == [a[0]] + a[1..] && b == [b[0]] + b[1..];
    }
  }

  /** The first line of a tiling is not shorter than that of another: the next word would have fitted. */
  lemma FirstLinesAgree(words: seq<string>, a: seq<seq<string>>, b: seq<seq<string>>, max: int, width: string -> nat)
    requires Tiling(words, a, max, width) && Tiling(words, b, max, width) && a != [] && b != []
    ensures |a[0]| >= |b[0]|
  {
    TilingTail(words, a, max, width);
    TilingTail(words, b, max, width);
    ClosedTooWide(words, a, max, width);
    PrefixFitsIn(words, b[0], |a[0]|, max, width);
  }

  /** A line other than the last was closed because the next word made it too wide. */
  lemma ClosedTooWide(words: seq<string>, lw: seq<seq<string>>, max: int, width: string -> nat)
    requires Tiling(words, lw, max, width) && lw != []
    ensures |lw| > 1 ==> |lw[0]| < |words| && width(Join(words[..|lw[0]| + 1])) > max
  {
    if |lw| > 1 {
      TilingTail(words, lw, max, width);
      assert words[..|lw[0]| + 1] == lw[0] + [lw[1][0]];
      assert Forced(lw[0], lw[1], max, width);
    }
  }

  /** A line that starts the words keeps every longer prefix of them within the width. */
  lemma PrefixFitsIn(words: seq<string>, line: seq<string>, n: nat, max: int, width: string -> nat)
    requires PrefixesFit(line, max, width) && |line| <= |words| && words[..|line|] == line
    ensures 1 <= n < |line| ==> width(Join(words[..n + 1])) <= max
  {
    if 1 <= n < |line| {
      assert words[..n + 1] == line[..n + 1];
    }
  }

  /** A greedy wrap without its possible empty first line is a tiling. */
  lemma GreedyTiling(words: seq<string>, lw: seq<seq<string>>, max: int, width: string -> nat)
    requires GreedyWrap(words, lw, max, width) && lw != []
    ensures lw[0] == [] ==> Tiling(words, lw[1..], max, width)
    ensures lw[0] != [] ==> Tiling(words, lw, max, width)
  {
    LastLineNonEmpty(words, lw, max, width);
    if lw[0] == [] {
      assert lw == [[]] + lw[1..];
      FlattenCons([], lw[1..]);
      assert [] + Flatten(lw[1..]) == Flatten(lw[1..]);
      forall k | 0 <= k < |lw[1..]| ensures lw[1..][k] != [] && PrefixesFit(lw[1..][k], max, width) {
        assert lw[1..][k] == lw[k + 1];
      }
      forall k | 0 <= k < |lw[1..]| - 1 ensures Forced(lw[1..][k], lw[1..][k + 1], max, width) {
        assert Forced(lw[k + 1], lw[k + 2], max, width);
      }
    }
  }

  /** Two greedy wraps of the same words into the same width are the same lines. */
  lemma GreedyWrapUnique(words: seq<string>, a: seq<seq<string>>, b: seq<seq<string>>, max: int, width: string -> nat)
    requires GreedyWrap(words, a, max, width) && GreedyWrap(words, b, max, width)
    ensures a == b
  {
    LastLineNonEmpty(words, a, max, width);
    LastLineNonEmpty(words, b, max, width);
    if words != [] {
      GreedyTiling(words, a, max, width);
      GreedyTiling(words, b, max, width);
      if a[0] == [] {
        TilingUnique(words, a[1..], b[1..], max, width);
        assert a == [a[0]] + a[1..] && b == [b[0]] + b[1..];
      } else {
        TilingUnique(words, a, b, max, width);
      }
    }
  }

  /** The word list of each line. */
  function SplitAll(lines: seq<string>): (lw: seq<seq<string>>)
    ensures |lw| == |lines|
    ensures forall k :: 0 <= k < |lines| ==> lw[k] == Split(lines[k])
  {
    seq(|lines|, k requires 0 <= k < |lines| => Split(lines[k]))
  }

  lemma {:induction false} FlattenSplitAll(lines: seq<string>)
    ensures Flatten(SplitAll(lines)) == WordsOf(lines)
    decreases |lines|
  {
    if lines != [] {
      var n := |lines| - 1;
      assert SplitAll(lines)[..n] == SplitAll(lines[..n]);
      FlattenSplitAll(lines[..n]);
    }
  }

  /** Lines with the string-level properties are the lines of a greedy wrap of their words. */
  lemma WrapOfLines(text: string, max: int, width: string -> nat, lines: seq<string>)
    requires IsWrap(text, max, width, lines)
    ensures GreedyWrap(Split(text), SplitAll(lines), max, width)
    ensures JoinAll(SplitAll(lines)) == lines
  {
    var lw := SplitAll(lines);
    FlattenSplitAll(lines);
    assert Split("") == [];
    forall k | 0 <= k < |lw| ensures AllWords(lw[k]) && PrefixesFit(lw[k], max, width) {
      assert lw[k] == Split(lines[k]);
    }
    forall k | 0 < k < |lw| ensures lw[k] != [] {
      assert lines[k] == Join(Split(lines[k]));
    }
    forall k | 0 <= k < |lw| - 1 ensures Forced(lw[k], lw[k + 1], max, width) {
      if lw[k] != [] {
        assert lines[k] == Join(lw[k]) != "";
        JoinSnoc(lw[k], lw[k + 1][0]);
      }
    }
    if lines != [] {
      assert lines[0] == Join(Split(lines[0]));
    }
  }

  /** `IsWrap` determines the lines: the text, width function and maximum admit one wrap only. */
  lemma WrapUnique(text: string, max: int, width: string -> nat, l1: seq<string>, l2: seq<string>)
    requires IsWrap(text, max, width, l1) && IsWrap(text, max, width, l2)
    ensures l1 == l2
  {
    WrapOfLines(text, max, width, l1);
    WrapOfLines(text, max, width, l2);
    GreedyWrapUnique(Split(text), SplitAll(l1), SplitAll(l2), max, width);
  }

  /**
   * `processar_texto`: add words to the current line while its measured width
   * stays within `largura_maxima`; otherwise close the line and start a new one
   * with the word.
   */
  method WrapText(texto: string, largura_maxima: int, width: string -> nat) returns (linhas: seq<string>)
    ensures Split(texto) == [] <==> linhas == []
    ensures WordsPreserved(texto, linhas)
    ensures Canonical(linhas)
    ensures MultiWordLinesFit(linhas, largura_maxima, width)
    ensures LinePrefixesFit(linhas, largura_maxima, width)
    ensures EmptyOnlyFirst(texto, linhas, largura_maxima, width)
    ensures BreaksAreForced(linhas, largura_maxima, width)
  {
    var palavras := Split(texto);
    linhas := [];
    var linha_atual: seq<string> := [];
    ghost var lw: seq<seq<string>> := [];
    var i := 0;
    while i < |palavras|
      invariant 0 <= i <= |palavras|
      invariant GreedyWrap(palavras[..i], lw, largura_maxima, width)
      invariant i == 0 ==> lw == [] && linhas == [] && linha_atual == []
      invariant i > 0 ==> lw != [] && linha_atual == lw[|lw| - 1] && linhas == JoinAll(lw[..|lw| - 1])
    {
      var palavra := palavras[i];
      assert palavras[..i + 1] == palavras[..i] + [palavra];
      ghost var anterior := linha_atual;
      linha_atual := linha_atual + [palavra];
      var teste_linha := Join(linha_atual);
      if width(teste_linha) > largura_maxima {
        linha_atual := linha_atual[..|linha_atual| - 1];
        assert linha_atual == anterior;
        linhas := linhas + [Join(linha_atual)];
        linha_atual := [palavra];
        if i == 0 {
          StartWrap(palavra, largura_maxima, width);
          lw := [[], [palavra]];
        } else {
          BreakLine(palavras[..i], lw, palavra, largura_maxima, width);
          CloseLine(lw);
          ghost var closed := lw;
          lw := lw + [[palavra]];
          assert lw[..|lw| - 1] == closed;
        }
      } else {
        if i == 0 {
          StartWrap(palavra, largura_maxima, width);
          lw := [[palavra]];
        } else {
          ExtendLast(palavras[..i], lw, palavra, largura_maxima, width);
          lw := lw[..|lw| - 1] + [linha_atual];
        }
      }
      i := i + 1;
    }
    assert palavras[..i] == palavras;
    if linha_atual != [] {
      CloseLine(lw);
      linhas := linhas + [Join(linha_atual)];
    }
    WrapLines(texto, lw, largura_maxima, width);
  }
}
