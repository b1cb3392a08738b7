/** `formatAIResponse`: the normaliser applied to generated text. Every
    `.replace` of the chain is a left-to-right scanner with the semantics of a
    global JavaScript regular expression: the leftmost match wins, quantifiers are
    greedy, matches do not overlap, and under the `m` flag `^` holds at the start
    and after every line terminator. The scan resumes after a match; where there is
    none it copies one character and moves on. */
module TextFormatter {
  import opened JsString
  import opened JsArray

  // ---------------------------------------------------------------- neighbour facts

  /** Every two neighbouring characters of `s` satisfy `ok`. */
  predicate Neighbours(s: string, ok: (char, char) -> bool) {
    forall i | 0 <= i < |s| - 1 :: ok(s[i], s[i + 1])
  }

  lemma NeighboursConcat(a: string, b: string, ok: (char, char) -> bool)
    ensures Neighbours(a + b, ok) <==>
      && Neighbours(a, ok) && Neighbours(b, ok)
      && (a != [] && b != [] ==> ok(a[|a| - 1], b[0]))
  {
    var ab := a + b;
    assert forall i | 0 <= i < |a| :: ab[i] == a[i];
    assert forall i | 0 <= i < |b| :: ab[|a| + i] == b[i];
    if Neighbours(a, ok) && Neighbours(b, ok) && (a != [] && b != [] ==> ok(a[|a| - 1], b[0])) {
      forall i | 0 <= i < |ab| - 1 ensures ok(ab[i], ab[i + 1]) {
        if i >= |a| {
          assert ab[i] == b[i - |a|] && ab[i + 1] == b[i - |a| + 1];
        }
      }
    }
    if Neighbours(ab, ok) {
      forall i | 0 <= i < |b| - 1 ensures ok(b[i], b[i + 1]) {
        assert ab[|a| + i] == b[i] && ab[|a| + i + 1] == b[i + 1];
      }
    }
  }

  lemma NeighboursSuffix(s: string, k: nat, ok: (char, char) -> bool)
    requires k <= |s|
    ensures Neighbours(s, ok) ==> Neighbours(s[k..], ok)
  {
    assert forall i | 0 <= i < |s| - k :: s[k..][i] == s[k + i];
  }

  lemma NeighboursSlice(s: string, lo: nat, hi: nat, ok: (char, char) -> bool)
    requires lo <= hi <= |s|
    ensures Neighbours(s, ok) ==> Neighbours(s[lo..hi], ok)
  {
    assert forall i | 0 <= i < hi - lo :: s[lo..hi][i] == s[lo + i];
  }

  function NoSpaceAfterHash(x: char, y: char): bool {
    x == '#' ==> !IsSpace(y)
  }

  function SpaceAfterDot(x: char, y: char): bool {
    x == '.' ==> IsSpace(y)
  }

  function NotTwoSpaces(x: char, y: char): bool {
    !(IsSpace(x) && IsSpace(y))
  }

  /** No `#` is directly followed by white space. */
  predicate HashTight(s: string) {
    Neighbours(s, NoSpaceAfterHash)
  }

  /** A text without `#` is hash-tight. */
  lemma HashFree(s: string)
    requires forall i | 0 <= i < |s| :: s[i] != '#'
    ensures HashTight(s)
  {
  }

  /** Every `.` is followed by white space or ends the text. */
  predicate DotsSpaced(s: string) {
    Neighbours(s, SpaceAfterDot)
  }

  /** No two white-space characters are neighbours. */
  predicate SingleSpaced(s: string) {
    Neighbours(s, NotTwoSpaces)
  }

  /** The only white space is the plain space. */
  predicate PlainSpaces(s: string) {
    forall i | 0 <= i < |s| :: IsSpace(s[i]) ==> s[i] == ' '
  }

  // ---------------------------------------------------------------- lines 4-6: emphasis and code

  /** Length of the match of `d d? [^d]+ d d?` (when `doubled`) or of `d [^d]+ d`
      at the start of `s`; 0 when there is none. The run of non-delimiters is
      greedy, so it always reaches the next delimiter. */
  function PairMatch(s: string, d: char, doubled: bool): (n: nat)
    ensures n <= |s|
    ensures n != 0 ==> 3 <= n && s[0] == d && s[n - 1] == d
  {
    if |s| < 3 || s[0] != d then 0
    else if doubled && s[1] == d then PairClose(s, 2, d, doubled)
    else PairClose(s, 1, d, doubled)
  }

  /** The rest of a match whose opening delimiters take `open` characters: a
      non-empty run without `d`, then `d` (and a second `d` when `doubled`). */
  function PairClose(s: string, open: nat, d: char, doubled: bool): (n: nat)
    requires open <= |s|
    ensures n <= |s|
    ensures n != 0 ==> open + 2 <= n && s[n - 1] == d
  {
    var close := open + IndexOf(s[open..], d);
    if close == open || close == |s| then 0
    else if doubled && close + 1 < |s| && s[close + 1] == d then close + 2
    else close + 1
  }

  /** One of the emphasis steps: each match loses its delimiters, which
      `match.replace(/d/g, "")` removes; the text between matches is copied. */
  function StripPairs(s: string, d: char, doubled: bool): (r: string)
    ensures |r| <= |s|
    ensures d !in s ==> r == s
    decreases |s|
  {
    if s == [] then []
    else
      var n := PairMatch(s, d, doubled);
      if n == 0 then [s[0]] + StripPairs(s[1..], d, doubled)
      else RemoveAll(s[..n], d) + StripPairs(s[n..], d, doubled)
  }

  /** An emphasis step only ever deletes delimiters: with every `d` removed, its
      output and its input are the same text. */
  lemma {:induction false} StripPairsOnlyDeletes(s: string, d: char, doubled: bool)
    ensures RemoveAll(StripPairs(s, d, doubled), d) == RemoveAll(s, d)
    decreases |s|
  {
    if s != [] {
      var n := PairMatch(s, d, doubled);
      if n == 0 {
        var rest := StripPairs(s[1..], d, doubled);
        calc {
          RemoveAll(StripPairs(s, d, doubled), d);
          RemoveAll([s[0]] + rest, d);
          { RemoveAllAppend([s[0]], rest, d); }
          RemoveAll([s[0]], d) + RemoveAll(rest, d);
          { StripPairsOnlyDeletes(s[1..], d, doubled); }
          RemoveAll([s[0]], d) + RemoveAll(s[1..], d);
          { RemoveAllAppend([s[0]], s[1..], d); assert [s[0]] + s[1..] == s; }
          RemoveAll(s, d);
        }
      } else {
        var pair := RemoveAll(s[..n], d);
        var rest := StripPairs(s[n..], d, doubled);
        calc {
          RemoveAll(StripPairs(s, d, doubled), d);
          RemoveAll(pair + rest, d);
          { RemoveAllAppend(pair, rest, d); }
          RemoveAll(pair, d) + RemoveAll(rest, d);
          { RemoveAllAbsent(pair, d); StripPairsOnlyDeletes(s[n..], d, doubled); }
          pair + RemoveAll(s[n..], d);
          { RemoveAllAppend(s[..n], s[n..], d); assert s[..n] + s[n..] == s; }
          RemoveAll(s, d);
        }
      }
    }
  }

  /** Line 4, `/\*\*?[^*]+\*\*?/g`. */
  function StripBold(s: string): (r: string)
    ensures |r| <= |s|
    ensures '*' !in s ==> r == s
  {
    StripPairs(s, '*', true)
  }

  /** Line 5, `/__?[^_]+__?/g`. */
  function StripUnderscores(s: string): (r: string)
    ensures |r| <= |s|
    ensures '_' !in s ==> r == s
  {
    StripPairs(s, '_', true)
  }

  /** Line 6, a backtick, a run of other characters and a backtick. */
  function StripCode(s: string): (r: string)
    ensures |r| <= |s|
    ensures '`' !in s ==> r == s
  {
    StripPairs(s, '`', false)
  }

  /** Lines 4-6 delete only the delimiter each of them acts on. */
  lemma EmphasisOnlyDeletes(s: string)
    ensures RemoveAll(StripBold(s), '*') == RemoveAll(s, '*')
    ensures RemoveAll(StripUnderscores(s), '_') == RemoveAll(s, '_')
    ensures RemoveAll(StripCode(s), '`') == RemoveAll(s, '`')
  {
    StripPairsOnlyDeletes(s, '*', true);
    StripPairsOnlyDeletes(s, '_', true);
    StripPairsOnlyDeletes(s, '`', false);
  }

  // ---------------------------------------------------------------- line 7: heading marks

  /** Length of the run of `c` at the start of `s`. */
  function CharRun(s: string, c: char): (n: nat)
    ensures n <= |s|
    ensures forall i | 0 <= i < n :: s[i] == c
    ensures n < |s| ==> s[n] != c
  {
    if s == [] || s[0] != c then 0 else 1 + CharRun(s[1..], c)
  }

  /** Length of the match of `#+\s+` at the start of `s`; 0 when there is none. */
  function HeadingMatch(s: string): (n: nat)
    ensures n <= |s|
    ensures n != 0 ==> s[0] == '#'
  {
    var h := CharRun(s, '#');
    if h == 0 then 0
    else
      var w := SpaceRun(s[h..]);
      if w == 0 then 0 else h + w
  }

  /** Where no heading mark starts at a `#`, the next character is no white space,
      and no heading mark starts there either. */
  lemma HeadingMatchTail(s: string)
    ensures |s| >= 2 && s[0] == '#' && HeadingMatch(s) == 0 ==>
      !IsSpace(s[1]) && HeadingMatch(s[1..]) == 0
  {
    if |s| < 2 || s[0] != '#' || HeadingMatch(s) != 0 {
      return;
    }
    var h := CharRun(s, '#');
    var t := s[1..];
    assert CharRun(t, '#') == h - 1;
    assert SpaceRun(s[h..]) == 0;
    if h >= 2 {
      assert s[1] == '#' && !IsSpace('#');
      assert t[h - 1..] == s[h..];
      assert HeadingMatch(t) == 0;
    } else {
      assert s[h..] == t;
      assert !IsSpace(t[0]);
      assert CharRun(t, '#') == 0;
    }
  }

  /** Line 7: every `#+\s+` is deleted. Afterwards no `#` is followed by white space. */
  function StripHeadings(s: string): (r: string)
    ensures HashTight(r)
    ensures s != [] && HeadingMatch(s) == 0 ==> r != [] && r[0] == s[0]
    ensures '#' !in s ==> r == s
    decreases |s|
  {
    if s == [] then []
    else
      var n := HeadingMatch(s);
      if n == 0 then
        var rest := StripHeadings(s[1..]);
        HeadingMatchTail(s);
        NeighboursConcat([s[0]], rest, NoSpaceAfterHash);
        assert s == [s[0]] + s[1..];
        [s[0]] + rest
      else
        StripHeadings(s[n..])
  }

  // ---------------------------------------------------------------- lines 9-10: list markers

  predicate IsMarker(c: char) {
    c == '-' || c == '*'
  }

  predicate NoMarkers(s: string) {
    forall i | 0 <= i < |s| :: !IsMarker(s[i])
  }

  /** Length of the match of `[-*]\s+` at the start of `s`; 0 when there is none. */
  function BulletMatch(s: string): (n: nat)
    ensures n <= |s|
    ensures n != 0 ==> 2 <= n && IsMarker(s[0]) && IsSpace(s[n - 1])
  {
    if s == [] || !IsMarker(s[0]) then 0
    else
      var w := SpaceRun(s[1..]);
      assert w != 0 ==> s[1..][..w][w - 1] == s[w];
      if w == 0 then 0 else 1 + w
  }

  /** Line 9, `/^[-*]\s+/gm` replaced by "1. ". `atLineStart` says whether `^`
      holds in front of `s[0]`. */
  function NumberBullets(s: string, atLineStart: bool): (r: string)
    ensures s != [] && !atLineStart ==> r != [] && r[0] == s[0]
    ensures NoMarkers(s) ==> r == s
    decreases |s|
  {
    if s == [] then []
    else
      var n := BulletMatch(s);
      if atLineStart && n != 0 then
        "1. " + NumberBullets(s[n..], IsLineTerminator(s[n - 1]))
      else
        assert s == [s[0]] + s[1..];
        [s[0]] + NumberBullets(s[1..], IsLineTerminator(s[0]))
  }

  /** Numbering the bullets puts no white space after a `#`. */
  lemma {:induction false} BulletsKeepHashTight(s: string, atLineStart: bool)
    ensures HashTight(s) ==> HashTight(NumberBullets(s, atLineStart))
    decreases |s|, 1
  {
    if s != [] && HashTight(s) {
      if atLineStart && BulletMatch(s) != 0 {
        BulletsMarkerTight(s);
      } else {
        BulletsCharTight(s, atLineStart);
      }
    }
  }

  /** The bullet case of `BulletsKeepHashTight`. */
  lemma {:induction false} BulletsMarkerTight(s: string)
    requires s != [] && HashTight(s) && BulletMatch(s) != 0
    ensures HashTight(NumberBullets(s, true))
    decreases |s|, 0
  {
    var n := BulletMatch(s);
    var rest := NumberBullets(s[n..], IsLineTerminator(s[n - 1]));
    NeighboursSuffix(s, n, NoSpaceAfterHash);
    BulletsKeepHashTight(s[n..], IsLineTerminator(s[n - 1]));
    HashFree("1. ");
    NeighboursConcat("1. ", rest, NoSpaceAfterHash);
    assert NumberBullets(s, true) == "1. " + rest;
  }

  /** The case of `BulletsKeepHashTight` where the first character is kept. */
  lemma {:induction false} BulletsCharTight(s: string, atLineStart: bool)
    requires s != [] && HashTight(s) && !(atLineStart && BulletMatch(s) != 0)
    ensures HashTight(NumberBullets(s, atLineStart))
    decreases |s|, 0
  {
    var rest := NumberBullets(s[1..], IsLineTerminator(s[0]));
    NeighboursSuffix(s, 1, NoSpaceAfterHash);
    BulletsKeepHashTight(s[1..], IsLineTerminator(s[0]));
    if s[0] == '#' && |s| > 1 {
      assert NoSpaceAfterHash(s[0], s[1]);
      assert rest[0] == s[1];
    }
    NeighboursConcat([s[0]], rest, NoSpaceAfterHash);
    assert NumberBullets(s, atLineStart) == [s[0]] + rest;
  }

  /** Length of the match of `\s+[-*]\s+` at the start of `s`; 0 when there is none. */
  function IndentedBulletMatch(s: string): (n: nat)
    ensures n <= |s|
    ensures n != 0 ==> 3 <= n && IsSpace(s[0]) && IsSpace(s[n - 1])
    ensures n != 0 ==> SpaceRun(s) < n && IsMarker(s[SpaceRun(s)])
  {
    var w := SpaceRun(s);
    if w == 0 || w == |s| || !IsMarker(s[w]) then 0
    else
      var v := SpaceRun(s[w + 1..]);
      assert s[..w][0] == s[0];
      assert v != 0 ==> s[w + 1..][..v][v - 1] == s[w + v];
      if v == 0 then 0 else w + 1 + v
  }

  /** Line 10, `/^\s+[-*]\s+/gm` replaced by "   1. ". */
  function NumberIndentedBullets(s: string, atLineStart: bool): (r: string)
    ensures s != [] && !atLineStart ==> r != [] && r[0] == s[0]
    ensures NoMarkers(s) ==> r == s
    decreases |s|
  {
    if s == [] then []
    else
      var n := IndentedBulletMatch(s);
      if atLineStart && n != 0 then
        "   1. " + NumberIndentedBullets(s[n..], IsLineTerminator(s[n - 1]))
      else
        assert s == [s[0]] + s[1..];
        [s[0]] + NumberIndentedBullets(s[1..], IsLineTerminator(s[0]))
  }

  /** Numbering the indented bullets puts no white space after a `#`. */
  lemma {:induction false} IndentedBulletsKeepHashTight(s: string, atLineStart: bool)
    ensures HashTight(s) ==> HashTight(NumberIndentedBullets(s, atLineStart))
    decreases |s|, 1
  {
    if s != [] && HashTight(s) {
      if atLineStart && IndentedBulletMatch(s) != 0 {
        IndentedBulletsMarkerTight(s);
      } else {
        IndentedBulletsCharTight(s, atLineStart);
      }
    }
  }

  /** The indented bullet case of `IndentedBulletsKeepHashTight`. */
  lemma {:induction false} IndentedBulletsMarkerTight(s: string)
    requires s != [] && HashTight(s) && IndentedBulletMatch(s) != 0
    ensures HashTight(NumberIndentedBullets(s, true))
    decreases |s|, 0
  {
    var n := IndentedBulletMatch(s);
    var rest := NumberIndentedBullets(s[n..], IsLineTerminator(s[n - 1]));
    NeighboursSuffix(s, n, NoSpaceAfterHash);
    IndentedBulletsKeepHashTight(s[n..], IsLineTerminator(s[n - 1]));
    HashFree("   1. ");
    NeighboursConcat("   1. ", rest, NoSpaceAfterHash);
    assert NumberIndentedBullets(s, true) == "   1. " + rest;
  }

  /** The case of `IndentedBulletsKeepHashTight` where the first character is kept. */
  lemma {:induction false} IndentedBulletsCharTight(s: string, atLineStart: bool)
    requires s != [] && HashTight(s) && !(atLineStart && IndentedBulletMatch(s) != 0)
    ensures HashTight(NumberIndentedBullets(s, atLineStart))
    decreases |s|, 0
  {
    var rest := NumberIndentedBullets(s[1..], IsLineTerminator(s[0]));
    NeighboursSuffix(s, 1, NoSpaceAfterHash);
    IndentedBulletsKeepHashTight(s[1..], IsLineTerminator(s[0]));
    if s[0] == '#' && |s| > 1 {
      assert NoSpaceAfterHash(s[0], s[1]);
      assert rest[0] == s[1];
    }
    NeighboursConcat([s[0]], rest, NoSpaceAfterHash);
    assert NumberIndentedBullets(s, atLineStart) == [s[0]] + rest;
  }

  // ---------------------------------------------------------------- lines 12-13: spacing

  /** Line 12, `/\.(?=\S)/g` replaced by ". ": a space goes after every `.` that
      a non-space follows. Afterwards every `.` is followed by white space or ends the text. */
  function SpaceAfterDots(s: string): (r: string)
    ensures s != [] ==> r != [] && r[0] == s[0]
    ensures '.' !in s ==> r == s
    ensures DotsSpaced(r)
    decreases |s|
  {
    if s == [] then []
    else
      var rest := SpaceAfterDots(s[1..]);
      if s[0] == '.' && |s| > 1 && !IsSpace(s[1]) then
        NeighboursConcat(". ", rest, SpaceAfterDot);
        ". " + rest
      else
        NeighboursConcat([s[0]], rest, SpaceAfterDot);
        assert s == [s[0]] + s[1..];
        [s[0]] + rest
  }

  /** Spacing the dots puts no white space after a `#`. */
  lemma {:induction false} DotsKeepHashTight(s: string)
    ensures HashTight(s) ==> HashTight(SpaceAfterDots(s))
    decreases |s|
  {
    if s != [] {
      var rest := SpaceAfterDots(s[1..]);
      NeighboursSuffix(s, 1, NoSpaceAfterHash);
      DotsKeepHashTight(s[1..]);
      if s[0] == '.' && |s| > 1 && !IsSpace(s[1]) {
        NeighboursConcat(". ", rest, NoSpaceAfterHash);
      } else {
        NeighboursConcat([s[0]], rest, NoSpaceAfterHash);
      }
    }
  }

  /** Line 13, `/\s+/g` replaced by " ": every white-space run becomes one space.
      Afterwards the only white space is single plain spaces; a blank text becomes
      "" or " ", and only a blank text does. */
  function CollapseSpaces(s: string): (r: string)
    ensures PlainSpaces(r)
    ensures SingleSpaced(r)
    ensures s != [] ==> r != [] && r[0] == (if IsSpace(s[0]) then ' ' else s[0])
    ensures IsBlank(s) <==> r == "" || r == " "
    decreases |s|
  {
    if s == [] then []
    else if IsSpace(s[0]) then
      var w := SpaceRun(s);
      var rest := CollapseSpaces(s[w..]);
      assert w < |s| ==> s[w..][0] == s[w];
      assert w == |s| ==> s[..w] == s;
      NeighboursConcat(" ", rest, NotTwoSpaces);
      " " + rest
    else
      var rest := CollapseSpaces(s[1..]);
      NeighboursConcat([s[0]], rest, NotTwoSpaces);
      [s[0]] + rest
  }

  /** Collapsing white space keeps `#` without white space after it. */
  lemma {:induction false} CollapseKeepsHashTight(s: string)
    ensures HashTight(s) ==> HashTight(CollapseSpaces(s))
    decreases |s|
  {
    if s != [] {
      var k := if IsSpace(s[0]) then SpaceRun(s) else 1;
      var head := if IsSpace(s[0]) then " " else [s[0]];
      NeighboursSuffix(s, k, NoSpaceAfterHash);
      CollapseKeepsHashTight(s[k..]);
      NeighboursConcat(head, CollapseSpaces(s[k..]), NoSpaceAfterHash);
    }
  }

  /** Collapsing white space keeps every `.` followed by white space. */
  lemma {:induction false} CollapseKeepsDotsSpaced(s: string)
    ensures DotsSpaced(s) ==> DotsSpaced(CollapseSpaces(s))
    decreases |s|
  {
    if s != [] {
      var k := if IsSpace(s[0]) then SpaceRun(s) else 1;
      var head := if IsSpace(s[0]) then " " else [s[0]];
      NeighboursSuffix(s, k, SpaceAfterDot);
      CollapseKeepsDotsSpaced(s[k..]);
      NeighboursConcat(head, CollapseSpaces(s[k..]), SpaceAfterDot);
    }
  }

  // ---------------------------------------------------------------- lines 15-32: lines

  /** The `.map` callback: the trimmed line (both of its branches return it). */
  function TidyLine(line: string): (r: string)
    ensures r == "" <==> IsBlank(line)
  {
    var t := Trim(line);
    if t == "" then "" else t
  }

  function TidyLines(lines: seq<string>): (r: seq<string>)
    ensures |r| == |lines|
    ensures forall i | 0 <= i < |lines| :: r[i] == TidyLine(lines[i])
  {
    seq(|lines|, i requires 0 <= i < |lines| => TidyLine(lines[i]))
  }

  /** Line 32, `/\n{3,}/g` replaced by "\n\n". */
  function CapNewlines(s: string): (r: string)
    ensures '\n' !in s ==> r == s
    decreases |s|
  {
    if s == [] then []
    else
      var k := CharRun(s, '\n');
      if k >= 3 then "\n\n" + CapNewlines(s[k..])
      else
        assert s == [s[0]] + s[1..];
        [s[0]] + CapNewlines(s[1..])
  }

  /** Lines 15-32 applied to a text without line breaks: one line, so the
      steps reduce to a trim. */
  lemma {:induction false} ReassembleOneLine(s: string)
    ensures '\n' !in s ==> CapNewlines(Trim(Join(Keep(TidyLines(Split(s, '\n')), IsNonEmpty), "\n\n"))) == Trim(s)
  {
    if '\n' in s {
      return;
    }
    var t := Trim(s);
    var one: seq<string> := [t];
    var none: seq<string> := [];
    var kept := if t != "" then one else none;
    SplitNoSeparator(s, '\n');
    assert TidyLines([s]) == one;
    assert one[1..] == none;
    assert Keep(one, IsNonEmpty) == kept;
    assert Join(kept, "\n\n") == t;
    TrimTwice(s);
    TrimKeepsAbsent(s, '\n');
  }

  /** Trimming a trimmed text changes nothing. */
  lemma TrimTwice(s: string)
    ensures Trim(Trim(s)) == Trim(s)
  {
    TrimUnchanged(Trim(s));
  }

  /** A neighbour fact survives a trim, which keeps a contiguous slice. */
  lemma TrimKeepsNeighbours(s: string, ok: (char, char) -> bool)
    ensures Neighbours(s, ok) ==> Neighbours(Trim(s), ok)
  {
    var a, b := TrimSlice(s);
    NeighboursSlice(s, a, b, ok);
  }

  lemma TrimKeepsPlainSpaces(s: string)
    ensures PlainSpaces(s) ==> PlainSpaces(Trim(s)) && '\n' !in Trim(s)
  {
    var a, b := TrimSlice(s);
    var r := Trim(s);
    assert forall i | 0 <= i < |r| :: r[i] == s[a + i];
  }

  // ---------------------------------------------------------------- the whole chain

  /** Lines 2-13, the chain of replacements. Afterwards the only white space is
      single plain spaces, every `.` is followed by one or ends the text, no `#`
      is followed by one, and a blank text has become "" or " ". */
  function Replacements(text: string): (s: string)
    ensures PlainSpaces(s) && SingleSpaced(s)
    ensures DotsSpaced(s) && HashTight(s)
    ensures IsBlank(text) ==> s == "" || s == " "
  {
    var s4 := StripHeadings(StripCode(StripUnderscores(StripBold(text))));
    var s5 := NumberBullets(s4, true);
    var s6 := NumberIndentedBullets(s5, true);
    var s7 := SpaceAfterDots(s6);
    BulletsKeepHashTight(s4, true);
    IndentedBulletsKeepHashTight(s5, true);
    DotsKeepHashTight(s6);
    CollapseKeepsHashTight(s7);
    CollapseKeepsDotsSpaced(s7);
    BlankChain(text);
    CollapseSpaces(s7)
  }

  /** Lines 15-32: split into lines, trim them, drop the empty ones, join them
      with blank lines, trim, and shorten newline runs. On a text without line
      breaks all of this is one trim. */
  function Reassemble(s: string): (r: string)
    ensures '\n' !in s ==> r == Trim(s)
  {
    ReassembleOneLine(s);
    CapNewlines(Trim(Join(Keep(TidyLines(Split(s, '\n')), IsNonEmpty), "\n\n")))
  }

  /** `formatAIResponse`. Line 13 turns every line break into a space, so the
      output is a single line: no line break, only single plain spaces and none at
      either end, a space after each inner `.`, no `#` before a space, and "" for
      a blank input. */
  function FormatAIResponse(text: string): (r: string)
    ensures '\n' !in r
    ensures PlainSpaces(r) && SingleSpaced(r)
    ensures r != "" ==> r[0] != ' ' && r[|r| - 1] != ' '
    ensures DotsSpaced(r)
    ensures HashTight(r)
    ensures IsBlank(text) ==> r == ""
  {
    var s := Replacements(text);
    assert '\n' !in s;
    TrimKeepsPlainSpaces(s);
    TrimKeepsNeighbours(s, NotTwoSpaces);
    TrimKeepsNeighbours(s, SpaceAfterDot);
    TrimKeepsNeighbours(s, NoSpaceAfterHash);
    Reassemble(s)
  }

  /** A blank text passes untouched through every step up to line 12. */
  lemma BlankChain(text: string)
    ensures IsBlank(text) ==>
            var s7 := SpaceAfterDots(NumberIndentedBullets(NumberBullets(
              StripHeadings(StripCode(StripUnderscores(StripBold(text)))), true), true));
            s7 == text
  {
    if !IsBlank(text) {
      return;
    }
    assert '*' !in text && '_' !in text && '`' !in text && '#' !in text && '.' !in text;
    assert NoMarkers(text);
  }
}
