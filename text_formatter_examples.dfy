/** Worked examples of `formatAIResponse`, stated over whole families of words,
    and texts that a step leaves alone. */
module FormatterExamples {
  import opened JsString
  import opened TextFormatter

  // ---------------------------------------------------------------- texts a step leaves alone

  /** Away from line starts no bullet is numbered. */
  lemma {:induction false} BulletsAwayFromLineStarts(s: string)
    ensures (forall i | 0 <= i < |s| :: !IsLineTerminator(s[i])) ==>
      NumberBullets(s, false) == s && NumberIndentedBullets(s, false) == s
  {
    if s != [] {
      BulletsAwayFromLineStarts(s[1..]);
      assert s == [s[0]] + s[1..];
    }
  }

  /** A text whose dots are already spaced is left alone by line 12. */
  lemma {:induction false} DotsSpacedUnchanged(s: string)
    ensures DotsSpaced(s) ==> SpaceAfterDots(s) == s
  {
    if s != [] {
      NeighboursSuffix(s, 1, SpaceAfterDot);
      DotsSpacedUnchanged(s[1..]);
      assert s == [s[0]] + s[1..];
    }
  }

  /** A text of single plain spaces is left alone by line 13. */
  lemma {:induction false} CollapseUnchanged(s: string)
    ensures PlainSpaces(s) && SingleSpaced(s) ==> CollapseSpaces(s) == s
  {
    if s != [] && PlainSpaces(s) && SingleSpaced(s) {
      NeighboursSuffix(s, 1, NotTwoSpaces);
      CollapseUnchanged(s[1..]);
      if IsSpace(s[0]) {
        assert |s| > 1 ==> !IsSpace(s[1]);
        assert SpaceRun(s) == 1;
      }
      assert s == [s[0]] + s[1..];
    }
  }

  /** Line 13 copies a word without white space and goes on after it. */
  lemma {:induction false} CollapseWord(w: string, rest: string)
    requires forall i | 0 <= i < |w| :: !IsSpace(w[i])
    ensures CollapseSpaces(w + rest) == w + CollapseSpaces(rest)
  {
    if w == [] {
      assert w + rest == rest;
    } else {
      var s := w + rest;
      assert s[0] == w[0] && !IsSpace(s[0]);
      assert s[1..] == w[1..] + rest;
      CollapseWord(w[1..], rest);
      assert CollapseSpaces(s) == [w[0]] + (w[1..] + CollapseSpaces(rest));
      ConsAppend(w, CollapseSpaces(rest));
    }
  }

  /** A step of lines 4-6 copies a word without its delimiter and goes on after it. */
  lemma {:induction false} StripPairsWord(w: string, t: string, d: char, doubled: bool)
    requires d !in w
    ensures StripPairs(w + t, d, doubled) == w + StripPairs(t, d, doubled)
  {
    if w == [] {
      assert w + t == t;
    } else {
      var s := w + t;
      assert s[0] == w[0] && s[1..] == w[1..] + t;
      StripPairsWord(w[1..], t, d, doubled);
      assert StripPairs(s, d, doubled) == [w[0]] + (w[1..] + StripPairs(t, d, doubled));
      ConsAppend(w, StripPairs(t, d, doubled));
    }
  }

  /** Away from the start of the text, with no line break in it, no bullet is numbered. */
  lemma NoBulletsInLine(s: string)
    requires s != [] && BulletMatch(s) == 0 && IndentedBulletMatch(s) == 0
    requires forall i | 0 <= i < |s| :: !IsLineTerminator(s[i])
    ensures NumberBullets(s, true) == s && NumberIndentedBullets(s, true) == s
  {
    NoBulletInLine(s);
    NoIndentedBulletInLine(s);
  }

  lemma NoBulletInLine(s: string)
    requires s != [] && BulletMatch(s) == 0
    requires forall i | 0 <= i < |s| :: !IsLineTerminator(s[i])
    ensures NumberBullets(s, true) == s
  {
    var tail := s[1..];
    assert forall i | 0 <= i < |tail| :: !IsLineTerminator(tail[i]) by {
      forall i | 0 <= i < |tail| ensures !IsLineTerminator(tail[i]) {
        assert tail[i] == s[i + 1];
      }
    }
    BulletsAwayFromLineStarts(tail);
    assert !IsLineTerminator(s[0]);
    assert NumberBullets(s, true) == [s[0]] + NumberBullets(tail, false);
    assert s == [s[0]] + tail;
  }

  lemma NoIndentedBulletInLine(s: string)
    requires s != [] && IndentedBulletMatch(s) == 0
    requires forall i | 0 <= i < |s| :: !IsLineTerminator(s[i])
    ensures NumberIndentedBullets(s, true) == s
  {
    var tail := s[1..];
    assert forall i | 0 <= i < |tail| :: !IsLineTerminator(tail[i]) by {
      forall i | 0 <= i < |tail| ensures !IsLineTerminator(tail[i]) {
        assert tail[i] == s[i + 1];
      }
    }
    BulletsAwayFromLineStarts(tail);
    assert !IsLineTerminator(s[0]);
    assert NumberIndentedBullets(s, true) == [s[0]] + NumberIndentedBullets(tail, false);
    assert s == [s[0]] + tail;
  }

  /** When the replacements leave a text with no white space at either end,
      that text is the output. */
  lemma FormatOf(text: string, r: string)
    requires Replacements(text) == r
    requires r != [] && !IsSpace(r[0]) && !IsSpace(r[|r| - 1])
    ensures FormatAIResponse(text) == r
  {
    assert '\n' !in r;
    TrimUnchanged(r);
    calc {
      FormatAIResponse(text);
      Reassemble(r);
      Trim(r);
    }
  }

  /** The steps from line 7 on leave alone a one-line text of single plain
      spaces, with no heading mark, no bullet, no unspaced dot and no white space
      at either end. */
  lemma FormatFromHeadings(text: string, s: string)
    requires StripCode(StripUnderscores(StripBold(text))) == s
    requires s != [] && !IsSpace(s[0]) && !IsSpace(s[|s| - 1])
    requires '#' !in s && '.' !in s && BulletMatch(s) == 0 && IndentedBulletMatch(s) == 0
    requires PlainSpaces(s) && SingleSpaced(s)
    ensures FormatAIResponse(text) == s
  {
    assert forall i | 0 <= i < |s| :: !IsLineTerminator(s[i]);
    NoBulletsInLine(s);
    CollapseUnchanged(s);
    FormatOf(text, s);
  }

  /** A character that no step acts on. */
  predicate PlainChar(c: char) {
    !IsSpace(c) && c != '*' && c != '_' && c != '`' && c != '#' && c != '.' && c != '-'
  }

  /** A non-empty word of plain characters. */
  predicate PlainWord(w: string) {
    w != [] && forall i | 0 <= i < |w| :: PlainChar(w[i])
  }

  /** Plain words, alone or two with a space between, hold nothing a step acts on. */
  lemma PlainWords(w: string, v: string)
    requires PlainWord(w) && PlainWord(v)
    ensures PlainWord(w + v)
    ensures var t := w + " " + v;
      && '*' !in t && '_' !in t && '`' !in t && '#' !in t && '.' !in t
      && BulletMatch(t) == 0 && IndentedBulletMatch(t) == 0
      && PlainSpaces(t) && SingleSpaced(t)
      && !IsSpace(t[0]) && !IsSpace(t[|t| - 1])
  {
    var t := w + " " + v;
    assert forall i | 0 <= i < |w + v| :: (w + v)[i] == if i < |w| then w[i] else v[i - |w|];
    assert forall i | 0 <= i < |t| :: t[i] == if i < |w| then w[i] else if i == |w| then ' ' else v[i - |w| - 1];
    assert forall i | 0 <= i < |t| - 1 :: NotTwoSpaces(t[i], t[i + 1]);
  }

  lemma PlainWordAlone(w: string)
    requires PlainWord(w)
    ensures '*' !in w && '_' !in w && '`' !in w && '#' !in w && '.' !in w
    ensures BulletMatch(w) == 0 && IndentedBulletMatch(w) == 0
    ensures PlainSpaces(w) && SingleSpaced(w)
  {
  }

  /** The chain of lines 2-13 written out step by step. */
  lemma ReplacementsSteps(text: string, s3: string, s4: string, s5: string, s6: string, s7: string, r: string)
    requires StripCode(StripUnderscores(StripBold(text))) == s3
    requires StripHeadings(s3) == s4
    requires NumberBullets(s4, true) == s5
    requires NumberIndentedBullets(s5, true) == s6
    requires SpaceAfterDots(s6) == s7
    requires CollapseSpaces(s7) == r
    ensures Replacements(text) == r
  {
  }

  /** A plain word holds no line break and starts with no white space and no `#`. */
  lemma PlainNoLineBreak(w: string)
    requires PlainWord(w)
    ensures forall i | 0 <= i < |w| :: !IsLineTerminator(w[i])
    ensures SpaceRun(w) == 0 && CharRun(w, '#') == 0
  {
  }

  /** An opening or closing delimiter run: one `d`, or two where `doubled`. */
  predicate Delimiters(x: string, d: char, doubled: bool) {
    x == [d] || (doubled && x == [d, d])
  }

  /** A word without `d` between delimiter runs is a match of lines 4-6, as long
      as no further `d` could extend the closing run. */
  lemma PairMatchWrapped(o: string, w: string, c: string, t: string, d: char, doubled: bool)
    requires Delimiters(o, d, doubled) && Delimiters(c, d, doubled)
    requires w != [] && d !in w
    requires c == [d] && doubled ==> t == [] || t[0] != d
    ensures PairMatch(o + w + c + t, d, doubled) == |o| + |w| + |c|
  {
    var s := o + w + c + t;
    var open := |o|;
    var close := open + |w|;
    Slices(o, w, c + t);
    assert s == o + w + (c + t);
    assert s[0] == d && |s| >= 3;
    assert s[1] == if open == 2 then d else w[0];
    assert PairMatch(s, d, doubled) == PairClose(s, open, d, doubled);
    PairCloseAt(s, open, close, d, doubled);
    assert s[close] == d;
    assert close + 1 < |s| ==> s[close + 1] == (c + t)[1];
  }

  /** The three parts of a concatenation, sliced back out. */
  lemma Slices(o: string, w: string, t: string)
    ensures var s := o + w + t;
      s[..|o|] == o && s[|o|..|o| + |w|] == w && s[|o| + |w|..] == t
  {
    var s := o + w + t;
    var r := w + t;
    assert s == o + r;
    assert s[..|o|] == o && s[|o|..] == r;
    assert r[..|w|] == w && r[|w|..] == t;
    assert s[|o|..|o| + |w|] == r[..|w|];
    assert s[|o| + |w|..] == r[|w|..];
  }

  /** Where the first `d` after the opening run lies, the match of lines 4-6 closes. */
  lemma PairCloseAt(s: string, open: nat, close: nat, d: char, doubled: bool)
    requires open < close < |s| && s[close] == d && d !in s[open..close]
    ensures PairClose(s, open, d, doubled) ==
      if doubled && close + 1 < |s| && s[close + 1] == d then close + 2 else close + 1
  {
    var x := s[open..];
    var i := IndexOf(x, d);
    assert x[close - open] == d;
    assert x[..close - open] == s[open..close];
    assert forall j | 0 <= j < close - open :: x[j] == s[open..close][j];
  }

  lemma RemoveAllWrapped(o: string, w: string, c: string, d: char, doubled: bool)
    requires Delimiters(o, d, doubled) && Delimiters(c, d, doubled)
    requires d !in w
    ensures RemoveAll(o + w + c, d) == w
  {
    RemoveAllAppend(o + w, c, d);
    RemoveAllAppend(o, w, d);
    RemoveAllAbsent(w, d);
    assert RemoveAll(o, d) == [] && RemoveAll(c, d) == [];
  }

  /** Lines 4-6 on a wrapped word: the delimiters go, the word stays, and the scan
      goes on after the closing run. */
  lemma StripWrapped(o: string, w: string, c: string, t: string, d: char, doubled: bool)
    requires Delimiters(o, d, doubled) && Delimiters(c, d, doubled)
    requires w != [] && d !in w
    requires c == [d] && doubled ==> t == [] || t[0] != d
    ensures StripPairs(o + w + c + t, d, doubled) == w + StripPairs(t, d, doubled)
  {
    var s := o + w + c + t;
    var n := |o| + |w| + |c|;
    PairMatchWrapped(o, w, c, t, d, doubled);
    RemoveAllWrapped(o, w, c, d, doubled);
    assert s[..n] == o + w + c && s[n..] == t;
    assert StripPairs(s, d, doubled) == RemoveAll(s[..n], d) + StripPairs(s[n..], d, doubled);
  }

  /** A delimiter directly followed by another opens no match when a single
      delimiter is the pattern, nor when a third follows a doubled one. */
  lemma NoPairAtRepeat(x: string, d: char, doubled: bool)
    requires |x| >= 3 && x[0] == d && x[1] == d
    requires doubled ==> x[2] == d
    ensures StripPairs(x, d, doubled) == [d] + StripPairs(x[1..], d, doubled)
  {
    assert PairMatch(x, d, doubled) == 0 by {
      if doubled {
        assert x[2..][0] == d;
      } else {
        assert x[1..][0] == d;
      }
    }
  }

  // ---------------------------------------------------------------- examples

  /** "- " followed by a plain word is one bullet. */
  lemma DashBulletNumbered(w: string)
    requires PlainWord(w)
    ensures NumberBullets("- " + w, true) == "1. " + w
  {
    var s := "- " + w;
    PlainNoLineBreak(w);
    var sp := " " + w;
    assert sp[1..] == w;
    assert SpaceRun(sp) == 1;
    assert s[1..] == sp;
    assert BulletMatch(s) == 2;
    assert s[2..] == w;
    BulletsAwayFromLineStarts(w);
    assert NumberBullets(s, true) == "1. " + NumberBullets(w, false);
  }

  /** "1. " followed by a plain word is left alone by lines 10-13. */
  lemma NumberedWordSettled(w: string)
    requires PlainWord(w)
    ensures var r := "1. " + w;
      && NumberIndentedBullets(r, true) == r
      && SpaceAfterDots(r) == r
      && CollapseSpaces(r) == r
      && r != [] && !IsSpace(r[0]) && !IsSpace(r[|r| - 1])
  {
    var r := "1. " + w;
    NumberedWordShape(w);
    assert SpaceRun(r) == 0;
    assert IndentedBulletMatch(r) == 0;
    NoIndentedBulletInLine(r);
    DotsSpacedUnchanged(r);
    CollapseUnchanged(r);
  }

  lemma NumberedWordShape(w: string)
    requires PlainWord(w)
    ensures var r := "1. " + w;
      && (forall i | 0 <= i < |r| :: !IsLineTerminator(r[i]))
      && DotsSpaced(r) && PlainSpaces(r) && SingleSpaced(r)
      && !IsSpace(r[0]) && !IsSpace(r[|r| - 1])
  {
    var r := "1. " + w;
    assert forall i | 0 <= i < |r| :: r[i] == if i < 3 then "1. "[i] else w[i - 3];
    assert forall i | 0 <= i < |r| - 1 :: NotTwoSpaces(r[i], r[i + 1]);
    assert forall i | 0 <= i < |r| - 1 :: SpaceAfterDot(r[i], r[i + 1]);
  }

  /** A dash bullet is numbered: "- item" becomes "1. item". */
  lemma BulletExample(w: string)
    requires PlainWord(w)
    ensures FormatAIResponse("- " + w) == "1. " + w
  {
    var s := "- " + w;
    var r := "1. " + w;
    PlainWordAlone(w);
    assert '*' !in s && '_' !in s && '`' !in s && '#' !in s;
    DashBulletNumbered(w);
    NumberedWordSettled(w);
    ReplacementsSteps(s, s, s, r, r, r, r);
    FormatOf(s, r);
  }

  /** A bold pair around a plain word loses its marks. */
  lemma BoldPairStripped(w: string, v: string)
    requires PlainWord(w) && PlainWord(v)
    ensures StripBold("**" + w + "** " + v) == w + " " + v
  {
    PlainWordAlone(w);
    PlainWordAlone(v);
    var t := " " + v;
    assert "**" + w + "** " + v == "**" + w + "**" + t;
    StripWrapped("**", w, "**", t, '*', true);
    assert '*' !in t;
  }

  /** Bold marks go: "**bold** text" becomes "bold text". */
  lemma BoldExample(w: string, v: string)
    requires PlainWord(w) && PlainWord(v)
    ensures FormatAIResponse("**" + w + "** " + v) == w + " " + v
  {
    BoldPairStripped(w, v);
    PlainWords(w, v);
    FormatFromHeadings("**" + w + "** " + v, w + " " + v);
  }

  /** "## " opens a heading mark three characters long. */
  lemma HeadingMarkLength(x: string)
    requires x != [] && !IsSpace(x[0])
    ensures HeadingMatch("## " + x) == 3
  {
    var s := "## " + x;
    var s1 := "# " + x;
    var s2 := " " + x;
    assert s[1..] == s1 && s1[1..] == s2 && s2[1..] == x;
    assert CharRun(s2, '#') == 0;
    assert CharRun(s1, '#') == 1;
    assert CharRun(s, '#') == 2;
    assert SpaceRun(x) == 0;
    assert SpaceRun(s2) == 1;
    assert s[2..] == s2;
  }

  /** The heading mark is deleted and the rest, without `#`, is kept. */
  lemma HeadingStripped(w: string, v: string)
    requires PlainWord(w) && PlainWord(v)
    ensures StripHeadings("## " + w + "\n" + v) == w + "\n" + v
  {
    var t := w + "\n" + v;
    var s := "## " + t;
    assert "## " + w + "\n" + v == s;
    PlainWordAlone(w);
    PlainWordAlone(v);
    assert t[0] == w[0];
    HeadingMarkLength(t);
    assert s[3..] == t;
    assert '#' !in t;
    assert StripHeadings(s) == StripHeadings(s[3..]);
  }

  /** Line 13 turns the line break between two plain words into a space. */
  lemma LineBreakCollapsed(w: string, v: string)
    requires PlainWord(w) && PlainWord(v)
    ensures CollapseSpaces(w + "\n" + v) == w + " " + v
  {
    var nv := "\n" + v;
    assert w + "\n" + v == w + nv;
    CollapseWord(w, nv);
    assert nv[1..] == v;
    assert SpaceRun(v) == 0;
    assert SpaceRun(nv) == 1;
    assert v + [] == v;
    CollapseWord(v, []);
    assert CollapseSpaces(nv) == " " + CollapseSpaces(v);
  }

  /** Heading marks go and the line break becomes a space: "## Title\nBody"
      becomes "Title Body". */
  lemma HeadingExample(w: string, v: string)
    requires PlainWord(w) && PlainWord(v)
    ensures FormatAIResponse("## " + w + "\n" + v) == w + " " + v
  {
    var s := "## " + w + "\n" + v;
    var t := w + "\n" + v;
    var r := w + " " + v;
    PlainWordAlone(w);
    PlainWordAlone(v);
    PlainWords(w, v);
    assert '*' !in s && '_' !in s && '`' !in s;
    HeadingStripped(w, v);
    assert NoMarkers(t) && '.' !in t;
    LineBreakCollapsed(w, v);
    ReplacementsSteps(s, s, t, t, t, t, r);
    FormatOf(s, r);
  }

  /** "``a`b`": the first backtick opens no code span (it is followed by
      another); the second one closes at the third. */
  lemma CodeOnce(a: string, b: string)
    requires PlainWord(a) && PlainWord(b)
    ensures StripCode("``" + a + "`" + b + "`") == "`" + a + b + "`"
  {
    PlainWordAlone(a);
    PlainWordAlone(b);
    var s := "``" + a + "`" + b + "`";
    var t := b + "`";
    var u := "`" + a + "`" + t;
    assert s == "`" + u && s[1..] == u;
    var single := "`";
    calc {
      StripPairs(s, '`', false);
      { NoPairAtRepeat(s, '`', false); }
      single + StripPairs(u, '`', false);
      { StripWrapped("`", a, single, t, '`', false); }
      single + (a + StripPairs(t, '`', false));
      { StripPairsWord(b, single, '`', false); }
      single + (a + (b + StripPairs(single, '`', false)));
      { assert StripPairs(single, '`', false) == single; }
      single + (a + (b + single));
    }
    assert single + (a + (b + single)) == "`" + a + b + "`";
  }

  /** "`w`" is one code span. */
  lemma CodeSpan(w: string)
    requires PlainWord(w)
    ensures StripCode("`" + w + "`") == w
  {
    PlainWordAlone(w);
    assert "`" + w + "`" == "`" + w + "`" + [];
    StripWrapped("`", w, "`", [], '`', false);
  }

  /** A plain word between two copies of a character `c` that no step from line 7
      on acts on is settled. */
  lemma WrappedWordSettled(c: char, w: string)
    requires c == '`' || c == '*'
    requires PlainWord(w)
    ensures var once := [c] + w + [c];
      && '#' !in once && '.' !in once
      && BulletMatch(once) == 0 && IndentedBulletMatch(once) == 0
      && PlainSpaces(once) && SingleSpaced(once)
      && !IsSpace(once[0]) && !IsSpace(once[|once| - 1])
  {
    var once := [c] + w + [c];
    assert forall i | 0 <= i < |once| :: once[i] == if i == 0 || i == |once| - 1 then c else w[i - 1];
    assert forall i | 0 <= i < |once| - 1 :: NotTwoSpaces(once[i], once[i + 1]);
    assert SpaceRun(once[1..]) == 0 && SpaceRun(once) == 0;
  }

  /** The normaliser is not idempotent: on "``a`b`" a second pass strips more. */
  lemma NotIdempotentCode(a: string, b: string)
    requires PlainWord(a) && PlainWord(b)
    ensures FormatAIResponse("``" + a + "`" + b + "`") == "`" + a + b + "`"
    ensures FormatAIResponse("`" + a + b + "`") == a + b
  {
    var s := "``" + a + "`" + b + "`";
    var w := a + b;
    var once := "`" + w + "`";
    assert "`" + a + b + "`" == once;
    PlainWords(a, b);
    PlainWordAlone(w);
    PlainWordAlone(a);
    PlainWordAlone(b);
    assert '*' !in s && '_' !in s;
    CodeOnce(a, b);
    WrappedWordSettled('`', w);
    assert ['`'] + w + ['`'] == once;
    FormatFromHeadings(s, once);
    assert '*' !in once && '_' !in once;
    CodeSpan(w);
    FormatFromHeadings(once, w);
  }

  /** "***a*b*": the first `*` opens no pair; "**a*" is one and "*" is left. */
  lemma BoldOnce(a: string, b: string)
    requires PlainWord(a) && PlainWord(b)
    ensures StripBold("***" + a + "*" + b + "*") == "*" + a + b + "*"
  {
    PlainWordAlone(a);
    PlainWordAlone(b);
    var s := "***" + a + "*" + b + "*";
    var t := b + "*";
    var u := "**" + a + "*" + t;
    assert s == "*" + u && s[1..] == u;
    var single := "*";
    calc {
      StripPairs(s, '*', true);
      { NoPairAtRepeat(s, '*', true); }
      single + StripPairs(u, '*', true);
      { StripWrapped("**", a, single, t, '*', true); }
      single + (a + StripPairs(t, '*', true));
      { StripPairsWord(b, single, '*', true); }
      single + (a + (b + StripPairs(single, '*', true)));
      { assert StripPairs(single, '*', true) == single; }
      single + (a + (b + single));
    }
    assert single + (a + (b + single)) == "*" + a + b + "*";
  }

  /** "*w*" is one emphasis pair. */
  lemma EmphasisSpan(w: string)
    requires PlainWord(w)
    ensures StripBold("*" + w + "*") == w
  {
    PlainWordAlone(w);
    assert "*" + w + "*" == "*" + w + "*" + [];
    StripWrapped("*", w, "*", [], '*', true);
  }

  /** The same with emphasis: "***a*b*" gives "*ab*", and that gives "ab". */
  lemma NotIdempotentBold(a: string, b: string)
    requires PlainWord(a) && PlainWord(b)
    ensures FormatAIResponse("***" + a + "*" + b + "*") == "*" + a + b + "*"
    ensures FormatAIResponse("*" + a + b + "*") == a + b
  {
    var s := "***" + a + "*" + b + "*";
    var w := a + b;
    var once := "*" + w + "*";
    assert "*" + a + b + "*" == once;
    PlainWords(a, b);
    PlainWordAlone(w);
    BoldOnce(a, b);
    WrappedWordSettled('*', w);
    assert ['*'] + w + ['*'] == once;
    assert '_' !in once && '`' !in once;
    FormatFromHeadings(s, once);
    EmphasisSpan(w);
    FormatFromHeadings(once, w);
  }
}
