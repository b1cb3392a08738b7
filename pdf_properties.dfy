/** What the layout of `generatePDF` promises: where the body is drawn, that only
    single words overflow the page width, that wrapping loses, repeats and reorders
    no word, and how the page break as written relates to the one intended. */
module PdfProperties {
  import opened Wrappers
  import opened JsString
  import opened JsArray
  import opened PdfGenerator

  // ---------------------------------------------------------------- placement of the body

  /** A text that can overflow the page only because it is a single word. */
  predicate Fits(text: string, lay: Layout) {
    ' ' !in text || !TooWide(text, lay)
  }

  /** Where a body draw goes: at the left margin, at or above the bottom margin when
      it has text and the page is tall enough, and not too wide unless it is one word. */
  predicate WellPlaced(d: Draw, lay: Layout) {
    && d.x == Margin
    && (Margin <= lay.top && d.text != "" ==> Margin <= d.y)
    && Fits(d.text, lay)
  }

  /** `b` is `a` followed by well-placed draws. */
  predicate Extends(a: seq<Draw>, b: seq<Draw>, lay: Layout) {
    && |a| <= |b| && b[..|a|] == a
    && forall k | |a| <= k < |b| :: WellPlaced(b[k], lay)
  }

  lemma ExtendsTrans(a: seq<Draw>, b: seq<Draw>, c: seq<Draw>, lay: Layout)
    requires Extends(a, b, lay) && Extends(b, c, lay)
    ensures Extends(a, c, lay)
  {
    assert c[..|a|] == c[..|b|][..|a|];
  }

  lemma ExtendsOne(a: seq<Draw>, d: Draw, lay: Layout)
    requires WellPlaced(d, lay)
    ensures Extends(a, a + [d], lay)
  {
    assert (a + [d])[..|a|] == a;
  }

  /** What holds of the word loop's state between two words: the pending line fits
      (or is one word), and when it has text the cursor is at or above the bottom
      margin, since the page-break check has run since the line was started. */
  predicate Pending(pl: Place, lay: Layout) {
    && Fits(pl.line, lay)
    && (Margin <= lay.top && pl.line != "" ==> Margin <= pl.pen.y)
  }

  /** A turn of the word loop draws nothing or the pending line. */
  lemma PlaceWordDraws(pl: Place, word: string, lay: Layout)
    ensures var r := PlaceWord(pl, word, lay);
      r.Ok? ==>
        var test := TestLine(pl.line, word);
        && (TooWide(test, lay) ==>
              r.value.line == word && r.value.pen.log == DrawAt(pl.pen, pl.line).log)
        && (!TooWide(test, lay) ==> r.value.line == test && r.value.pen.log == pl.pen.log)
  {
  }

  /** A turn of the word loop keeps `Pending` and draws only well-placed text. */
  lemma PlaceWordPlaces(pl: Place, word: string, lay: Layout)
    requires ' ' !in word && Pending(pl, lay)
    ensures var r := PlaceWord(pl, word, lay);
      r.Ok? ==> Pending(r.value, lay) && Extends(pl.pen.log, r.value.pen.log, lay)
  {
    var r := PlaceWord(pl, word, lay);
    if r.Ok? {
      PlaceWordDraws(pl, word, lay);
      if TooWide(TestLine(pl.line, word), lay) {
        ExtendsOne(pl.pen.log, Draw(pl.pen.page, Margin, pl.pen.y, pl.line), lay);
      } else {
        assert pl.pen.log[..|pl.pen.log|] == pl.pen.log;
      }
    }
  }

  lemma {:induction false} PlaceWordsPlaces(pl: Place, words: seq<string>, lay: Layout)
    requires forall i | 0 <= i < |words| :: ' ' !in words[i]
    requires Pending(pl, lay)
    ensures var r := PlaceWords(pl, words, lay);
      r.Ok? ==> Pending(r.value, lay) && Extends(pl.pen.log, r.value.pen.log, lay)
    decreases |words|
  {
    if words == [] {
      assert pl.pen.log[..|pl.pen.log|] == pl.pen.log;
    } else {
      var first := PlaceWord(pl, words[0], lay);
      if first.Ok? {
        PlaceWordPlaces(pl, words[0], lay);
        assert forall i | 0 <= i < |words[1..]| :: words[1..][i] == words[i + 1];
        PlaceWordsPlaces(first.value, words[1..], lay);
        var r := PlaceWords(first.value, words[1..], lay);
        if r.Ok? {
          ExtendsTrans(pl.pen.log, first.value.pen.log, r.value.pen.log, lay);
        }
      }
    }
  }

  /** A body line only appends well-placed draws. */
  lemma PlaceLinePlaces(p: Pen, line: string, lay: Layout)
    ensures var r := PlaceLine(p, line, lay);
      r.Ok? ==> Extends(p.log, r.value.log, lay)
  {
    var r := PlaceLine(p, line, lay);
    assert p.log[..|p.log|] == p.log;
    if r.Ok? && Trim(line) != "" {
      var words := Split(line, ' ');
      var start := Place(p, "");
      PlaceWordsPlaces(start, words, lay);
      var pl := PlaceWords(start, words, lay).value;
      if pl.line != "" {
        ExtendsOne(pl.pen.log, Draw(pl.pen.page, Margin, pl.pen.y, pl.line), lay);
        ExtendsTrans(p.log, pl.pen.log, r.value.log, lay);
      }
    }
  }

  lemma {:induction false} PlaceLinesPlaces(p: Pen, lines: seq<string>, lay: Layout)
    ensures var r := PlaceLines(p, lines, lay);
      r.Ok? ==> Extends(p.log, r.value.log, lay)
    decreases |lines|
  {
    if lines == [] {
      assert p.log[..|p.log|] == p.log;
    } else {
      var first := PlaceLine(p, lines[0], lay);
      if first.Ok? {
        PlaceLinePlaces(p, lines[0], lay);
        PlaceLinesPlaces(first.value, lines[1..], lay);
        var r := PlaceLines(first.value, lines[1..], lay);
        if r.Ok? {
          ExtendsTrans(p.log, first.value.log, r.value.log, lay);
        }
      }
    }
  }

  /** The whole document: the header lines first, when they are drawn, at the
      top of the first page; after them only body draws, all at the left margin,
      none with text below the bottom margin on a page at least 100 points high,
      and none wider than `width - 100` unless it is a single word. */
  lemma DocumentLayout(content: string, details: Option<SchoolDetails>, options: PdfOptions,
                       width: real, height: real, measure: Measure, constPage: bool)
    ensures var r := GenerateDocument(content, details, options, width, height, measure, constPage);
      r.Ok? ==>
        var font := FontFor(options.fontFamily).value;
        var lay := LayoutFor(font, options, width, height, measure, constPage);
        var h := if DrawsHeader(details, options) then 4 else 0;
        && h <= |r.value.draws|
        && r.value.draws[..h] == BodyStart(details, options, lay).log
        && forall k | h <= k < |r.value.draws| ::
             var d := r.value.draws[k];
             && d.x == Margin
             && (100.0 <= height && d.text != "" ==> Margin <= d.y)
             && (' ' !in d.text || measure(font, d.text, options.fontSize) <= width - 100.0)
  {
    var r := GenerateDocument(content, details, options, width, height, measure, constPage);
    if r.Ok? {
      var font := FontFor(options.fontFamily).value;
      var lay := LayoutFor(font, options, width, height, measure, constPage);
      var start := BodyStart(details, options, lay);
      PlaceLinesPlaces(start, Split(content, '\n'), lay);
    }
  }

  // ---------------------------------------------------------------- no word lost

  /** The non-empty pieces of `s.split(" ")`. */
  function Words(s: string): seq<string> {
    Keep(Split(s, ' '), IsNonEmpty)
  }

  /** The words of the drawn texts, in drawing order. */
  function WordsIn(ds: seq<Draw>): seq<string> {
    if ds == [] then [] else WordsIn(ds[..|ds| - 1]) + Words(ds[|ds| - 1].text)
  }

  lemma WordsInAppend(ds: seq<Draw>, d: Draw)
    ensures WordsIn(ds + [d]) == WordsIn(ds) + Words(d.text)
  {
    assert (ds + [d])[..|ds|] == ds;
  }

  /** A single word is its own list of words, or none when empty. */
  lemma WordsOfWord(word: string)
    requires ' ' !in word
    ensures Words(word) == if word == "" then [] else [word]
  {
    SplitNoSeparator(word, ' ');
  }

  /** The words of `currentLine` with a word added are its words and that word's. */
  lemma WordsOfTestLine(line: string, word: string)
    requires ' ' !in word
    ensures Words(TestLine(line, word)) == Words(line) + Words(word)
  {
    if line == "" {
      assert Split(line, ' ') == [""];
    } else {
      assert line + " " + word == line + [' '] + word;
      SplitConcat(line, word, ' ');
      KeepAppend(Split(line, ' '), Split(word, ' '), IsNonEmpty);
    }
  }

  /** From state `a` to state `b` the log only grew, and the words drawn since
      `base` or pending in `b` are those of `a` followed by `ws`. */
  predicate MovesWords(a: Place, b: Place, base: nat, ws: seq<string>) {
    && base <= |a.pen.log| <= |b.pen.log| && b.pen.log[..|a.pen.log|] == a.pen.log
    && WordsIn(b.pen.log[base..]) + Words(b.line) == WordsIn(a.pen.log[base..]) + Words(a.line) + ws
  }

  /** A turn of the word loop moves the word into the drawn or pending text. */
  lemma PlaceWordKeepsWords(pl: Place, word: string, lay: Layout, base: nat)
    requires ' ' !in word && base <= |pl.pen.log|
    ensures var r := PlaceWord(pl, word, lay);
      r.Ok? ==> MovesWords(pl, r.value, base, Words(word))
  {
    var r := PlaceWord(pl, word, lay);
    if r.Ok? {
      PlaceWordDraws(pl, word, lay);
      var log := pl.pen.log;
      if TooWide(TestLine(pl.line, word), lay) {
        DrawnWords(log, base, Draw(pl.pen.page, Margin, pl.pen.y, pl.line), word);
      } else {
        assert log[..|log|] == log;
        PendingWords(WordsIn(log[base..]), pl.line, word);
      }
    }
  }

  /** Drawing the pending line moves its words from pending to drawn. */
  lemma DrawnWords(log: seq<Draw>, base: nat, d: Draw, word: string)
    requires base <= |log|
    ensures (log + [d])[..|log|] == log
    ensures WordsIn((log + [d])[base..]) + Words(word) == WordsIn(log[base..]) + Words(d.text) + Words(word)
  {
    assert (log + [d])[base..] == log[base..] + [d];
    WordsInAppend(log[base..], d);
  }

  /** Adding the word to the pending line adds it to the pending words. */
  lemma PendingWords(drawn: seq<string>, line: string, word: string)
    requires ' ' !in word
    ensures drawn + Words(TestLine(line, word)) == drawn + Words(line) + Words(word)
  {
    WordsOfTestLine(line, word);
  }

  /** The word loop moves every non-empty word, in order, into the drawn or pending text. */
  lemma {:induction false} PlaceWordsKeepsWords(pl: Place, words: seq<string>, lay: Layout, base: nat)
    requires forall i | 0 <= i < |words| :: ' ' !in words[i]
    requires base <= |pl.pen.log|
    ensures var r := PlaceWords(pl, words, lay);
      r.Ok? ==> MovesWords(pl, r.value, base, Keep(words, IsNonEmpty))
    decreases |words|
  {
    if words == [] {
      assert pl.pen.log[..|pl.pen.log|] == pl.pen.log;
    } else {
      var first := PlaceWord(pl, words[0], lay);
      if first.Ok? {
        var next := first.value;
        var rest := words[1..];
        assert PlaceWords(pl, words, lay) == PlaceWords(next, rest, lay);
        PlaceWordKeepsWords(pl, words[0], lay, base);
        assert forall i | 0 <= i < |rest| :: rest[i] == words[i + 1];
        PlaceWordsKeepsWords(next, rest, lay, base);
        var r := PlaceWords(next, rest, lay);
        if r.Ok? {
          assert words == [words[0]] + rest;
          KeepsWordsStep(pl, next, r.value, base, words[0], rest);
        }
      }
    }
  }

  /** The bookkeeping of one turn of `PlaceWordsKeepsWords`. */
  lemma KeepsWordsStep(a: Place, b: Place, c: Place, base: nat, w: string, rest: seq<string>)
    requires ' ' !in w
    requires MovesWords(a, b, base, Words(w)) && MovesWords(b, c, base, Keep(rest, IsNonEmpty))
    ensures MovesWords(a, c, base, Keep([w] + rest, IsNonEmpty))
  {
    PrefixTrans(a.pen.log, b.pen.log, c.pen.log);
    WordsOfWord(w);
    KeepAppend([w], rest, IsNonEmpty);
    ChainWords(WordsIn(c.pen.log[base..]) + Words(c.line), WordsIn(b.pen.log[base..]) + Words(b.line),
               WordsIn(a.pen.log[base..]) + Words(a.line), Words(w), Keep(rest, IsNonEmpty));
  }

  /** A prefix of a prefix is a prefix. */
  lemma PrefixTrans<T>(a: seq<T>, b: seq<T>, c: seq<T>)
    requires |a| <= |b| <= |c| && b[..|a|] == a && c[..|b|] == b
    ensures c[..|a|] == a
  {
    assert c[..|a|] == c[..|b|][..|a|];
  }

  /** Two appends in a row are one append of both. */
  lemma ChainWords<T>(x: seq<T>, y: seq<T>, z: seq<T>, u: seq<T>, v: seq<T>)
    requires y == z + u && x == y + v
    ensures x == z + (u + v)
  {
  }

  /** Wrapping a body line loses, repeats and reorders no word: the words of its
      draws, in drawing order, are the words of the line. */
  lemma LineWordsKept(p: Pen, line: string, lay: Layout)
    requires Trim(line) != ""
    ensures var r := PlaceLine(p, line, lay);
      r.Ok? ==> |p.log| <= |r.value.log| && WordsIn(r.value.log[|p.log|..]) == Words(line)
  {
    var r := PlaceLine(p, line, lay);
    if r.Ok? {
      var base := |p.log|;
      var start := Place(p, "");
      var words := Split(line, ' ');
      PlaceWordsKeepsWords(start, words, lay, base);
      var pl := PlaceWords(start, words, lay).value;
      var kept := Keep(words, IsNonEmpty);
      assert WordsIn(p.log[base..]) + Words("") + kept == kept by {
        assert p.log[base..] == [];
        assert Split("", ' ') == [""];
      }
      FlushWords(pl.pen.log, base, Draw(pl.pen.page, Margin, pl.pen.y, pl.line), r.value.log, kept);
    }
  }

  /** Drawing what is left in `currentLine`, if anything, makes its words drawn ones. */
  lemma FlushWords(log: seq<Draw>, base: nat, d: Draw, out: seq<Draw>, ws: seq<string>)
    requires base <= |log|
    requires WordsIn(log[base..]) + Words(d.text) == ws
    requires out == if d.text != "" then log + [d] else log
    ensures base <= |out| && WordsIn(out[base..]) == ws
  {
    if d.text != "" {
      assert out[base..] == log[base..] + [d];
      WordsInAppend(log[base..], d);
    } else {
      assert Split("", ' ') == [""];
      assert WordsIn(log[base..]) + [] == WordsIn(log[base..]);
    }
  }

  // ---------------------------------------------------------------- an overlong first word

  /** A word wider than the page when nothing is pending: the empty `currentLine`
      is drawn, the cursor moves down, and the word is pending on its own. */
  lemma OverlongWordDrawsEmptyLine(pl: Place, word: string, lay: Layout)
    requires pl.line == "" && TooWide(word, lay)
    ensures var r := PlaceWord(pl, word, lay);
      r.Ok? ==>
        && r.value.line == word
        && r.value.pen.log == pl.pen.log + [Draw(pl.pen.page, Margin, pl.pen.y, "")]
        && (r.value.pen.page == pl.pen.page ==> r.value.pen.y == pl.pen.y - lay.lineHeight)
  {
    PlaceWordDraws(pl, word, lay);
  }

  /** Hence the first draw of a body line whose first word is too wide is "" at
      the cursor where the line starts. */
  lemma OverlongFirstWord(p: Pen, line: string, lay: Layout)
    requires Trim(line) != "" && TooWide(Split(line, ' ')[0], lay)
    ensures var r := PlaceLine(p, line, lay);
      r.Ok? ==> |p.log| < |r.value.log| && r.value.log[|p.log|] == Draw(p.page, Margin, p.y, "")
  {
    var r := PlaceLine(p, line, lay);
    var words := Split(line, ' ');
    var start := Place(p, "");
    var first := PlaceWord(start, words[0], lay);
    if r.Ok? {
      OverlongWordDrawsEmptyLine(start, words[0], lay);
      var next := first.value;
      assert next.pen.log == p.log + [Draw(p.page, Margin, p.y, "")];
      PlaceWordsKeepsWords(next, words[1..], lay, 0);
      var pl := PlaceWords(next, words[1..], lay).value;
      assert pl.pen.log[..|next.pen.log|] == next.pen.log;
      assert pl.pen.log[|p.log|] == next.pen.log[|p.log|];
      if pl.line != "" {
        assert r.value.log == pl.pen.log + [Draw(pl.pen.page, Margin, pl.pen.y, pl.line)];
      }
    }
  }
}
