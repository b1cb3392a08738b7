/** The page break as written against the page break as intended. Line 102
    assigns to `page`, which line 23 declares `const`: the assignment throws a
    TypeError, so a document that needs a second page is never produced. A layout
    with `constPage` false is the intended `generatePDF`, one with `constPage` true
    the one written: they agree exactly as long as the text fits on one page. */
module PdfPageBreak {
  import opened Wrappers
  import opened JsString
  import opened PdfGenerator

  /** The intended page break never fails; the written one fails exactly when
      the intended one moves to a new page, and otherwise does the same. */
  lemma BreakAgrees(p: Pen, lay: Layout)
    ensures var i := Break(p, lay.(constPage := false));
      && i.Ok?
      && Break(p, lay.(constPage := true))
         == if i.value.page == p.page then i else Err(ConstReassignment)
  {
  }

  /** One turn of the word loop, written against intended. */
  lemma PlaceWordAgrees(pl: Place, word: string, lay: Layout)
    ensures var i := PlaceWord(pl, word, lay.(constPage := false));
      && i.Ok?
      && PlaceWord(pl, word, lay.(constPage := true))
         == if i.value.pen.page == pl.pen.page then i else Err(ConstReassignment)
  {
    var test := TestLine(pl.line, word);
    var next := if TooWide(test, lay) then Place(LineDown(DrawAt(pl.pen, pl.line), lay), word)
                else Place(pl.pen, test);
    BreakAgrees(next.pen, lay);
  }

  /** The word loop: the intended loop always finishes, and the written one gives
      the same result when it stays on the page where it started, else the error. */
  lemma {:induction false} PlaceWordsAgree(pl: Place, words: seq<string>, lay: Layout)
    ensures var i := PlaceWords(pl, words, lay.(constPage := false));
      && i.Ok?
      && PlaceWords(pl, words, lay.(constPage := true))
         == if i.value.pen.page == pl.pen.page then i else Err(ConstReassignment)
    decreases |words|
  {
    if words != [] {
      var layI := lay.(constPage := false);
      PlaceWordAgrees(pl, words[0], lay);
      var next := PlaceWord(pl, words[0], layI).value;
      PlaceWordsAgree(next, words[1..], lay);
    }
  }

  /** One body line, written against intended. */
  lemma PlaceLineAgrees(p: Pen, line: string, lay: Layout)
    ensures var i := PlaceLine(p, line, lay.(constPage := false));
      && i.Ok?
      && PlaceLine(p, line, lay.(constPage := true))
         == if i.value.page == p.page then i else Err(ConstReassignment)
  {
    var layI := lay.(constPage := false);
    var layW := lay.(constPage := true);
    if Trim(line) == "" {
      assert PlaceLine(p, line, layI) == Ok(LineDown(p, layI));
      assert PlaceLine(p, line, layW) == Ok(LineDown(p, layW));
    } else {
      var start := Place(p, "");
      var words := Split(line, ' ');
      PlaceWordsAgree(start, words, lay);
      EndLineAgrees(PlaceWords(start, words, layI), PlaceWords(start, words, layW), p, lay);
      assert PlaceLine(p, line, layI) == EndLine(PlaceWords(start, words, layI), layI);
      assert PlaceLine(p, line, layW) == EndLine(PlaceWords(start, words, layW), layW);
    }
  }

  /** Ending the line does not look at `constPage` and stays on the page. */
  lemma EndLineAgrees(i: Result<Place, PdfError>, w: Result<Place, PdfError>, p: Pen, lay: Layout)
    requires i.Ok?
    requires w == if i.value.pen.page == p.page then i else Err(ConstReassignment)
    ensures var e := EndLine(i, lay.(constPage := false));
      && e.Ok?
      && EndLine(w, lay.(constPage := true))
         == if e.value.page == p.page then e else Err(ConstReassignment)
  {
  }

  /** The line loop, written against intended. */
  lemma {:induction false} PlaceLinesAgree(p: Pen, lines: seq<string>, lay: Layout)
    ensures var i := PlaceLines(p, lines, lay.(constPage := false));
      && i.Ok?
      && PlaceLines(p, lines, lay.(constPage := true))
         == if i.value.page == p.page then i else Err(ConstReassignment)
    decreases |lines|
  {
    if lines != [] {
      var layI := lay.(constPage := false);
      PlaceLineAgrees(p, lines[0], lay);
      var next := PlaceLine(p, lines[0], layI).value;
      PlaceLinesAgree(next, lines[1..], lay);
    }
  }

  /** The header does not look at `constPage`. */
  lemma BodyStartIgnoresConstPage(details: Option<SchoolDetails>, options: PdfOptions, lay: Layout)
    ensures BodyStart(details, options, lay.(constPage := true))
         == BodyStart(details, options, lay.(constPage := false))
  {
    if DrawsHeader(details, options) {
      var start := Pen(0, lay.top, []);
      var a := Header(start, details.value, lay.(constPage := true));
      var b := Header(start, details.value, lay.(constPage := false));
      assert a.log == b.log;
    }
  }

  /** `generatePDF` as written against as intended: the intended function fails
      only on a font that cannot be embedded; the written one produces the same
      document when that document has a single page, and the const-assignment
      error for every document of two pages or more. */
  lemma {:induction false} GenerateAgrees(content: string, details: Option<SchoolDetails>,
                                          options: PdfOptions, width: real, height: real,
                                          measure: Measure)
    ensures var i := GenerateDocument(content, details, options, width, height, measure, false);
      var w := GenerateDocument(content, details, options, width, height, measure, true);
      && (i.Ok? <==> FontFor(options.fontFamily).Some?)
      && (i.Ok? ==> w == if i.value.pageCount == 1 then i else Err(ConstReassignment))
      && (i.Err? ==> w == i)
  {
    var font := FontFor(options.fontFamily);
    if font.Some? {
      var lay := LayoutFor(font.value, options, width, height, measure, false);
      assert LayoutFor(font.value, options, width, height, measure, true) == lay.(constPage := true);
      assert lay.(constPage := false) == lay;
      BodyStartIgnoresConstPage(details, options, lay);
      var layW := lay.(constPage := true);
      var start := BodyStart(details, options, lay);
      var lines := Split(content, '\n');
      PlaceLinesAgree(start, lines, lay);
      assert GenerateDocument(content, details, options, width, height, measure, false)
          == Finish(PlaceLines(start, lines, lay));
      assert GenerateDocument(content, details, options, width, height, measure, true)
          == Finish(PlaceLines(start, lines, layW));
      FinishAgrees(PlaceLines(start, lines, lay), PlaceLines(start, lines, layW), start);
    }
  }

  /** A body that stays on the first page gives the same document; one that
      leaves it gives the error. */
  lemma FinishAgrees(i: Result<Pen, PdfError>, w: Result<Pen, PdfError>, start: Pen)
    requires start.page == 0 && i.Ok?
    requires w == if i.value.page == start.page then i else Err(ConstReassignment)
    ensures Finish(i).Ok?
    ensures Finish(w) == if Finish(i).value.pageCount == 1 then Finish(i) else Err(ConstReassignment)
  {
  }

  /** No width at all for any text. */
  function NoWidth(font: StandardFont, text: string, size: real): real {
    0.0
  }

  /** The word loop over a single word that fits, from an empty `currentLine`:
      under the intended layout the page-break check cannot fail. */
  lemma OneWordPlaced(p: Pen, w: string, lay: Layout)
    requires !TooWide(w, lay) && !lay.constPage
    ensures Break(p, lay).Ok?
    ensures PlaceWords(Place(p, ""), [w], lay) == Ok(Place(Break(p, lay).value, w))
  {
    assert TestLine("", w) == w;
    assert PlaceWord(Place(p, ""), w, lay) == Ok(Place(Break(p, lay).value, w));
    assert [w][1..] == [];
  }

  /** A body line of one word that fits: the page break runs first, then the
      word is drawn at the cursor, which moves one line down. */
  lemma OneWordLine(p: Pen, w: string, lay: Layout)
    requires Trim(w) != "" && Split(w, ' ') == [w] && !TooWide(w, lay) && !lay.constPage
    ensures Break(p, lay).Ok?
    ensures PlaceLine(p, w, lay) == Ok(LineDown(DrawAt(Break(p, lay).value, w), lay))
  {
    OneWordPlaced(p, w, lay);
  }

  /** Two one-word lines from the bottom margin of the first page: "a" stays on
      it, and the page break before "b" takes "b" to the top of the next page. */
  lemma TwoLinesPlaced(lay: Layout)
    requires lay.lineHeight == 18.0 && lay.top == 50.0 && !lay.constPage
    requires !TooWide("a", lay) && !TooWide("b", lay)
    ensures PlaceLines(Pen(0, 50.0, []), ["a", "b"], lay)
         == Ok(Pen(1, 32.0, [Draw(0, 50.0, 50.0, "a"), Draw(1, 50.0, 50.0, "b")]))
  {
    var p0 := Pen(0, 50.0, []);
    var p1 := Pen(0, 32.0, [Draw(0, 50.0, 50.0, "a")]);
    var p2 := Pen(1, 32.0, [Draw(0, 50.0, 50.0, "a"), Draw(1, 50.0, 50.0, "b")]);
    FirstLinePlaced(lay);
    SecondLinePlaced(lay);
    var lines := ["a", "b"];
    calc {
      PlaceLines(p0, lines, lay);
      PlaceLines(p1, lines[1..], lay);
      { assert lines[1..][1..] == []; }
      PlaceLines(p2, [], lay);
    }
  }

  lemma FirstLinePlaced(lay: Layout)
    requires lay.lineHeight == 18.0 && !lay.constPage && !TooWide("a", lay)
    ensures PlaceLine(Pen(0, 50.0, []), "a", lay) == Ok(Pen(0, 32.0, [Draw(0, 50.0, 50.0, "a")]))
  {
    var p0 := Pen(0, 50.0, []);
    TrimUnchanged("a");
    SplitNoSeparator("a", ' ');
    OneWordLine(p0, "a", lay);
    assert Break(p0, lay) == Ok(p0);
    assert p0.log + [Draw(0, 50.0, 50.0, "a")] == [Draw(0, 50.0, 50.0, "a")];
  }

  lemma SecondLinePlaced(lay: Layout)
    requires lay.lineHeight == 18.0 && lay.top == 50.0 && !lay.constPage && !TooWide("b", lay)
    ensures PlaceLine(Pen(0, 32.0, [Draw(0, 50.0, 50.0, "a")]), "b", lay)
         == Ok(Pen(1, 32.0, [Draw(0, 50.0, 50.0, "a"), Draw(1, 50.0, 50.0, "b")]))
  {
    var p1 := Pen(0, 32.0, [Draw(0, 50.0, 50.0, "a")]);
    var q := Pen(1, 50.0, p1.log);
    BreakAtBottom(p1, lay);
    TrimUnchanged("b");
    SplitNoSeparator("b", ' ');
    OneWordLine(p1, "b", lay);
    assert Break(p1, lay).value == q;
    assert DrawAt(q, "b").log == [Draw(0, 50.0, 50.0, "a"), Draw(1, 50.0, 50.0, "b")];
  }

  /** Below the bottom margin the intended page break always moves to the next page. */
  lemma BreakAtBottom(p: Pen, lay: Layout)
    requires p.y < Margin && !lay.constPage
    ensures Break(p, lay) == Ok(Pen(p.page + 1, lay.top, p.log))
  {
  }

  /** The smallest case of the const-assignment error: two one-word lines on a
      page 100 points high (the cursor starts at 50, the bottom margin) and
      nothing is too wide. The intended function draws "a" on the first page
      and "b" at the top of the second. */
  lemma TwoLinesNeedTwoPages()
    ensures GenerateDocument("a\nb", None, DefaultOptions, 200.0, 100.0, NoWidth, false)
         == Ok(Document(2, [Draw(0, 50.0, 50.0, "a"), Draw(1, 50.0, 50.0, "b")]))
  {
    var lay := LayoutFor(TimesRoman, DefaultOptions, 200.0, 100.0, NoWidth, false);
    assert lay.lineHeight == 18.0 && lay.top == 50.0;
    assert Split("a\nb", '\n') == ["a", "b"] by {
      assert "a\nb" == "a" + ['\n'] + "b";
      SplitAppendPiece("a", "b", '\n');
      SplitNoSeparator("a", '\n');
    }
    assert BodyStart(None, DefaultOptions, lay) == Pen(0, 50.0, []);
    TwoLinesPlaced(lay);
  }

  /** The same call as written throws. */
  lemma TwoLinesThrow()
    ensures GenerateDocument("a\nb", None, DefaultOptions, 200.0, 100.0, NoWidth, true)
         == Err(ConstReassignment)
  {
    TwoLinesNeedTwoPages();
    GenerateAgrees("a\nb", None, DefaultOptions, 200.0, 100.0, NoWidth);
  }
}
