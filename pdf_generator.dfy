/** `generatePDF`: the assignment text laid out on PDF pages. An optional school
    header comes first; then every line of the text is wrapped greedily on single
    spaces against the page width and drawn at the left margin, one line height
    below the previous one, with a page break when the cursor falls below the
    bottom margin. The PDF library stays abstract: the width of a text is a
    function parameter, each `drawText` is a record in a draw log, and `addPage`
    moves to the next page number. */
module PdfGenerator {
  import opened Wrappers
  import opened JsString
  import opened JsArray

  // ---------------------------------------------------------------- fonts

  datatype StandardFont = TimesRoman | Helvetica | Courier

  /** The property names every object inherits from `Object.prototype`. Looking
      one of them up in `FONT_MAPPING` finds a function rather than a font name,
      which is truthy, so the `|| StandardFonts.TimesRoman` fallback does not apply
      and `embedFont` is handed something that is not a font. */
  const ObjectPrototypeNames: set<string> := {
    "constructor", "hasOwnProperty", "isPrototypeOf", "propertyIsEnumerable",
    "toString", "toLocaleString", "valueOf", "__proto__",
    "__defineGetter__", "__defineSetter__", "__lookupGetter__", "__lookupSetter__"
  }

  /** `FONT_MAPPING[fontFamily] || StandardFonts.TimesRoman`: the three names of the
      mapping give their font, every other name falls back to Times-Roman, and an
      inherited property name gives no font at all (`None`). */
  function FontFor(fontFamily: string): (font: Option<StandardFont>)
    ensures font == Some(Helvetica) <==> fontFamily == "Helvetica"
    ensures font == Some(Courier) <==> fontFamily == "Courier"
    ensures font == None <==> fontFamily in ObjectPrototypeNames
    ensures font == Some(TimesRoman) <==>
      fontFamily != "Helvetica" && fontFamily != "Courier" && fontFamily !in ObjectPrototypeNames
  {
    if fontFamily == "Times-Roman" then Some(TimesRoman)
    else if fontFamily == "Helvetica" then Some(Helvetica)
    else if fontFamily == "Courier" then Some(Courier)
    else if fontFamily in ObjectPrototypeNames then None
    else Some(TimesRoman)
  }

  // ---------------------------------------------------------------- inputs

  /** `SchoolDetails`. */
  datatype SchoolDetails = SchoolDetails(
    schoolName: string,
    studentNumber: string,
    program: string,
    className: string,
    department: Option<string>)

  /** `PDFOptions`. */
  datatype PdfOptions = PdfOptions(
    includeSchoolDetails: bool,
    fontSize: real,
    fontFamily: string,
    lineHeight: real)

  /** The value of the `options` parameter when the caller passes none. */
  const DefaultOptions := PdfOptions(true, 12.0, "Times-Roman", 1.5)

  /** `font.widthOfTextAtSize(text, size)` for a font. */
  type Measure = (StandardFont, string, real) -> real

  // ---------------------------------------------------------------- drawing state

  /** One `drawText` call: page number (0 for the first page), position and text. */
  datatype Draw = Draw(page: nat, x: real, y: real, text: string)

  /** The page being drawn on, the cursor `currentY` and every draw so far. */
  datatype Pen = Pen(page: nat, y: real, log: seq<Draw>)

  /** What the layout fixes once the font is known. `lineHeight` is the distance
      between lines (`fontSize * options.lineHeight`), `top` is `height - 50` and
      `maxWidth` is `width - 100`. `constPage` says whether the page break runs
      into the `const page` binding, as it does in the source (see `Break`). */
  datatype Layout = Layout(
    font: StandardFont,
    fontSize: real,
    lineHeight: real,
    maxWidth: real,
    top: real,
    measure: Measure,
    constPage: bool)

  /** The errors `generatePDF` rethrows: `embedFont` rejecting a non-font, or the
      TypeError of assigning to the constant `page`. */
  datatype PdfError = FontNotEmbeddable | ConstReassignment

  /** The produced document: its number of pages and its draws, in order. */
  datatype Document = Document(pageCount: nat, draws: seq<Draw>)

  /** The left margin, where every text is drawn, and the bottom margin under
      which the cursor triggers a page break. */
  const Margin: real := 50.0

  function DrawAt(p: Pen, text: string): (q: Pen)
    ensures q.page == p.page && q.y == p.y
    ensures q.log == p.log + [Draw(p.page, Margin, p.y, text)]
  {
    p.(log := p.log + [Draw(p.page, Margin, p.y, text)])
  }

  /** `currentY -= lineHeight`. */
  function LineDown(p: Pen, lay: Layout): (q: Pen)
    ensures q.page == p.page && q.log == p.log
    ensures q.y == p.y - lay.lineHeight
  {
    p.(y := p.y - lay.lineHeight)
  }

  /** Lines 101-104: below the bottom margin a new page is added and the cursor
      goes back to the top. The source declares `page` with `const`, so the
      assignment throws a TypeError, which the `catch` rethrows (`constPage`). A
      pen above the margin is left alone; a break always leaves the cursor at the
      top, which is above the margin when the page is tall enough. */
  function Break(p: Pen, lay: Layout): (r: Result<Pen, PdfError>)
    ensures r.Err? <==> p.y < Margin && lay.constPage
    ensures r.Err? ==> r.error == ConstReassignment
    ensures r.Ok? ==> r.value.log == p.log
    ensures r.Ok? ==> (r.value == p <==> Margin <= p.y)
    ensures r.Ok? && p.y < Margin ==> r.value.page == p.page + 1 && r.value.y == lay.top
    ensures r.Ok? && Margin <= lay.top ==> Margin <= r.value.y
  {
    if p.y < Margin then
      if lay.constPage then Err(ConstReassignment)
      else Ok(Pen(p.page + 1, lay.top, p.log))
    else Ok(p)
  }

  // ---------------------------------------------------------------- lines 40-65: the header

  /** The four lines of the school header, in drawing order. The department line
      is commented out in the source, so the department is never drawn. */
  function DetailLines(d: SchoolDetails): seq<string> {
    [d.schoolName, "Student Number: " + d.studentNumber, "Program: " + d.program, "Class: " + d.className]
  }

  /** The `for` loop of lines 52-61: each line drawn at the cursor, which then moves down. */
  function DrawLines(p: Pen, lines: seq<string>, lay: Layout): (r: Pen)
    ensures r.page == p.page
    ensures |r.log| == |p.log| + |lines|
    decreases |lines|
  {
    if lines == [] then p
    else DrawLines(LineDown(DrawAt(p, lines[0]), lay), lines[1..], lay)
  }

  /** Lines 40-65: the four header lines at the left margin, one line height apart
      from the cursor down, then one more line height of space. */
  function Header(p: Pen, d: SchoolDetails, lay: Layout): (r: Pen)
    ensures r.page == p.page
    ensures r.y == p.y - 5.0 * lay.lineHeight
    ensures r.log == p.log + [
      Draw(p.page, Margin, p.y, d.schoolName),
      Draw(p.page, Margin, p.y - lay.lineHeight, "Student Number: " + d.studentNumber),
      Draw(p.page, Margin, p.y - 2.0 * lay.lineHeight, "Program: " + d.program),
      Draw(p.page, Margin, p.y - 3.0 * lay.lineHeight, "Class: " + d.className)]
  {
    HeaderLines(p, d.schoolName, "Student Number: " + d.studentNumber,
                "Program: " + d.program, "Class: " + d.className, lay);
    LineDown(DrawLines(p, DetailLines(d), lay), lay)
  }

  /** `DrawLines` on four lines, written out. */
  lemma HeaderLines(p: Pen, l0: string, l1: string, l2: string, l3: string, lay: Layout)
    ensures var r := DrawLines(p, [l0, l1, l2, l3], lay);
      && r.y == p.y - 4.0 * lay.lineHeight
      && r.log == p.log + [
        Draw(p.page, Margin, p.y, l0),
        Draw(p.page, Margin, p.y - lay.lineHeight, l1),
        Draw(p.page, Margin, p.y - 2.0 * lay.lineHeight, l2),
        Draw(p.page, Margin, p.y - 3.0 * lay.lineHeight, l3)]
  {
    var lh := lay.lineHeight;
    var p1 := LineDown(DrawAt(p, l0), lay);
    var p2 := LineDown(DrawAt(p1, l1), lay);
    var p3 := LineDown(DrawAt(p2, l2), lay);
    var p4 := LineDown(DrawAt(p3, l3), lay);
    DrawLinesStep(p, [l0, l1, l2, l3], lay);
    DrawLinesStep(p1, [l1, l2, l3], lay);
    DrawLinesStep(p2, [l2, l3], lay);
    DrawLinesStep(p3, [l3], lay);
    assert DrawLines(p, [l0, l1, l2, l3], lay) == p4;
    var d0 := Draw(p.page, Margin, p.y, l0);
    var d1 := Draw(p.page, Margin, p.y - lh, l1);
    var d2 := Draw(p.page, Margin, p.y - 2.0 * lh, l2);
    var d3 := Draw(p.page, Margin, p.y - 3.0 * lh, l3);
    assert p4.log == p.log + [d0] + [d1] + [d2] + [d3];
    assert [d0] + [d1] + [d2] + [d3] == [d0, d1, d2, d3];
  }

  lemma DrawLinesStep(p: Pen, lines: seq<string>, lay: Layout)
    requires lines != []
    ensures DrawLines(p, lines, lay) == DrawLines(LineDown(DrawAt(p, lines[0]), lay), lines[1..], lay)
  {
  }

  // ---------------------------------------------------------------- lines 67-118: the body

  /** The state of the word loop: the pen and `currentLine`, the words taken but
      not drawn yet. */
  datatype Place = Place(pen: Pen, line: string)

  /** `currentLine ? `${currentLine} ${word}` : word`. */
  function TestLine(line: string, word: string): string {
    if line != "" then line + " " + word else word
  }

  /** Whether `text` is wider than the page allows. */
  predicate TooWide(text: string, lay: Layout) {
    lay.measure(lay.font, text, lay.fontSize) > lay.maxWidth
  }

  /** One turn of the word loop, lines 82-104. When the line with the word added
      is too wide, `currentLine` is drawn, the cursor moves down and the word starts
      the next line; otherwise the word joins the line. Then the page-break check.
      The cursor ends up one line lower or where it was, unless that is below the
      bottom margin: then it is at the top of the next page. */
  function PlaceWord(pl: Place, word: string, lay: Layout): (r: Result<Place, PdfError>)
    ensures r.Err? ==> r.error == ConstReassignment
    ensures r.Ok? ==>
      var p := pl.pen;
      var q := r.value.pen;
      var moved := if TooWide(TestLine(pl.line, word), lay) then p.y - lay.lineHeight else p.y;
      || (q.page == p.page && q.y == moved && Margin <= moved)
      || (q.page == p.page + 1 && q.y == lay.top && moved < Margin)
  {
    var test := TestLine(pl.line, word);
    var next := if TooWide(test, lay) then Place(LineDown(DrawAt(pl.pen, pl.line), lay), word)
                else Place(pl.pen, test);
    match Break(next.pen, lay)
    case Err(e) => Err(e)
    case Ok(pen) => Ok(Place(pen, next.line))
  }

  /** The word loop of lines 81-105 from a given state. */
  function PlaceWords(pl: Place, words: seq<string>, lay: Layout): (r: Result<Place, PdfError>)
    ensures r.Err? ==> r.error == ConstReassignment
    ensures r.Ok? ==> pl.pen.page <= r.value.pen.page
    decreases |words|
  {
    if words == [] then Ok(pl)
    else
      match PlaceWord(pl, words[0], lay)
      case Err(e) => Err(e)
      case Ok(next) => PlaceWords(next, words[1..], lay)
  }

  /** One body line, lines 72-117: a line that is blank after `trim()` only moves
      the cursor down by one line height; any other line is split on single spaces,
      its words are placed, and what remains in `currentLine` is drawn. */
  function PlaceLine(p: Pen, line: string, lay: Layout): (r: Result<Pen, PdfError>)
    ensures Trim(line) == "" ==> r == Ok(p.(y := p.y - lay.lineHeight))
    ensures r.Err? ==> r.error == ConstReassignment
    ensures r.Ok? ==> p.page <= r.value.page
  {
    if Trim(line) == "" then Ok(LineDown(p, lay))
    else
      EndLine(PlaceWords(Place(p, ""), Split(line, ' '), lay), lay)
  }

  /** Lines 107-117: after the word loop, what is left in `currentLine` is drawn
      and the cursor moves down; an error of the word loop is passed on. */
  function EndLine(r: Result<Place, PdfError>, lay: Layout): Result<Pen, PdfError> {
    match r
    case Err(e) => Err(e)
    case Ok(pl) => Ok(if pl.line != "" then LineDown(DrawAt(pl.pen, pl.line), lay) else pl.pen)
  }

  /** The line loop of lines 71-118 from a given pen. */
  function PlaceLines(p: Pen, lines: seq<string>, lay: Layout): (r: Result<Pen, PdfError>)
    ensures r.Err? ==> r.error == ConstReassignment
    ensures r.Ok? ==> p.page <= r.value.page
    decreases |lines|
  {
    if lines == [] then Ok(p)
    else
      match PlaceLine(p, lines[0], lay)
      case Err(e) => Err(e)
      case Ok(next) => PlaceLines(next, lines[1..], lay)
  }

  // ---------------------------------------------------------------- the whole function

  /** The layout `generatePDF` derives from the options and the page size. */
  function LayoutFor(font: StandardFont, options: PdfOptions, width: real, height: real,
                     measure: Measure, constPage: bool): (lay: Layout)
    ensures lay.lineHeight == options.fontSize * options.lineHeight
    ensures lay.maxWidth == width - 100.0 && lay.top == height - 50.0
  {
    Layout(font, options.fontSize, options.fontSize * options.lineHeight,
           width - 100.0, height - 50.0, measure, constPage)
  }

  /** Whether the header is drawn: `options.includeSchoolDetails && schoolDetails`. */
  predicate DrawsHeader(details: Option<SchoolDetails>, options: PdfOptions) {
    options.includeSchoolDetails && details.Some?
  }

  /** The pen when the body starts: on the first page, five line heights below
      the top after a header, at the top without one. */
  function BodyStart(details: Option<SchoolDetails>, options: PdfOptions, lay: Layout): (p: Pen)
    ensures p.page == 0
    ensures p.y == lay.top - (if DrawsHeader(details, options) then 5.0 * lay.lineHeight else 0.0)
    ensures |p.log| == if DrawsHeader(details, options) then 4 else 0
  {
    var start := Pen(0, lay.top, []);
    if DrawsHeader(details, options) then Header(start, details.value, lay) else start
  }

  /** What is on the page when the body starts: the four header lines drawn from
      the top down, one line height apart, when there is a header, and nothing
      otherwise. */
  lemma BodyStartDraws(details: Option<SchoolDetails>, options: PdfOptions, lay: Layout)
    ensures BodyStart(details, options, lay).log == if DrawsHeader(details, options) then [
        Draw(0, Margin, lay.top, details.value.schoolName),
        Draw(0, Margin, lay.top - lay.lineHeight, "Student Number: " + details.value.studentNumber),
        Draw(0, Margin, lay.top - 2.0 * lay.lineHeight, "Program: " + details.value.program),
        Draw(0, Margin, lay.top - 3.0 * lay.lineHeight, "Class: " + details.value.className)]
      else []
  {
  }

  /** `generatePDF(content, schoolDetails, options)` on a page of the given size,
      with `constPage` choosing between the page break as written and as intended. */
  function GenerateDocument(content: string, details: Option<SchoolDetails>, options: PdfOptions,
                            width: real, height: real, measure: Measure, constPage: bool)
    : (r: Result<Document, PdfError>)
    ensures FontFor(options.fontFamily).None? <==> r == Err(FontNotEmbeddable)
  {
    match FontFor(options.fontFamily)
    case None => Err(FontNotEmbeddable)
    case Some(font) =>
      var lay := LayoutFor(font, options, width, height, measure, constPage);
      Finish(PlaceLines(BodyStart(details, options, lay), Split(content, '\n'), lay))
  }

  /** The document a finished body gives: its number of pages and its draws, or
      the error that stopped it. */
  function Finish(r: Result<Pen, PdfError>): Result<Document, PdfError> {
    match r
    case Err(e) => Err(e)
    case Ok(p) => Ok(Document(p.page + 1, p.log))
  }

  // ---------------------------------------------------------------- the drawing loop

  /** The mutable state of `generatePDF`: the page in use, `currentY`, and the
      draws made so far. */
  class Canvas {
    var page: nat
    var y: real
    var log: seq<Draw>

    constructor (top: real)
      ensures page == 0 && y == top && log == []
    {
      page := 0;
      y := top;
      log := [];
    }

    function State(): Pen
      reads this
    {
      Pen(page, y, log)
    }

    /** `page.drawText(text, { x: 50, y: currentY, ... })`. */
    method DrawText(text: string)
      modifies this
      ensures State() == DrawAt(old(State()), text)
    {
      log := log + [Draw(page, Margin, y, text)];
    }

    /** `currentY -= lineHeight`. */
    method MoveDown(lay: Layout)
      modifies this
      ensures State() == LineDown(old(State()), lay)
    {
      y := y - lay.lineHeight;
    }

    /** Lines 101-104; `false` when the page break throws. */
    method CheckPageBreak(lay: Layout) returns (ok: bool)
      modifies this
      ensures ok <==> Break(old(State()), lay).Ok?
      ensures ok ==> State() == Break(old(State()), lay).value
    {
      if y < Margin {
        if lay.constPage {
          return false;
        }
        page := page + 1;
        y := lay.top;
      }
      return true;
    }

    /** The header loop of lines 52-61. */
    method DrawDetails(lines: seq<string>, lay: Layout)
      modifies this
      ensures State() == DrawLines(old(State()), lines, lay)
    {
      ghost var start := State();
      for i := 0 to |lines|
        invariant DrawLines(State(), lines[i..], lay) == DrawLines(start, lines, lay)
      {
        DrawLinesStep(State(), lines[i..], lay);
        assert lines[i..][1..] == lines[i + 1..];
        DrawText(lines[i]);
        MoveDown(lay);
      }
    }

    /** Lines 40-65: the header, when the options ask for it and there are details. */
    method DrawHeader(details: Option<SchoolDetails>, options: PdfOptions, lay: Layout)
      requires State() == Pen(0, lay.top, [])
      modifies this
      ensures State() == BodyStart(details, options, lay)
    {
      if options.includeSchoolDetails && details.Some? {
        ghost var start := State();
        DrawDetails(DetailLines(details.value), lay);
        MoveDown(lay);
        assert State() == Header(start, details.value, lay);
      }
    }

    /** The word loop of lines 79-105; `ok` is false when a page break throws. */
    method DrawWords(words: seq<string>, lay: Layout) returns (ok: bool, currentLine: string)
      modifies this
      ensures ok <==> PlaceWords(Place(old(State()), ""), words, lay).Ok?
      ensures ok ==> Place(State(), currentLine) == PlaceWords(Place(old(State()), ""), words, lay).value
    {
      ghost var start := State();
      currentLine := "";
      for j := 0 to |words|
        invariant PlaceWords(Place(State(), currentLine), words[j..], lay)
               == PlaceWords(Place(start, ""), words, lay)
      {
        ghost var before := Place(State(), currentLine);
        assert words[j..][1..] == words[j + 1..];
        var word := words[j];
        var testLine := if currentLine != "" then currentLine + " " + word else word;
        if lay.measure(lay.font, testLine, lay.fontSize) > lay.maxWidth {
          DrawText(currentLine);
          MoveDown(lay);
          currentLine := word;
        } else {
          currentLine := testLine;
        }
        ok := CheckPageBreak(lay);
        if !ok {
          assert PlaceWord(before, word, lay).Err?;
          return;
        }
        assert Place(State(), currentLine) == PlaceWord(before, word, lay).value;
      }
      ok := true;
    }

    /** One turn of the line loop, lines 72-117; `ok` is false when a page break throws. */
    method DrawBodyLine(line: string, lay: Layout) returns (ok: bool)
      modifies this
      ensures ok <==> PlaceLine(old(State()), line, lay).Ok?
      ensures ok ==> State() == PlaceLine(old(State()), line, lay).value
    {
      if Trim(line) == "" {
        MoveDown(lay);
        return true;
      }
      var currentLine;
      ok, currentLine := DrawWords(Split(line, ' '), lay);
      if ok && currentLine != "" {
        DrawText(currentLine);
        MoveDown(lay);
      }
    }

    /** The line loop of lines 71-118; `ok` is false when a page break throws. */
    method DrawBody(lines: seq<string>, lay: Layout) returns (ok: bool)
      modifies this
      ensures ok <==> PlaceLines(old(State()), lines, lay).Ok?
      ensures ok ==> State() == PlaceLines(old(State()), lines, lay).value
    {
      ghost var start := State();
      for i := 0 to |lines|
        invariant PlaceLines(State(), lines[i..], lay) == PlaceLines(start, lines, lay)
      {
        assert lines[i..][1..] == lines[i + 1..];
        ok := DrawBodyLine(lines[i], lay);
        if !ok {
          return;
        }
      }
      ok := true;
    }
  }

  /** Lines 36-120 once the font is embedded: a fresh page, the header, then the
      body, computing exactly the document `Finish` makes of the placed body. */
  method DrawDocument(content: string, details: Option<SchoolDetails>, options: PdfOptions, lay: Layout)
    returns (r: Result<Document, PdfError>)
    ensures r == Finish(PlaceLines(BodyStart(details, options, lay), Split(content, '\n'), lay))
  {
    var canvas := new Canvas(lay.top);
    canvas.DrawHeader(details, options, lay);
    var ok := canvas.DrawBody(Split(content, '\n'), lay);
    var body := if ok then Ok(canvas.State()) else Err(ConstReassignment);
    assert body == PlaceLines(BodyStart(details, options, lay), Split(content, '\n'), lay);
    r := Finish(body);
  }

  /** `generatePDF`: the font, then the document, computing exactly
      `GenerateDocument`. */
  method GeneratePdf(content: string, details: Option<SchoolDetails>, options: PdfOptions,
                     width: real, height: real, measure: Measure, constPage: bool)
    returns (r: Result<Document, PdfError>)
    ensures r == GenerateDocument(content, details, options, width, height, measure, constPage)
  {
    var font := FontFor(options.fontFamily);
    if font.None? {
      return Err(FontNotEmbeddable);
    }
    var lay := LayoutFor(font.value, options, width, height, measure, constPage);
    r := DrawDocument(content, details, options, lay);
  }
}
