# SchoolAI core logic in Dafny

This project models the self-contained logic of the SchoolAI assignment helper (an Expo / Next.js client) and proves properties of it. It covers five pieces:

- **`generatePDF`** (`pdf_generator.dfy`, `pdf_properties.dfy`, `pdf_page_break.dfy`). This is the greedy word wrap and pagination of an assignment text.
  - The font is looked up in `FONT_MAPPING`, with the Times-Roman fallback. A name inherited from `Object.prototype` ("toString", "constructor", …) finds no font, and `embedFont` rejects it.
  - An optional four-line school header comes first.
  - Every body line is then split on single spaces and wrapped against `width - 100`.
  - The page break fires when the cursor falls below 50.
  - The PDF library stays abstract:
    - the text width is a function parameter;
    - every `drawText` is a `Draw(page, x, y, text)` record in a log;
    - `addPage` moves to the next page number.
  - `GenerateDocument` is the specification. The `Canvas` class with its methods is the imperative loop, and `GeneratePdf` is proved equal to `GenerateDocument`.
- **`formatAIResponse`** (`text_formatter.dfy`, `text_formatter_examples.dfy`).
  - Each regular-expression `replace` is its own left-to-right scanner. Matches are leftmost, greedy and non-overlapping, and `^` follows the `m` flag.
  - These are followed by the split / trim / filter / join tail.
- **The assignment list screen** (`assignment_list.dfy`). This covers the search filter, the three status sections, the status colour, icon and chip label, and the card's first question and question count.
- **The `useAIResponses` hook** (`ai_responses.dfy`).
  - It keeps a local cache of generated answers. Successes are prepended, deletions filtered out, and a fetch replaces the list.
  - Generation asks OpenAI first and falls back to Gemini.
  - The pure list updates are functions, and the hook's state is the `ResponseCache` class.
- **The route guard `middleware`** (`middleware.dfy`). It decides from `(pathname, hasSession)` whether to pass or to redirect.

`js_string.dfy` and `js_array.dfy` model the JavaScript built-ins the code relies on: `trim`, `split`, `join`, `startsWith`, `includes`, `replace` with a one-character pattern, `toUpperCase`/`toLowerCase`, and `filter`. `wrappers.dfy` holds `Option` and `Result`.

Two facts about `formatAIResponse` that the code fixes and the proofs show:

- `formatAIResponse` is not idempotent: see `NotIdempotentCode` and `NotIdempotentBold`.
- Line 13 of `lib/utils/textFormatter.ts` turns every line break into a space, so the output is a single line.

## Model

| member | source | states |
|---|---|---|
| PdfGenerator.FontFor | lib/pdf/generator.ts:5-30 | "Helvetica" and "Courier" give their fonts. A name inherited from `Object.prototype` gives no font. Every other name, "Times-Roman" included, gives Times-Roman. Each case is an if-and-only-if. |
| PdfGenerator.Break | lib/pdf/generator.ts:100-104 | Below the bottom margin the pen moves to the next page with the cursor at the top; otherwise it is unchanged. The log is untouched. As written, the break fails exactly when it would fire, because `page` is `const`. |
| PdfGenerator.Header | lib/pdf/generator.ts:40-65 | The header draws exactly four lines at x = 50, one line height apart from the cursor down: school name, "Student Number: …", "Program: …", "Class: …". The cursor ends five line heights lower, on the same page. |
| PdfGenerator.HeaderLines | lib/pdf/generator.ts:52-61 | The detail loop over four lines draws them in order at successive cursor positions and leaves the cursor four line heights lower. |
| PdfGenerator.DrawLines | lib/pdf/generator.ts:52-61 | The detail loop draws one record per line and stays on the page. |
| PdfGenerator.PlaceWord | lib/pdf/generator.ts:82-104 | After one word the cursor is in one of two places. Either it is on the same page, one line lower when the line was too wide (otherwise where it was), and at or above the margin. Or it is at the top of the next page, exactly when that lower position is below 50. The only error is the const assignment. |
| PdfGenerator.PlaceWords | lib/pdf/generator.ts:81-105 | The word loop never goes back a page; its only error is the const assignment. |
| PdfGenerator.PlaceLine | lib/pdf/generator.ts:72-117 | A line whose `trim()` is empty draws nothing and lowers the cursor by exactly one line height; other lines never go back a page. |
| PdfGenerator.PlaceLines | lib/pdf/generator.ts:71-118 | The line loop never goes back a page; its only error is the const assignment. |
| PdfGenerator.BodyStart | lib/pdf/generator.ts:37-65 | The body starts on the first page. With the header (`includeSchoolDetails` set and details given) the cursor is five line heights below `height - 50` and four lines have been drawn; without it the cursor is at `height - 50` and nothing has been drawn. |
| PdfGenerator.BodyStartDraws | lib/pdf/generator.ts:40-65 | The four header draws, in order: the school name at `height - 50`, then "Student Number: …", "Program: …" and "Class: …" one line height lower each, all at x = 50 on the first page; no draws without the header. |
| PdfGenerator.GenerateDocument | lib/pdf/generator.ts:11-125 | `generatePDF` fails with the embedding error exactly when the font lookup finds no font. |
| PdfGenerator.Canvas.constructor | lib/pdf/generator.ts:22-37 | First page, cursor at the top, nothing drawn. |
| PdfGenerator.Canvas.DrawText | lib/pdf/generator.ts:53-59 | Appends one draw at the cursor on the current page. |
| PdfGenerator.Canvas.MoveDown | lib/pdf/generator.ts:60 | `currentY -= lineHeight`, nothing else changes. |
| PdfGenerator.Canvas.CheckPageBreak | lib/pdf/generator.ts:100-104 | Succeeds exactly when `Break` does, and then leaves the state `Break` gives. |
| PdfGenerator.Canvas.DrawDetails | lib/pdf/generator.ts:52-61 | The `for` loop over the details leaves the state `DrawLines` gives. |
| PdfGenerator.Canvas.DrawHeader | lib/pdf/generator.ts:40-65 | From a fresh first page, the header step leaves exactly the pen `BodyStart` describes. |
| PdfGenerator.Canvas.DrawWords | lib/pdf/generator.ts:78-105 | The word loop fails exactly when `PlaceWords` does. Otherwise it leaves the pen and `currentLine` that `PlaceWords` gives. |
| PdfGenerator.Canvas.DrawBodyLine | lib/pdf/generator.ts:72-117 | One body line, equal to `PlaceLine`, including its failure. |
| PdfGenerator.Canvas.DrawBody | lib/pdf/generator.ts:71-118 | The line loop, equal to `PlaceLines`, including its failure. |
| PdfGenerator.DrawDocument | lib/pdf/generator.ts:22-120 | With the font embedded, the page, the header and the body loop give exactly the document of the placed body: its page count and every draw, or the page-break error. |
| PdfGenerator.GeneratePdf | lib/pdf/generator.ts:11-125 | The imperative `generatePDF` returns exactly `GenerateDocument`: the page count and every draw, or the error. |
| PdfProperties.PlaceWordDraws | lib/pdf/generator.ts:82-98 | A too-wide test line draws `currentLine` and starts a new line with the word. Otherwise the word joins `currentLine` and nothing is drawn. |
| PdfProperties.PlaceWordsPlaces | lib/pdf/generator.ts:81-105 | The word loop only appends draws. Each is at x = 50, fits `width - 100` unless it has no space, and is at or above 50 when non-empty on a page at least 100 high. |
| PdfProperties.PlaceLinesPlaces | lib/pdf/generator.ts:71-118 | The whole body only appends such well-placed draws. |
| PdfProperties.DocumentLayout | lib/pdf/generator.ts:40-117 | The header draws come first. After them, every draw is at x = 50. Only a single word can be wider than `width - 100`. With `height >= 100`, every non-empty text is at y ≥ 50. This holds for both page breaks. |
| PdfProperties.PlaceWordKeepsWords | lib/pdf/generator.ts:82-104 | A turn of the word loop moves the word into the drawn or the pending text, keeping the log's prefix. |
| PdfProperties.PlaceWordsKeepsWords | lib/pdf/generator.ts:81-105 | After the word loop, the drawn words plus the pending words are the earlier ones followed by the non-empty words, in order. |
| PdfProperties.LineWordsKept | lib/pdf/generator.ts:78-117 | For a non-blank line, the words of its draws in draw order are exactly the non-empty pieces of `line.split(" ")`: none lost, repeated or reordered. |
| PdfProperties.OverlongWordDrawsEmptyLine | lib/pdf/generator.ts:82-95 | A too-wide word with nothing pending draws the empty string at the cursor, moves down a line and becomes the pending line. |
| PdfProperties.OverlongFirstWord | lib/pdf/generator.ts:78-95 | When a line's first word is too wide, the line's first draw is "" at the cursor where the line starts. |
| PdfPageBreak.BreakAgrees | lib/pdf/generator.ts:100-104 | The intended break never fails. The written one fails exactly when the intended one moves to a new page, and otherwise gives the same result. |
| PdfPageBreak.BreakAtBottom | lib/pdf/generator.ts:100-104 | Under the intended break, a cursor below the bottom margin moves to the top of the next page, keeping every draw. |
| PdfPageBreak.PlaceWordsAgree | lib/pdf/generator.ts:81-105 | For the word loop, the written and intended versions agree while the loop stays on its page. Otherwise the written one throws. |
| PdfPageBreak.PlaceLinesAgree | lib/pdf/generator.ts:71-118 | The same for the whole body. |
| PdfPageBreak.GenerateAgrees | lib/pdf/generator.ts:11-125 | The intended `generatePDF` fails only on a font it cannot embed. The written one produces the same one-page documents and throws on every document of two or more pages. |
| PdfPageBreak.TwoLinesNeedTwoPages | lib/pdf/generator.ts:67-117 | Under the intended break, "a\nb" on a 100-point-high page with nothing too wide gives two pages: "a" at (50, 50) on the first, "b" at (50, 50) on the second. |
| PdfPageBreak.TwoLinesThrow | lib/pdf/generator.ts:101-124 | The same call as written throws the const-assignment error. |
| TextFormatter.StripBold | lib/utils/textFormatter.ts:4 | The `*` pair step never lengthens the text, and leaves a text without `*` unchanged. |
| TextFormatter.StripUnderscores | lib/utils/textFormatter.ts:5 | The `_` pair step never lengthens the text, and leaves a text without `_` unchanged. |
| TextFormatter.StripCode | lib/utils/textFormatter.ts:6 | The `` ` `` pair step never lengthens the text, and leaves a text without `` ` `` unchanged. |
| TextFormatter.PairMatch | lib/utils/textFormatter.ts:4-6 | The match of a delimiter pair at the start of the text: at least three characters, opening and closing with the delimiter, or none. |
| TextFormatter.PairClose | lib/utils/textFormatter.ts:4-6 | The closing part of a pair match ends with the delimiter, at least two characters after the opening. |
| TextFormatter.StripPairs | lib/utils/textFormatter.ts:4-6 | The scanner shared by the three pair steps never lengthens the text and leaves a text without the delimiter unchanged. |
| TextFormatter.StripPairsOnlyDeletes | lib/utils/textFormatter.ts:4-6 | A delimiter-pair step only deletes delimiters: with every delimiter removed, input and output are equal. |
| TextFormatter.EmphasisOnlyDeletes | lib/utils/textFormatter.ts:4-6 | The `*`, `_` and `` ` `` steps delete only `*`, `_` and `` ` `` respectively. |
| TextFormatter.HeadingMatch | lib/utils/textFormatter.ts:7 | The match of `#+\s+` at the start of the text lies within the text and, when there is one, starts with `#`. |
| TextFormatter.StripHeadings | lib/utils/textFormatter.ts:7 | After `#+\s+` is removed, no `#` is followed by white space. A text without `#` is unchanged. |
| TextFormatter.BulletMatch | lib/utils/textFormatter.ts:9 | The match of `[-*]\s+` at the start of the text: a marker, then white space up to its last character, at least two characters long. |
| TextFormatter.NumberBullets | lib/utils/textFormatter.ts:9 | A text without `-` or `*` is unchanged, and away from a line start the first character stays. |
| TextFormatter.BulletsKeepHashTight | lib/utils/textFormatter.ts:9 | Numbering the bullets puts no white space after a `#`. |
| TextFormatter.IndentedBulletMatch | lib/utils/textFormatter.ts:10 | The match of `\s+[-*]\s+` at the start of the text: white space, a marker right after the leading white-space run, white space at the end, at least three characters. |
| TextFormatter.NumberIndentedBullets | lib/utils/textFormatter.ts:10 | A text without `-` or `*` is unchanged, and away from a line start the first character stays. |
| TextFormatter.IndentedBulletsKeepHashTight | lib/utils/textFormatter.ts:10 | Numbering the indented bullets puts no white space after a `#`. |
| TextFormatter.SpaceAfterDots | lib/utils/textFormatter.ts:12 | Afterwards every `.` is followed by white space or ends the text. A text without `.` is unchanged. |
| TextFormatter.DotsKeepHashTight | lib/utils/textFormatter.ts:12 | Spacing the dots puts no white space after a `#`. |
| TextFormatter.CollapseSpaces | lib/utils/textFormatter.ts:13 | Every white-space run becomes one plain space: no other white space and no two spaces in a row remain. The result is "" or " " exactly when the input is blank. |
| TextFormatter.CollapseKeepsHashTight | lib/utils/textFormatter.ts:13 | Collapsing keeps "no white space after `#`". |
| TextFormatter.CollapseKeepsDotsSpaced | lib/utils/textFormatter.ts:13 | Collapsing keeps "every `.` followed by a space or last". |
| TextFormatter.TidyLine | lib/utils/textFormatter.ts:16-26 | The `map` callback gives "" exactly for a blank line. |
| TextFormatter.TidyLines | lib/utils/textFormatter.ts:16-26 | The `map` gives one line per input line, each the callback's value on that line. |
| TextFormatter.CapNewlines | lib/utils/textFormatter.ts:32 | A text without a line break is left unchanged. |
| TextFormatter.Replacements | lib/utils/textFormatter.ts:2-13 | After the replace chain there are only single plain spaces, every `.` is spaced, no `#` is followed by a space, and a blank input gives "" or " ". |
| TextFormatter.ReassembleOneLine | lib/utils/textFormatter.ts:15-32 | On a text without line breaks the split / trim / filter / join / trim / replace tail is exactly `trim()`. |
| TextFormatter.Reassemble | lib/utils/textFormatter.ts:15-32 | On a text without line breaks the tail is `trim()`. |
| TextFormatter.FormatAIResponse | lib/utils/textFormatter.ts:1-35 | The output has no line break, only single plain spaces, and none at either end. Every inner `.` is followed by a space, no `#` is followed by a space, and a blank input gives "". |
| TextFormatter.BlankChain | lib/utils/textFormatter.ts:4-12 | A blank text passes unchanged through every step up to line 12. |
| FormatterExamples.BulletExample | lib/utils/textFormatter.ts:9 | "- " followed by a plain word w becomes "1. w". |
| FormatterExamples.BoldExample | lib/utils/textFormatter.ts:4 | "\*\*w\*\* v" becomes "w v" for plain words w and v. |
| FormatterExamples.HeadingExample | lib/utils/textFormatter.ts:7-13 | "## w\nv" becomes "w v" for plain words w and v. |
| FormatterExamples.NotIdempotentCode | lib/utils/textFormatter.ts:6 | "\`\`a\`b\`" becomes "\`ab\`", which becomes "ab": formatting twice differs from formatting once. |
| FormatterExamples.NotIdempotentBold | lib/utils/textFormatter.ts:4 | "\*\*\*a\*b\*" becomes "\*ab\*", which becomes "ab". |
| AssignmentList.FilterAssignments | app/dashboard/assignments/index.tsx:71-77 | The result holds exactly the assignments whose lower-cased title or subject contains the lower-cased query, each as often as in the input. |
| AssignmentList.MatchesQuery | app/dashboard/assignments/index.tsx:72-76 | The filter callback: the lower-cased title or the lower-cased subject contains the lower-cased query. |
| AssignmentList.QueryTest | app/dashboard/assignments/index.tsx:72-76 | The same callback as a function value, which `filter` is given. |
| AssignmentList.FilterKeepsOrder | app/dashboard/assignments/index.tsx:72-76 | Filtering distributes over concatenation, so the result is the in-order sublist. |
| AssignmentList.EmptyQueryKeepsAll | app/dashboard/assignments/index.tsx:74-75 | An empty query keeps every assignment. |
| AssignmentList.SearchIgnoresQueryCase | app/dashboard/assignments/index.tsx:74-75 | Lower-casing the query first changes nothing. |
| AssignmentList.GroupByStatus | app/dashboard/assignments/index.tsx:109-118 | Each section holds exactly the filtered assignments with its status, as often as they occur. |
| AssignmentList.StatusTest | app/dashboard/assignments/index.tsx:111-115 | The section callback `(a) => a.status === status`. |
| AssignmentList.SectionsDisjoint | app/dashboard/assignments/index.tsx:111-115 | No assignment is in two sections, and one with any other status is in none. |
| AssignmentList.SectionsKeepOrder | app/dashboard/assignments/index.tsx:109-118 | Every section keeps the order of the filtered list. |
| AssignmentList.StatusColor | app/dashboard/assignments/index.tsx:85-95 | "completed" gives #4CAF50 and "in_progress" gives #2196F3, each if and only if. Every other status gives #FFA000. |
| AssignmentList.StatusIcon | app/dashboard/assignments/index.tsx:97-107 | "completed" gives check-circle and "in_progress" gives progress-clock, each if and only if. Every other status gives pencil-outline. |
| AssignmentList.StatusLabel | app/dashboard/assignments/index.tsx:318 | Only the first `_` becomes a space, and the whole text is upper-cased. |
| AssignmentList.LabelAtFirstUnderscore | app/dashboard/assignments/index.tsx:318 | For a status `a_b` with no `_` in `a`, the chip is upper(a) + " " + upper(b), even when `b` has more `_`. |
| AssignmentList.StatusLabelExamples | app/dashboard/assignments/index.tsx:318 | "in_progress" gives "IN PROGRESS", "draft" gives "DRAFT", and "a_b_c" gives "A B_C". |
| AssignmentList.FirstQuestion | app/dashboard/assignments/index.tsx:279-280 | The text before the first `\n`, or "No questions added" when that text is empty or there are no instructions. |
| AssignmentList.QuestionCount | app/dashboard/assignments/index.tsx:281-283 | At most the number of `\n`-separated lines, and 0 without instructions. The lemmas below pin it down to the count of lines that are not blank. |
| AssignmentList.QuestionCountAdditive | app/dashboard/assignments/index.tsx:281-283 | The count of the texts `a` and `b` joined by a `\n` is the sum of their counts. |
| AssignmentList.QuestionCountOneLine | app/dashboard/assignments/index.tsx:281-283 | A single line counts 1 unless it is blank. |
| AssignmentList.NoQuestionsIffBlank | app/dashboard/assignments/index.tsx:281-283 | The count is 0 exactly when the instructions are all white space. |
| AssignmentList.CardPreviewExamples | app/dashboard/assignments/index.tsx:279-283 | Missing instructions give the placeholder and 0, "\nQ2" gives the placeholder, and "Q1\nQ2" gives "Q1". |
| AIResponses.GenerateStep | hooks/useAIResponses.ts:59-66 | Success means a non-empty reply and a successful save. Then the saved row is returned and put at the head of the unchanged list. An empty reply throws "No response from …", a provider or store error is rethrown, and on every failure the list is unchanged. |
| AIResponses.Message | hooks/useAIResponses.ts:59-88 | The text of a thrown error: "No response from OpenAI" or "No response from Gemini" for an empty reply, otherwise the message of the provider's or the store's error, passed on unchanged. |
| AIResponses.GenerateResponseStep | hooks/useAIResponses.ts:115-122 | The result is OpenAI's when that call succeeds, otherwise exactly the Gemini call from the same list. The list gains only the returned row. |
| AIResponses.GeminiUnusedAfterOpenAI | hooks/useAIResponses.ts:115-122 | When OpenAI succeeds, Gemini's reply cannot change anything. |
| AIResponses.WithoutId | hooks/useAIResponses.ts:134-136 | After a delete no row has the id, and every other row is kept as often as before. |
| AIResponses.DeleteKeepsOrder | hooks/useAIResponses.ts:134-136 | Deleting distributes over concatenation, so the other rows keep their order. |
| AIResponses.DeleteAbsentId | hooks/useAIResponses.ts:134-136 | Deleting an id that is not in the list changes nothing. |
| AIResponses.GenerateThenDelete | hooks/useAIResponses.ts:65-136 | Deleting the id of a freshly prepended row whose id was new gives back the earlier list. |
| AIResponses.ResponseCache.constructor | hooks/useAIResponses.ts:16-17 | Empty list, `loading` true. |
| AIResponses.ResponseCache.FetchResponses | hooks/useAIResponses.ts:23-38 | A fetch that succeeds replaces the list with the rows, or [] when there are none. A failed fetch keeps it. `loading` is false afterwards either way. |
| AIResponses.ResponseCache.GenerateWith | hooks/useAIResponses.ts:40-96 | Result and new list are those of `GenerateStep`, and `loading` is untouched. |
| AIResponses.ResponseCache.GenerateResponse | hooks/useAIResponses.ts:115-122 | Result and new list are those of `GenerateResponseStep`. |
| AIResponses.ResponseCache.DeleteResponse | hooks/useAIResponses.ts:124-142 | When the store succeeds, every row with the id is dropped and true is returned. When it fails, the error is rethrown and the list is kept. |
| Middleware.Decide | middleware.ts:5-39 | There are three cases, each if and only if. A sign-in path with a session redirects to "/dashboard". A protected path without a session redirects to "/login", with `redirectedFrom` set to the path. Everything else passes. |
| Middleware.IsAuthRoute | middleware.ts:14-17 | The sign-in test: the path starts with "/login" or "/register". |
| Middleware.IsProtectedRoute | middleware.ts:25-30 | The protected test: the path starts with "/dashboard", "/assignments", "/profile" or "/onboarding". |
| Middleware.AuthRouteLetter | middleware.ts:14-17 | Every sign-in path has `l` or `r` as its second character. |
| Middleware.ProtectedRouteLetter | middleware.ts:25-30 | Every protected path has `d`, `a`, `p` or `o` as its second character. |
| Middleware.NoRedirectLoop | middleware.ts:14-38 | With a session there is never a redirect to "/login"; without one, never a redirect to "/dashboard". |
| Middleware.RouteFamiliesDisjoint | middleware.ts:14-30 | No path is both a sign-in path and a protected path. |
| Middleware.RedirectTargetPasses | middleware.ts:14-38 | The target of a redirect passes the guard with the same session state. |
| Middleware.PrefixMatchingExamples | middleware.ts:15-29 | Raw prefix matching: "/loginx" is a sign-in path and "/profiles" a protected path. |
| JsString.Trim | lib/pdf/generator.ts:73 | `String.prototype.trim` never lengthens the text, gives "" exactly for an all-white-space text, and otherwise gives a text with no white space at either end. |
| JsString.TrimSlice | lib/pdf/generator.ts:73 | What `trim` keeps is one contiguous slice of the text, with only white space cut on either side. |
| JsString.Split | lib/pdf/generator.ts:69 | `String.prototype.split` with a one-character separator gives at least one piece, and no piece contains the separator. |
| JsString.JoinSplit | lib/utils/textFormatter.ts:15-29 | Joining the pieces of a split with the same separator gives back the text. |
| JsString.SplitJoin | lib/utils/textFormatter.ts:15-29 | Splitting the join of separator-free pieces gives back the pieces. |
| JsString.SplitHead | app/dashboard/assignments/index.tsx:280 | The first piece of a split is the text before the first separator. |
| JsString.IndexOf | app/dashboard/assignments/index.tsx:318 | The position of the first occurrence of a character: none occurs before it, and the character is there unless the position is the length. |
| JsString.Contains | app/dashboard/assignments/index.tsx:74-75 | `String.prototype.includes` holds exactly when the text has the sub-text at some position. |
| JsString.ReplaceFirst | app/dashboard/assignments/index.tsx:318 | `replace` with a one-character string pattern changes only the first occurrence, or nothing when there is none, so the length stays. |
| JsString.ToUpper | app/dashboard/assignments/index.tsx:318 | `toUpperCase` maps every character on its own and keeps the length. |
| JsString.ToLower | app/dashboard/assignments/index.tsx:74-75 | `toLowerCase` maps every character on its own and keeps the length. |
| JsArray.Keep | app/dashboard/assignments/index.tsx:72-76 | `Array.prototype.filter` never lengthens the list, and every element kept passes the test. |
| JsArray.KeepMultiset | app/dashboard/assignments/index.tsx:72-76 | `filter` keeps each element that passes the test as often as it occurs, and no other element. |
| JsArray.KeepAppend | app/dashboard/assignments/index.tsx:72-76 | `filter` distributes over concatenation, so it keeps the order. |

## Left out

- pdf-lib itself is not modelled: font embedding, glyph metrics, rendering and the `save()` bytes. The width of a text is a function parameter, and the output is the page count and the draw log.
- PdfGenerator.GenerateDocument: measuring and drawing text never fail in the model. pdf-lib's standard fonts encode only WinAnsi characters and throw on any other, such as a tab, a carriage return from CRLF input, an arrow or an emoji, and lines 121-124 rethrow. An `Ok` result therefore describes only content that the chosen standard font can encode. pdf-lib is not part of this model.
- The page size comes from `addPage()` in pdf-lib. Here it is a parameter (`width`, `height`).
- Floating point: coordinates, font sizes and widths are mathematical reals.
- `console.error` / `console.log` output is not modelled.
- The `options` default is not applied automatically. A caller that passes no options passes `DefaultOptions`.
- PdfGenerator.GenerateDocument: the result does not carry the school details' `department`, because the source draws it only in commented-out code.
- AssignmentList.StatusLabel: `toUpperCase` is modelled for the ASCII letters only, because Unicode case mapping is not available here. The same holds for `toLowerCase` in AssignmentList.FilterAssignments.
- AssignmentList.FilterAssignments: the React state update and the re-render that follows are not modelled.
- `isOverdue` on the assignment card reads the wall clock, so it is not modelled.
- The fetch of the assignments and the server-side ordering by `created_at` of the fetched AI responses are Supabase network calls. They are not modelled.
- AIResponses: every network call is a parameter of the model. This covers the OpenAI and Gemini replies, the insert, the fetch and the delete. The prompts sent to the providers and the model names are not modelled.
- AIResponses.ResponseCache: the hook's calls run one at a time. Interleaved asynchronous calls and React's batching of state updates are not modelled.
- Middleware.Decide: the redirect target is a path on the request's origin, not a full URL. The Supabase session lookup is the `hasSession` parameter.
- The framework's `config.matcher` is not modelled.
- The `line.match(/^\d+\./)` test in `formatAIResponse` returns the line from both branches. The model therefore has the one branch.

## Findings

| source | as written | input that shows it | evidently intended | confidence | as-written member | corrected member |
|---|---|---|---|---|---|---|
| lib/pdf/generator.ts:23 | `page` is declared `const`, but line 102 assigns to it on a page break. The assignment throws a TypeError, which lines 121-124 log and rethrow, so no text longer than one page can be turned into a PDF. | content "a\nb", no school details, default options, a 200 × 100 page, every text of width 0 | the page break adds a page and moves the cursor back to `height - 50`, giving "a" on page 1 and "b" on page 2 | not executed | PdfPageBreak.TwoLinesThrow | PdfPageBreak.TwoLinesNeedTwoPages |

`Layout.constPage` chooses between the two versions: `true` is the code as written, `false` is the intended page break. `PdfPageBreak.GenerateAgrees` proves that the two agree exactly on the documents that fit on one page. Every layout property in `PdfProperties` holds for both versions.
