/** The rules of the mobile client's assignment list screen: the search filter,
    the three status sections, the status chip's colour, icon and label, and the
    question preview and count shown on each card. */
module AssignmentList {
  import opened Wrappers
  import opened JsString
  import opened JsArray

  /** One row of the `assignments` table as the screen reads it. The instructions
      are read with optional chaining, so a row may lack them. */
  datatype Assignment = Assignment(
    id: string,
    title: string,
    subject: string,
    dueDate: string,
    status: string,
    createdAt: string,
    instructions: Option<string>)

  // ---------------------------------------------------------------- search filter

  /** The search test: the lower-cased title or subject contains the lower-cased query. */
  predicate MatchesQuery(a: Assignment, query: string) {
    Contains(ToLower(a.title), ToLower(query)) || Contains(ToLower(a.subject), ToLower(query))
  }

  /** The filter predicate for one query, as a value so that every use is the same function. */
  function QueryTest(query: string): Assignment -> bool {
    a => MatchesQuery(a, query)
  }

  /** `filterAssignments`: the assignments that match the query. */
  function FilterAssignments(assignments: seq<Assignment>, query: string): (r: seq<Assignment>)
    ensures forall i | 0 <= i < |r| :: MatchesQuery(r[i], query)
    ensures forall a :: multiset(r)[a] == if MatchesQuery(a, query) then multiset(assignments)[a] else 0
  {
    KeepMultiset(assignments, QueryTest(query));
    Keep(assignments, QueryTest(query))
  }

  /** The filter keeps the list's order: filtering two halves and concatenating is filtering the whole. */
  lemma FilterKeepsOrder(xs: seq<Assignment>, ys: seq<Assignment>, query: string)
    ensures FilterAssignments(xs + ys, query) == FilterAssignments(xs, query) + FilterAssignments(ys, query)
  {
    KeepAppend(xs, ys, QueryTest(query));
  }

  /** An empty search box shows every assignment: every string contains "". */
  lemma {:induction false} EmptyQueryKeepsAll(assignments: seq<Assignment>)
    ensures FilterAssignments(assignments, "") == assignments
  {
    forall i | 0 <= i < |assignments|
      ensures QueryTest("")(assignments[i])
    {
      var t := ToLower(assignments[i].title);
      assert StartsWith(t[0..], "");
    }
    KeepAll(assignments, QueryTest(""));
  }

  /** The search ignores ASCII letter case in the query. */
  lemma {:induction false} SearchIgnoresQueryCase(assignments: seq<Assignment>, query: string)
    ensures FilterAssignments(assignments, ToLower(query)) == FilterAssignments(assignments, query)
  {
    var q := ToLower(query);
    assert ToLower(q) == q by {
      forall i | 0 <= i < |q| ensures ToLower(q)[i] == q[i] {
      }
    }
    KeepCongruent(assignments, QueryTest(q), QueryTest(query));
  }

  // ---------------------------------------------------------------- status sections

  /** The three sections the screen lists, in screen order. */
  datatype StatusGroups = StatusGroups(
    inProgress: seq<Assignment>,
    draft: seq<Assignment>,
    completed: seq<Assignment>)

  function StatusTest(status: string): Assignment -> bool {
    (a: Assignment) => a.status == status
  }

  /** `groupAssignmentsByStatus`: each section holds the filtered assignments with its status. */
  function GroupByStatus(filtered: seq<Assignment>): (g: StatusGroups)
    ensures forall a :: multiset(g.inProgress)[a] == if a.status == "in_progress" then multiset(filtered)[a] else 0
    ensures forall a :: multiset(g.draft)[a] == if a.status == "draft" then multiset(filtered)[a] else 0
    ensures forall a :: multiset(g.completed)[a] == if a.status == "completed" then multiset(filtered)[a] else 0
  {
    KeepMultiset(filtered, StatusTest("in_progress"));
    KeepMultiset(filtered, StatusTest("draft"));
    KeepMultiset(filtered, StatusTest("completed"));
    StatusGroups(
      Keep(filtered, StatusTest("in_progress")),
      Keep(filtered, StatusTest("draft")),
      Keep(filtered, StatusTest("completed")))
  }

  /** No assignment is listed in two sections, and one with any other status is listed in none. */
  lemma SectionsDisjoint(filtered: seq<Assignment>, a: Assignment)
    ensures var g := GroupByStatus(filtered);
      && (a in g.inProgress ==> a !in g.draft && a !in g.completed)
      && (a in g.draft ==> a !in g.completed)
      && (a.status !in {"in_progress", "draft", "completed"} ==>
            a !in g.inProgress && a !in g.draft && a !in g.completed)
  {
    var g := GroupByStatus(filtered);
    assert a in g.inProgress <==> multiset(g.inProgress)[a] > 0;
    assert a in g.draft <==> multiset(g.draft)[a] > 0;
    assert a in g.completed <==> multiset(g.completed)[a] > 0;
  }

  /** Every section is in the order of the filtered list. */
  lemma SectionsKeepOrder(xs: seq<Assignment>, ys: seq<Assignment>)
    ensures GroupByStatus(xs + ys) == StatusGroups(
      GroupByStatus(xs).inProgress + GroupByStatus(ys).inProgress,
      GroupByStatus(xs).draft + GroupByStatus(ys).draft,
      GroupByStatus(xs).completed + GroupByStatus(ys).completed)
  {
    KeepAppend(xs, ys, StatusTest("in_progress"));
    KeepAppend(xs, ys, StatusTest("draft"));
    KeepAppend(xs, ys, StatusTest("completed"));
  }

  // ---------------------------------------------------------------- status chip

  /** `getStatusColor`. */
  function StatusColor(status: string): (color: string)
    ensures color == "#4CAF50" <==> status == "completed"
    ensures color == "#2196F3" <==> status == "in_progress"
    ensures color == "#FFA000" <==> status != "completed" && status != "in_progress"
  {
    match status
    case "completed" => "#4CAF50"
    case "in_progress" => "#2196F3"
    case _ => "#FFA000"
  }

  /** `getStatusIcon`. */
  function StatusIcon(status: string): (icon: string)
    ensures icon == "check-circle" <==> status == "completed"
    ensures icon == "progress-clock" <==> status == "in_progress"
    ensures icon == "pencil-outline" <==> status != "completed" && status != "in_progress"
  {
    match status
    case "completed" => "check-circle"
    case "in_progress" => "progress-clock"
    case _ => "pencil-outline"
  }

  /** The chip text: the first "_" (only the first) becomes a space, then the text is upper-cased. */
  function StatusLabel(status: string): (chip: string)
    ensures |chip| == |status|
    ensures '_' !in status ==> chip == ToUpper(status)
    ensures '_' in status ==>
      var i := IndexOf(status, '_');
      chip == ToUpper(status[..i]) + " " + ToUpper(status[i + 1..])
  {
    var replaced := ReplaceFirst(status, '_', ' ');
    assert '_' in status ==> replaced == status[..IndexOf(status, '_')] + " " + status[IndexOf(status, '_') + 1..];
    ToUpper(replaced)
  }

  /** A status whose first `_` follows the word `a`: the chip is `a` and the rest
      upper-cased, with a space between. */
  lemma LabelAtFirstUnderscore(a: string, b: string)
    requires '_' !in a
    ensures StatusLabel(a + "_" + b) == ToUpper(a) + " " + ToUpper(b)
  {
    var s := a + "_" + b;
    assert s == a + ("_" + b);
    IndexOfAfter(a, "_" + b, '_');
    assert IndexOf(s, '_') == |a|;
    assert s[..|a|] == a && s[|a| + 1..] == b;
  }

  /** The chip texts of the three sections, and of a status with two underscores. */
  lemma StatusLabelExamples()
    ensures StatusLabel("in_progress") == "IN PROGRESS"
    ensures StatusLabel("draft") == "DRAFT"
    ensures StatusLabel("a_b_c") == "A B_C"
  {
    InProgressLabel();
    DraftLabel();
    TwoUnderscoresLabel();
  }

  lemma InProgressLabel()
    ensures StatusLabel("in_progress") == "IN PROGRESS"
  {
    InProgressParts();
    LabelAtFirstUnderscore("in", "progress");
    UpperProgress();
  }

  lemma InProgressParts()
    ensures "in_progress" == "in" + "_" + "progress"
    ensures "IN" + " " + "PROGRESS" == "IN PROGRESS"
    ensures '_' !in "in"
  {
  }

  lemma UpperProgress()
    ensures ToUpper("in") == "IN" && ToUpper("progress") == "PROGRESS"
  {
    assert ToUpper("in") == "IN";
    var u := ToUpper("progress");
    assert u[0] == 'P' && u[1] == 'R' && u[2] == 'O' && u[3] == 'G';
    assert u[4] == 'R' && u[5] == 'E' && u[6] == 'S' && u[7] == 'S';
  }

  lemma DraftLabel()
    ensures StatusLabel("draft") == "DRAFT"
  {
    assert '_' !in "draft";
    UpperDraft();
  }

  lemma UpperDraft()
    ensures ToUpper("draft") == "DRAFT"
  {
    var u := ToUpper("draft");
    assert u[0] == 'D' && u[1] == 'R' && u[2] == 'A' && u[3] == 'F' && u[4] == 'T';
  }

  lemma TwoUnderscoresLabel()
    ensures StatusLabel("a_b_c") == "A B_C"
  {
    TwoUnderscoresParts();
    LabelAtFirstUnderscore("a", "b_c");
    UpperTail();
  }

  lemma UpperTail()
    ensures ToUpper("a") == "A" && ToUpper("b_c") == "B_C"
  {
    assert ToUpper("a") == "A";
    var u := ToUpper("b_c");
    assert u[0] == 'B' && u[1] == '_' && u[2] == 'C';
  }

  lemma TwoUnderscoresParts()
    ensures "a_b_c" == "a" + "_" + "b_c"
    ensures "A" + " " + "B_C" == "A B_C"
    ensures '_' !in "a"
  {
  }

  // ---------------------------------------------------------------- card preview

  const NoQuestionsAdded := "No questions added"

  /** `firstQuestion`: the instructions' text before the first newline, or the
      placeholder when that text is empty or the instructions are missing. */
  function FirstQuestion(instructions: Option<string>): (r: string)
    ensures instructions.None? ==> r == NoQuestionsAdded
    ensures instructions.Some? ==>
      var s := instructions.value;
      var k := IndexOf(s, '\n');
      r == if k == 0 then NoQuestionsAdded else s[..k]
  {
    match instructions
    case None => NoQuestionsAdded
    case Some(s) =>
      var first := Split(s, '\n')[0];
      SplitHead(s, '\n');
      if first == "" then NoQuestionsAdded else first
  }

  predicate IsQuestionLine(line: string) {
    Trim(line) != ""
  }

  /** `questionCount`: the number of instruction lines that are not blank, 0 without instructions. */
  function QuestionCount(instructions: Option<string>): (n: nat)
    ensures instructions.None? ==> n == 0
    ensures instructions.Some? ==> n <= |Split(instructions.value, '\n')|
  {
    match instructions
    case None => 0
    case Some(s) => |Keep(Split(s, '\n'), IsQuestionLine)|
  }

  /** A single line counts as one question exactly when it is not blank. */
  lemma {:induction false} QuestionCountOneLine(line: string)
    requires '\n' !in line
    ensures QuestionCount(Some(line)) == if IsBlank(line) then 0 else 1
  {
    SplitNoSeparator(line, '\n');
  }

  /** Counting is additive over the lines: a newline separates two independent counts. */
  lemma {:induction false} QuestionCountAdditive(a: string, b: string)
    ensures QuestionCount(Some(a + "\n" + b)) == QuestionCount(Some(a)) + QuestionCount(Some(b))
  {
    SplitConcat(a, b, '\n');
    KeepAppend(Split(a, '\n'), Split(b, '\n'), IsQuestionLine);
  }

  /** No question is counted exactly when the instructions are all white space. */
  lemma {:induction false} NoQuestionsIffBlank(s: string)
    ensures QuestionCount(Some(s)) == 0 <==> IsBlank(s)
  {
    var lines := Split(s, '\n');
    JoinSplit(s, '\n');
    BlankLines(lines);
    KeepEmptyIff(lines, IsQuestionLine);
    assert forall i | 0 <= i < |lines| :: IsQuestionLine(lines[i]) <==> !IsBlank(lines[i]);
  }

  /** A join of lines with newlines is blank exactly when every line is. */
  lemma {:induction false} BlankLines(lines: seq<string>)
    ensures IsBlank(Join(lines, "\n")) <==> forall i | 0 <= i < |lines| :: IsBlank(lines[i])
  {
    if |lines| > 1 {
      var rest := Join(lines[1..], "\n");
      BlankLines(lines[1..]);
      assert Join(lines, "\n") == lines[0] + ("\n" + rest);
      BlankConcat(lines[0], "\n" + rest);
      BlankConcat("\n", rest);
      assert IsBlank("\n");
      assert forall i | 1 <= i < |lines| :: lines[i] == lines[1..][i - 1];
    }
  }

  lemma BlankConcat(a: string, b: string)
    ensures IsBlank(a + b) <==> IsBlank(a) && IsBlank(b)
  {
    if IsBlank(a) && IsBlank(b) {
      forall i | 0 <= i < |a + b| ensures IsSpace((a + b)[i]) {
        if i >= |a| { assert (a + b)[i] == b[i - |a|]; }
      }
    }
    if IsBlank(a + b) {
      forall i | 0 <= i < |a| ensures IsSpace(a[i]) {
        assert (a + b)[i] == a[i];
      }
      forall i | 0 <= i < |b| ensures IsSpace(b[i]) {
        assert (a + b)[|a| + i] == b[i];
      }
    }
  }

  lemma CardPreviewExamples()
    ensures FirstQuestion(None) == NoQuestionsAdded && QuestionCount(None) == 0
    ensures FirstQuestion(Some("\nQ2")) == NoQuestionsAdded
    ensures FirstQuestion(Some("Q1\nQ2")) == "Q1"
  {
    assert IndexOf("\nQ2", '\n') == 0;
    assert IndexOf("Q1\nQ2", '\n') == 2;
  }
}
