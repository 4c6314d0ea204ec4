/** The issue detector: seven rules, applied in a fixed order, each
    appending issues to the report. The long-line rule adds one issue per
    offending line; every other rule adds at most one. */
module Issues {
  import opened Text
  import opened Messages
  import LineMetrics

  datatype Severity = Critical | High | Medium | Low | Info

  /** An issue; its description is `Describe(message)`. */
  datatype Issue = Issue(severity: Severity, message: Message, line: nat)

  // ---------------------------------------------------------------------
  // Rule 1: lines longer than the limit

  /** One medium issue per line longer than `MaxLineLength`, in line order,
      numbered from 1. */
  function LongLineIssues(lines: seq<string>): (r: seq<Issue>)
    ensures |r| <= |lines|
  {
    if |lines| == 0 then []
    else
      var n := |lines|;
      LongLineIssues(lines[..n - 1])
      + (if |lines[n - 1]| > MaxLineLength then [Issue(Medium, LongLine(n, |lines[n - 1]|), n)] else [])
  }

  /** Every issue of `r` reports a line of `lines` that is too long, with
      its number (from 1) and length. */
  predicate ReportsOnlyLongLines(r: seq<Issue>, lines: seq<string>) {
    forall k | 0 <= k < |r| ::
      1 <= r[k].line <= |lines| && |lines[r[k].line - 1]| > MaxLineLength
      && r[k] == Issue(Medium, LongLine(r[k].line, |lines[r[k].line - 1]|), r[k].line)
  }

  /** The issues of `r` are in increasing line order. */
  predicate InLineOrder(r: seq<Issue>) {
    forall k, j | 0 <= k < j < |r| :: r[k].line < r[j].line
  }

  /** Every line of `lines` that is too long is reported in `r`. */
  predicate ReportsEveryLongLine(r: seq<Issue>, lines: seq<string>) {
    forall i | 0 <= i < |lines| && |lines[i]| > MaxLineLength :: exists k | 0 <= k < |r| :: r[k].line == i + 1
  }

  /** `r` reports, in increasing line order, exactly the lines of `lines`
      that are too long. */
  predicate ReportsLongLines(r: seq<Issue>, lines: seq<string>) {
    ReportsOnlyLongLines(r, lines) && InLineOrder(r) && ReportsEveryLongLine(r, lines)
  }

  /** The long-line issues of `lines` extend those of all but its last line
      by at most the issue for that line. */
  lemma LongLineIssuesStep(lines: seq<string>)
    requires |lines| > 0
    ensures var n := |lines|;
      LongLineIssues(lines) == LongLineIssues(lines[..n - 1])
        + (if |lines[n - 1]| > MaxLineLength then [Issue(Medium, LongLine(n, |lines[n - 1]|), n)] else [])
  {
  }

  lemma {:induction false} LongLineIssuesOnlyLong(lines: seq<string>)
    ensures ReportsOnlyLongLines(LongLineIssues(lines), lines)
  {
    if |lines| > 0 {
      var n := |lines|;
      var front := lines[..n - 1];
      LongLineIssuesOnlyLong(front);
      LongLineIssuesStep(lines);
      var p := LongLineIssues(front);
      var r := LongLineIssues(lines);
      forall k | 0 <= k < |r|
        ensures 1 <= r[k].line <= |lines| && |lines[r[k].line - 1]| > MaxLineLength
        ensures r[k] == Issue(Medium, LongLine(r[k].line, |lines[r[k].line - 1]|), r[k].line)
      {
        if k < |p| {
          assert r[k] == p[k];
          assert front[p[k].line - 1] == lines[p[k].line - 1];
        }
      }
    }
  }

  lemma {:induction false} LongLineIssuesOrdered(lines: seq<string>)
    ensures InLineOrder(LongLineIssues(lines))
  {
    if |lines| > 0 {
      var n := |lines|;
      var front := lines[..n - 1];
      LongLineIssuesOrdered(front);
      LongLineIssuesOnlyLong(front);
      LongLineIssuesStep(lines);
      var p := LongLineIssues(front);
      var r := LongLineIssues(lines);
      forall k, j | 0 <= k < j < |r| ensures r[k].line < r[j].line {
        assert r[k] == p[k];
        if j < |p| {
          assert r[j] == p[j];
        }
      }
    }
  }

  lemma {:induction false} LongLineIssuesComplete(lines: seq<string>)
    ensures ReportsEveryLongLine(LongLineIssues(lines), lines)
  {
    if |lines| > 0 {
      var n := |lines|;
      var front := lines[..n - 1];
      LongLineIssuesComplete(front);
      LongLineIssuesStep(lines);
      var p := LongLineIssues(front);
      var r := LongLineIssues(lines);
      forall i | 0 <= i < n && |lines[i]| > MaxLineLength
        ensures exists k | 0 <= k < |r| :: r[k].line == i + 1
      {
        if i < n - 1 {
          assert front[i] == lines[i];
          var k :| 0 <= k < |p| && p[k].line == i + 1;
          assert r[k] == p[k];
        } else {
          assert r[|p|].line == n;
        }
      }
    }
  }

  lemma LongLineIssuesReport(lines: seq<string>)
    ensures ReportsLongLines(LongLineIssues(lines), lines)
  {
    LongLineIssuesOnlyLong(lines);
    LongLineIssuesOrdered(lines);
    LongLineIssuesComplete(lines);
  }

  // ---------------------------------------------------------------------
  // Rule 2: calls to eval

  /** `/\beval\s*\(/` matches at position `i`. */
  predicate EvalCallAt(code: string, i: nat) {
    i + 4 <= |code| && IsWordBoundary(code, i) && code[i..i + 4] == "eval"
    && var j := i + 4 + LeadingSpaces(code[i + 4..]);
       j < |code| && code[j] == '('
  }

  /** `code.match(/\beval\s*\(/g)` is not null. */
  predicate HasEvalCall(code: string) {
    exists i | 0 <= i < |code| :: EvalCallAt(code, i)
  }

  /** The numbers (from 1) of the lines that contain `eval(`, in order. */
  function EvalLineNumbers(lines: seq<string>): (r: seq<nat>)
    ensures |r| <= |lines|
  {
    if |lines| == 0 then []
    else
      var n := |lines|;
      EvalLineNumbers(lines[..n - 1]) + (if Contains(lines[n - 1], "eval(") then [n] else [])
  }

  lemma EvalLineNumbersStep(lines: seq<string>)
    requires |lines| > 0
    ensures var n := |lines|;
      EvalLineNumbers(lines) == EvalLineNumbers(lines[..n - 1]) + (if Contains(lines[n - 1], "eval(") then [n] else [])
  {
  }

  /** Every number listed is that of a line containing `eval(`. */
  lemma {:induction false} EvalLineNumbersSound(lines: seq<string>)
    ensures forall k | 0 <= k < |EvalLineNumbers(lines)| ::
      1 <= EvalLineNumbers(lines)[k] <= |lines| && Contains(lines[EvalLineNumbers(lines)[k] - 1], "eval(")
  {
    if |lines| > 0 {
      var n := |lines|;
      var front := lines[..n - 1];
      EvalLineNumbersSound(front);
      EvalLineNumbersStep(lines);
      var p := EvalLineNumbers(front);
      var r := EvalLineNumbers(lines);
      forall k | 0 <= k < |r|
        ensures 1 <= r[k] <= |lines| && Contains(lines[r[k] - 1], "eval(")
      {
        if k < |p| {
          assert r[k] == p[k];
          assert front[p[k] - 1] == lines[p[k] - 1];
        }
      }
    }
  }

  /** The numbers are listed in increasing order. */
  lemma {:induction false} EvalLineNumbersOrdered(lines: seq<string>)
    ensures forall k, j | 0 <= k < j < |EvalLineNumbers(lines)| :: EvalLineNumbers(lines)[k] < EvalLineNumbers(lines)[j]
  {
    if |lines| > 0 {
      var n := |lines|;
      var front := lines[..n - 1];
      EvalLineNumbersOrdered(front);
      EvalLineNumbersSound(front);
      EvalLineNumbersStep(lines);
      var p := EvalLineNumbers(front);
      var r := EvalLineNumbers(lines);
      forall k, j | 0 <= k < j < |r| ensures r[k] < r[j] {
        assert r[k] == p[k];
        if j < |p| {
          assert r[j] == p[j];
        }
      }
    }
  }

  /** Every line containing `eval(` is listed. */
  lemma {:induction false} EvalLineNumbersComplete(lines: seq<string>)
    ensures forall i | 0 <= i < |lines| && Contains(lines[i], "eval(") :: i + 1 in EvalLineNumbers(lines)
  {
    if |lines| > 0 {
      var n := |lines|;
      var front := lines[..n - 1];
      EvalLineNumbersComplete(front);
      EvalLineNumbersStep(lines);
      var p := EvalLineNumbers(front);
      var r := EvalLineNumbers(lines);
      forall i | 0 <= i < n && Contains(lines[i], "eval(") ensures i + 1 in r {
        if i < n - 1 {
          assert front[i] == lines[i];
          assert i + 1 in p;
        } else {
          assert r[|p|] == n;
        }
      }
    }
  }

  function EvalIssues(code: string, lines: seq<string>): (r: seq<Issue>)
    ensures |r| <= 1
    ensures |r| == 1 <==> HasEvalCall(code)
    ensures |r| == 1 ==> r[0].severity == Critical
  {
    if HasEvalCall(code) then
      var evalLines := EvalLineNumbers(lines);
      [Issue(Critical, EvalCall(evalLines), if |evalLines| > 0 then evalLines[0] else 1)]
    else []
  }

  /** The first index of a line containing `w`, or -1: `findIndex`. */
  function FirstIndexContaining(lines: seq<string>, w: string): (r: int)
    ensures -1 <= r < |lines|
    ensures r >= 0 ==> Contains(lines[r], w)
    ensures forall i | 0 <= i < |lines| && (r == -1 || i < r) :: !Contains(lines[i], w)
  {
    if |lines| == 0 then -1
    else if Contains(lines[0], w) then 0
    else
      var r := FirstIndexContaining(lines[1..], w);
      assert forall i | 1 <= i < |lines| :: lines[i] == lines[1..][i - 1];
      if r == -1 then -1 else r + 1
  }

  /** The first number listed is that of the first line containing
      `eval(`, and the list is empty when no line contains it. */
  lemma EvalLineNumbersFirst(lines: seq<string>)
    ensures |EvalLineNumbers(lines)| > 0 <==> FirstIndexContaining(lines, "eval(") >= 0
    ensures |EvalLineNumbers(lines)| > 0 ==> EvalLineNumbers(lines)[0] == FirstIndexContaining(lines, "eval(") + 1
  {
    EvalLineNumbersSound(lines);
    EvalLineNumbersOrdered(lines);
    EvalLineNumbersComplete(lines);
    var r := EvalLineNumbers(lines);
    var first := FirstIndexContaining(lines, "eval(");
    forall k | 0 <= k < |r| ensures r[0] <= r[k] {
      if k > 0 {
        assert r[0] < r[k];
      }
    }
    if |r| > 0 {
      assert Contains(lines[r[0] - 1], "eval(");
      assert first + 1 in r;
    }
  }

  /** The eval issue points at the first line that contains `eval(`, or at
      line 1 when the call is only written with spaces before its
      parenthesis (`eval (x)`). */
  lemma EvalIssueLine(code: string, lines: seq<string>)
    requires HasEvalCall(code)
    ensures var first := FirstIndexContaining(lines, "eval(");
      EvalIssues(code, lines)[0].line == if first >= 0 then first + 1 else 1
  {
    EvalLineNumbersFirst(lines);
  }

  /** `eval (x)` is reported, at line 1, with an empty list of lines. */
  lemma SpacedEvalExample(code: string)
    requires code == "eval (x)"
    ensures EvalIssues(code, Lines(code)) == [Issue(Critical, EvalCall([]), 1)]
  {
    assert code[0..4] == "eval" && LeadingSpaces(code[4..]) == 1;
    assert EvalCallAt(code, 0);
    SplitOfOne(code, '\n');
    Mismatch(code, "eval(", 0, 4);
    Mismatch(code, "eval(", 1, 0);
    Mismatch(code, "eval(", 2, 0);
    Mismatch(code, "eval(", 3, 0);
    assert !Contains(code, "eval(");
    assert EvalLineNumbers([code]) == [] by {
      assert [code][..0] == [];
    }
  }

  /** `myeval(x)` contains `eval(` but is not reported: `\b` fails between
      `y` and `e`. */
  lemma WordBoundEvalExample(code: string)
    requires code == "myeval(x)"
    ensures Contains(code, "eval(")
    ensures EvalIssues(code, Lines(code)) == []
  {
    SplitOfOne(code, '\n');
    assert OccursAt(code, "eval(", 2);
    forall i | 0 <= i < |code| ensures !EvalCallAt(code, i) {
      if i != 2 {
        if i + 4 <= |code| {
          Mismatch(code, "eval", i, 0);
        }
      } else {
        assert !IsWordBoundary(code, 2);
      }
    }
  }

  // ---------------------------------------------------------------------
  // Rules 3 to 5: complexity, comments, debug output

  function ComplexityIssues(proxy: nat): seq<Issue> {
    if proxy > 18 then [Issue(High, VeryHighComplexity(proxy), 1)]
    else if proxy > 10 then [Issue(Medium, HighComplexity(proxy), 1)]
    else []
  }

  function LowCommentIssues(metrics: LineMetrics.Metrics): seq<Issue> {
    if metrics.actualCodeLines > 30 && metrics.commentTenths < 150 then
      [Issue(Medium, LowComments(metrics.commentTenths), 1)]
    else []
  }

  function DebugOutputIssues(debugCount: nat): seq<Issue> {
    if debugCount >= 3 then [Issue(Low, DebugOutput(debugCount), 1)] else []
  }

  // ---------------------------------------------------------------------
  // Rule 6: deep nesting

  /** `Math.floor(leadingSpaces / 4) + leadingTabs`: the leading whitespace
      (tabs included) in units of four, plus the leading tabs once more. */
  function NestingDepth(line: string): nat {
    LeadingSpaces(line) / 4 + LeadingTabs(line)
  }

  /** Greatest nesting depth over the non-blank lines, 0 when there is none. */
  function MaxNestingDepth(lines: seq<string>): nat {
    if |lines| == 0 then 0
    else
      var m := MaxNestingDepth(lines[..|lines| - 1]);
      var line := lines[|lines| - 1];
      if !IsBlank(line) && NestingDepth(line) > m then NestingDepth(line) else m
  }

  lemma MaxNestingDepthStep(lines: seq<string>)
    requires |lines| > 0
    ensures var m := MaxNestingDepth(lines[..|lines| - 1]);
      var line := lines[|lines| - 1];
      MaxNestingDepth(lines) == if !IsBlank(line) && NestingDepth(line) > m then NestingDepth(line) else m
  {
  }

  lemma {:induction false} MaxNestingDepthIsMax(lines: seq<string>)
    ensures forall i | 0 <= i < |lines| && !IsBlank(lines[i]) :: NestingDepth(lines[i]) <= MaxNestingDepth(lines)
    ensures MaxNestingDepth(lines) == 0
      || exists i | 0 <= i < |lines| :: !IsBlank(lines[i]) && NestingDepth(lines[i]) == MaxNestingDepth(lines)
  {
    if |lines| > 0 {
      var front := lines[..|lines| - 1];
      MaxNestingDepthIsMax(front);
      assert forall i | 0 <= i < |front| :: front[i] == lines[i];
    }
  }

  function NestingIssues(lines: seq<string>): seq<Issue> {
    var depth := MaxNestingDepth(lines);
    if depth > 5 then [Issue(Medium, DeepNesting(depth), 1)] else []
  }

  lemma NestingIssuesOf(lines: seq<string>, depth: nat)
    requires depth == MaxNestingDepth(lines)
    ensures NestingIssues(lines) == if depth > 5 then [Issue(Medium, DeepNesting(depth), 1)] else []
  {
  }

  /** The nesting issue is reported exactly when some non-blank line is
      nested deeper than five levels. */
  lemma NestingIssueIff(lines: seq<string>)
    ensures |NestingIssues(lines)| == 1 <==> exists i | 0 <= i < |lines| :: !IsBlank(lines[i]) && NestingDepth(lines[i]) > 5
    ensures |NestingIssues(lines)| <= 1
  {
    MaxNestingDepthIsMax(lines);
  }

  /** The nesting rule on a single line. */
  lemma OneLineNesting(line: string)
    ensures |NestingIssues([line])| <= 1
    ensures |NestingIssues([line])| == 1 <==> !IsBlank(line) && NestingDepth(line) > 5
  {
    NestingIssueIff([line]);
  }

  /** Tabs are counted twice, once by `^\s*` and once by `^\t*`: a line
      indented by five tabs is six levels deep and raises the issue. */
  lemma TabsCountTwice(line: string)
    requires line == "\t\t\t\t\tx"
    ensures NestingDepth(line) == 6 && |NestingIssues([line])| == 1
  {
    assert LeadingSpaces(line[5..]) == 0 && LeadingTabs(line[5..]) == 0;
    assert LeadingSpaces(line) == 5 && LeadingTabs(line) == 5;
    assert !IsBlank(line) by { assert line[5] == 'x'; }
    OneLineNesting(line);
  }

  /** Spaces count once: twenty spaces, the width five tabs usually stand
      for, are five levels and raise nothing. */
  lemma SpacesCountOnce(line: string)
    requires line == "                    x"
    ensures NestingDepth(line) == 5 && NestingIssues([line]) == []
  {
    assert forall i | 0 <= i < 20 :: IsSpace(line[i]);
    assert !IsSpace(line[20]);
    assert LeadingSpaces(line) == 20 && LeadingTabs(line) == 0;
    OneLineNesting(line);
  }

  // ---------------------------------------------------------------------
  // Rule 7: Python for...else without break

  function ForElseIssues(code: string, lines: seq<string>, hasForElse: bool): seq<Issue> {
    if hasForElse && Contains(code, "if ") && !Contains(code, "break") then
      var firstForLine := FirstIndexContaining(lines, "for ") + 1;
      [Issue(High, ForElseWithoutBreak, if firstForLine > 0 then firstForLine else 1)]
    else []
  }

  lemma ForElseIssuesOf(code: string, lines: seq<string>, hasForElse: bool)
    ensures var firstForLine := FirstIndexContaining(lines, "for ") + 1;
      ForElseIssues(code, lines, hasForElse)
        == if hasForElse && Contains(code, "if ") && !Contains(code, "break")
           then [Issue(High, ForElseWithoutBreak, if firstForLine > 0 then firstForLine else 1)]
           else []
  {
  }

  // ---------------------------------------------------------------------
  // All rules

  /** The issues reported for `code`. `debugCount` is the number of matches
      of the debug-output pattern and `hasForElse` whether the for...else
      pattern matches. */
  function DetectedIssues(code: string, metrics: LineMetrics.Metrics, proxy: nat, debugCount: nat, hasForElse: bool): seq<Issue> {
    var lines := Lines(code);
    LongLineIssues(lines) + EvalIssues(code, lines) + ComplexityIssues(proxy) + LowCommentIssues(metrics)
    + DebugOutputIssues(debugCount) + NestingIssues(lines) + ForElseIssues(code, lines, hasForElse)
  }

  /** The `forEach` over the lines that pushes the long-line issues. */
  method CollectLongLineIssues(lines: seq<string>) returns (issues: seq<Issue>)
    ensures issues == LongLineIssues(lines)
  {
    issues := [];
    var i := 0;
    while i < |lines|
      invariant 0 <= i <= |lines|
      invariant issues == LongLineIssues(lines[..i])
    {
      assert lines[..i + 1][..i] == lines[..i];
      LongLineIssuesStep(lines[..i + 1]);
      if |lines[i]| > MaxLineLength {
        issues := issues + [Issue(Medium, LongLine(i + 1, |lines[i]|), i + 1)];
      }
      i := i + 1;
    }
    assert lines[..i] == lines;
  }

  /** The `forEach` that collects the numbers of the lines containing `eval(`. */
  method CollectEvalLines(lines: seq<string>) returns (evalLines: seq<nat>)
    ensures evalLines == EvalLineNumbers(lines)
  {
    evalLines := [];
    var j := 0;
    while j < |lines|
      invariant 0 <= j <= |lines|
      invariant evalLines == EvalLineNumbers(lines[..j])
    {
      assert lines[..j + 1][..j] == lines[..j];
      EvalLineNumbersStep(lines[..j + 1]);
      if Contains(lines[j], "eval(") {
        evalLines := evalLines + [j + 1];
      }
      j := j + 1;
    }
    assert lines[..j] == lines;
  }

  /** The loop that tracks the deepest nesting over the non-blank lines. */
  method FindMaxNestingDepth(lines: seq<string>) returns (maxNestingDepth: nat)
    ensures maxNestingDepth == MaxNestingDepth(lines)
  {
    maxNestingDepth := 0;
    var k := 0;
    while k < |lines|
      invariant 0 <= k <= |lines|
      invariant maxNestingDepth == MaxNestingDepth(lines[..k])
    {
      assert lines[..k + 1][..k] == lines[..k];
      MaxNestingDepthStep(lines[..k + 1]);
      var line := lines[k];
      if |Trim(line)| > 0 {
        var currentDepth := LeadingSpaces(line) / 4 + LeadingTabs(line);
        assert currentDepth == NestingDepth(line);
        if currentDepth > maxNestingDepth {
          maxNestingDepth := currentDepth;
        }
      }
      k := k + 1;
    }
    assert lines[..k] == lines;
  }

  /** The rules run in the order they push their issues; each rule's
      pushes are gathered first and then appended to the report. */
  method DetectIssues(code: string, metrics: LineMetrics.Metrics, proxy: nat, debugCount: nat, hasForElse: bool)
    returns (issues: seq<Issue>)
    ensures issues == DetectedIssues(code, metrics, proxy, debugCount, hasForElse)
  {
    var lines := Lines(code);
    issues := CollectLongLineIssues(lines);

    var evalIssue := [];
    if HasEvalCall(code) {
      var evalLines := CollectEvalLines(lines);
      evalIssue := [Issue(Critical, EvalCall(evalLines), if |evalLines| > 0 then evalLines[0] else 1)];
    }
    assert evalIssue == EvalIssues(code, lines);
    issues := issues + evalIssue;

    var complexityIssue := [];
    if proxy > 18 {
      complexityIssue := [Issue(High, VeryHighComplexity(proxy), 1)];
    } else if proxy > 10 {
      complexityIssue := [Issue(Medium, HighComplexity(proxy), 1)];
    }
    assert complexityIssue == ComplexityIssues(proxy);
    issues := issues + complexityIssue;

    var commentIssue := [];
    if metrics.actualCodeLines > 30 && metrics.commentTenths < 150 {
      commentIssue := [Issue(Medium, LowComments(metrics.commentTenths), 1)];
    }
    assert commentIssue == LowCommentIssues(metrics);
    issues := issues + commentIssue;

    var debugIssue := [];
    if debugCount >= 3 {
      debugIssue := [Issue(Low, DebugOutput(debugCount), 1)];
    }
    assert debugIssue == DebugOutputIssues(debugCount);
    issues := issues + debugIssue;

    var maxNestingDepth := FindMaxNestingDepth(lines);
    NestingIssuesOf(lines, maxNestingDepth);
    var nestingIssue := [];
    if maxNestingDepth > 5 {
      nestingIssue := [Issue(Medium, DeepNesting(maxNestingDepth), 1)];
    }
    assert nestingIssue == NestingIssues(lines);
    issues := issues + nestingIssue;

    ForElseIssuesOf(code, lines, hasForElse);
    var forElseIssue := [];
    if hasForElse && Contains(code, "if ") && !Contains(code, "break") {
      var firstForLine := FirstIndexContaining(Lines(code), "for ") + 1;
      forElseIssue := [Issue(High, ForElseWithoutBreak, if firstForLine > 0 then firstForLine else 1)];
    }
    assert forElseIssue == ForElseIssues(code, lines, hasForElse);
    issues := issues + forElseIssue;
    assert issues == LongLineIssues(lines) + EvalIssues(code, lines) + ComplexityIssues(proxy) + LowCommentIssues(metrics)
      + DebugOutputIssues(debugCount) + NestingIssues(lines) + ForElseIssues(code, lines, hasForElse);
  }

  // ---------------------------------------------------------------------
  // Properties of the whole report

  /** The rules after the first add at most one issue each. */
  lemma LaterRulesAddAtMostOne(code: string, metrics: LineMetrics.Metrics, proxy: nat, debugCount: nat, hasForElse: bool)
    ensures |EvalIssues(code, Lines(code))| <= 1 && |ComplexityIssues(proxy)| <= 1
    ensures |LowCommentIssues(metrics)| <= 1 && |DebugOutputIssues(debugCount)| <= 1
    ensures |NestingIssues(Lines(code))| <= 1 && |ForElseIssues(code, Lines(code), hasForElse)| <= 1
  {
    NestingIssueIff(Lines(code));
  }

  /** The report opens with the long-line issues, one per line that is too
      long and in line order; the six later rules add at most six more. */
  lemma DetectedIssuesShape(code: string, metrics: LineMetrics.Metrics, proxy: nat, debugCount: nat, hasForElse: bool)
    ensures DetectedIssues(code, metrics, proxy, debugCount, hasForElse)[..|LongLineIssues(Lines(code))|]
      == LongLineIssues(Lines(code))
    ensures ReportsLongLines(LongLineIssues(Lines(code)), Lines(code))
    ensures |LongLineIssues(Lines(code))| <= |DetectedIssues(code, metrics, proxy, debugCount, hasForElse)|
      <= |LongLineIssues(Lines(code))| + 6
  {
    var lines := Lines(code);
    LongLineIssuesReport(lines);
    LaterRulesAddAtMostOne(code, metrics, proxy, debugCount, hasForElse);
    var long := LongLineIssues(lines);
    var s1 := long + EvalIssues(code, lines);
    var s2 := s1 + ComplexityIssues(proxy);
    var s3 := s2 + LowCommentIssues(metrics);
    var s4 := s3 + DebugOutputIssues(debugCount);
    var s5 := s4 + NestingIssues(lines);
    var s6 := s5 + ForElseIssues(code, lines, hasForElse);
    PrefixOfAppend(long, EvalIssues(code, lines), |long|);
    PrefixOfAppend(s1, ComplexityIssues(proxy), |long|);
    PrefixOfAppend(s2, LowCommentIssues(metrics), |long|);
    PrefixOfAppend(s3, DebugOutputIssues(debugCount), |long|);
    PrefixOfAppend(s4, NestingIssues(lines), |long|);
    PrefixOfAppend(s5, ForElseIssues(code, lines, hasForElse), |long|);
    assert long[..|long|] == long;
  }

  lemma PrefixOfAppend<T>(a: seq<T>, b: seq<T>, n: nat)
    requires n <= |a|
    ensures (a + b)[..n] == a[..n]
  {
  }

  /** At most one complexity issue: "high" above 18, "medium" above 10. */
  lemma ComplexityIssuesExclusive(proxy: nat)
    ensures |ComplexityIssues(proxy)| <= 1
    ensures |ComplexityIssues(proxy)| == 1 <==> proxy > 10
    ensures |ComplexityIssues(proxy)| == 1 ==> (ComplexityIssues(proxy)[0].severity == High <==> proxy > 18)
  {
  }

  /** The for...else issue needs `if ` somewhere and `break` nowhere, and
      points at the first line containing `for `, or at line 1. */
  lemma ForElseIssueLine(code: string, hasForElse: bool)
    ensures var r := ForElseIssues(code, Lines(code), hasForElse);
      |r| <= 1
      && (|r| == 1 <==> hasForElse && Contains(code, "if ") && !Contains(code, "break"))
      && (|r| == 1 ==>
            var first := FirstIndexContaining(Lines(code), "for ");
            r[0].line == (if first >= 0 then first + 1 else 1)
            && (first >= 0 ==> Contains(Lines(code)[r[0].line - 1], "for ")))
  {
  }
}
