/** The analysis endpoint: line metrics, the complexity proxy, the issue
    report, the scores and the two complexity labels of one submitted text,
    gathered into one report. */
module Analysis {
  import opened Text
  import opened LineMetrics
  import opened ComplexityProxy
  import opened Messages
  import opened Issues
  import opened FunctionBodies
  import opened Classifiers
  import opened Scoring
  import opened Keywords

  /** What the regular expressions the model does not evaluate find in the
      submitted text: the function-definition matches, the number of debug
      print calls, whether a Python `for ... else` occurs, and the tests of
      the time and space heuristics. */
  datatype Signals = Signals(
    matches: seq<RawMatch>,
    debugLogCount: nat,
    hasForElse: bool,
    time: TimeSignals,
    space: SpaceSignals)

  /** The analysis data the endpoint returns. */
  datatype Report = Report(
    code: string,
    score: int,
    status: Status,
    loc: nat,
    commentTenths: nat,
    cyclomaticComplexityProxy: nat,
    readabilityTenths: nat,
    maintainability: int,
    timeComplexity: Bound,
    spaceComplexity: Bound,
    issues: seq<Issue>)

  /** The report of a text, rule by rule. */
  function ReportOf(code: string, sig: Signals): Report {
    var metrics := MetricsOf(code);
    var proxy := CyclomaticComplexityProxy(code);
    var issues := DetectedIssues(code, metrics, proxy, sig.debugLogCount, sig.hasForElse);
    var score := ScoreOf(issues);
    var recursive := AnyCallsItself(FunctionInfos(sig.matches));
    Report(
      code, score, StatusOf(score), metrics.actualCodeLines, metrics.commentTenths, proxy,
      ReadabilityTenths(metrics.commentTenths, Mentioning(issues, LongLinePhrase), Mentioning(issues, NestingPhrase)),
      Maintainability(proxy, Mentioning(issues, ComplexityPhrase), Mentioning(issues, LogicalIssuePhrase)),
      TimeComplexity(FactsOf(code), recursive, sig.time),
      SpaceComplexity(FirstFixture(code), recursive, sig.space),
      issues)
  }

  /** The endpoint's answer: a refusal (HTTP 400) when no code was sent,
      otherwise the analysis data. */
  datatype Response = NoCodeProvided | Analysed(report: Report)

  /** The endpoint: refuses an empty text and otherwise runs every step on it. */
  method Analyze(code: string, sig: Signals) returns (response: Response)
    ensures response.NoCodeProvided? <==> code == ""
    ensures response.Analysed? ==> response.report == ReportOf(code, sig)
  {
    if code == "" {
      return NoCodeProvided;
    }
    var linesOfCodeMetrics := GetLinesOfCodeMetrics(code);
    var cyclomaticComplexityProxy := CyclomaticComplexityProxy(code);
    var issues := DetectIssues(code, linesOfCodeMetrics, cyclomaticComplexityProxy, sig.debugLogCount, sig.hasForElse);
    var score, status, readability, maintainability :=
      ScoreIssues(issues, linesOfCodeMetrics.commentTenths, cyclomaticComplexityProxy);
    var timeComplexity := DeriveTimeComplexity(code, sig.matches, sig.time);
    var spaceComplexity := DeriveSpaceComplexity(code, sig.matches, sig.space);
    var report := Report(
      code, score, status, linesOfCodeMetrics.actualCodeLines, linesOfCodeMetrics.commentTenths,
      cyclomaticComplexityProxy, readability, maintainability, timeComplexity, spaceComplexity, issues);
    response := Analysed(report);
  }

  /** The ranges of the marks: the score in [0, 100]; readability in
      [6.0, 10.0], set by the comment share alone and 10.0 exactly from a
      19.8% share; maintainability in [0, 97], lowered by 10 for each
      complexity or nesting issue and 20 for each for...else issue. */
  lemma ReportMarks(code: string, sig: Signals)
    ensures 0 <= ReportOf(code, sig).score <= 100
    ensures ReportOf(code, sig).status == StatusOf(ReportOf(code, sig).score)
    ensures ReportOf(code, sig).readabilityTenths == ReadabilityTenths(ReportOf(code, sig).commentTenths, 0, 0)
    ensures 60 <= ReportOf(code, sig).readabilityTenths <= 100
    ensures ReportOf(code, sig).readabilityTenths == 100 <==> ReportOf(code, sig).commentTenths >= 198
    ensures ReportOf(code, sig).maintainability
      == Maintainability(ReportOf(code, sig).cyclomaticComplexityProxy,
                         CountComplexity(ReportOf(code, sig).issues), CountForElse(ReportOf(code, sig).issues))
    ensures 0 <= ReportOf(code, sig).maintainability <= 97
  {
    var r := ReportOf(code, sig);
    MentionCounts(r.issues);
    ReadabilityFromComments(r.commentTenths);
  }

  lemma {:induction false} CriticalCounted(issues: seq<Issue>, k: nat)
    requires k < |issues| && issues[k].severity == Critical
    ensures CountSeverity(issues, Critical) >= 1
  {
    if k < |issues| - 1 {
      assert issues[..|issues| - 1][k] == issues[k];
      CriticalCounted(issues[..|issues| - 1], k);
    }
  }

  /** Code that calls `eval` is never rated "Excellent": the critical issue
      alone costs 40 points. */
  lemma EvalNeverExcellent(code: string, sig: Signals)
    requires HasEvalCall(code)
    ensures ReportOf(code, sig).score <= 60
    ensures ReportOf(code, sig).status != Excellent
  {
    var r := ReportOf(code, sig);
    var lines := Lines(code);
    var long := LongLineIssues(lines);
    var evalIssues := EvalIssues(code, lines);
    assert |evalIssues| == 1 && evalIssues[0].severity == Critical;
    assert r.issues[|long|] == (long + evalIssues)[|long|];
    CriticalCounted(r.issues, |long|);
    ScoreAndIssues(r.issues);
  }

  /** The rules that read the lines report nothing critical. */
  lemma LineRulesNotCritical(code: string, hasForElse: bool)
    ensures CountSeverity(LongLineIssues(Lines(code)), Critical) == 0
    ensures CountSeverity(NestingIssues(Lines(code)), Critical) == 0
    ensures CountSeverity(ForElseIssues(code, Lines(code), hasForElse), Critical) == 0
  {
    var lines := Lines(code);
    LongLineIssuesOnlyLong(lines);
    NoneOfSeverity(LongLineIssues(lines), Critical);
    NoneOfSeverity(NestingIssues(lines), Critical);
    NoneOfSeverity(ForElseIssues(code, lines, hasForElse), Critical);
  }

  /** The rules that read a count report nothing critical. */
  lemma CountRulesNotCritical(metrics: Metrics, proxy: nat, debugCount: nat)
    ensures CountSeverity(ComplexityIssues(proxy), Critical) == 0
    ensures CountSeverity(LowCommentIssues(metrics), Critical) == 0
    ensures CountSeverity(DebugOutputIssues(debugCount), Critical) == 0
  {
    NoneOfSeverity(ComplexityIssues(proxy), Critical);
    NoneOfSeverity(LowCommentIssues(metrics), Critical);
    NoneOfSeverity(DebugOutputIssues(debugCount), Critical);
  }

  /** No rule but the eval rule reports at critical severity. */
  lemma OtherRulesNotCritical(code: string, metrics: Metrics, proxy: nat, debugCount: nat, hasForElse: bool)
    ensures CountSeverity(LongLineIssues(Lines(code)), Critical) == 0
    ensures CountSeverity(ComplexityIssues(proxy), Critical) == 0
    ensures CountSeverity(LowCommentIssues(metrics), Critical) == 0
    ensures CountSeverity(DebugOutputIssues(debugCount), Critical) == 0
    ensures CountSeverity(NestingIssues(Lines(code)), Critical) == 0
    ensures CountSeverity(ForElseIssues(code, Lines(code), hasForElse), Critical) == 0
  {
    LineRulesNotCritical(code, hasForElse);
    CountRulesNotCritical(metrics, proxy, debugCount);
  }

  /** Only the eval rule reports a critical issue, and it reports one
      however many lines contain a call. */
  lemma CriticalOnlyFromEval(code: string, metrics: Metrics, proxy: nat, debugCount: nat, hasForElse: bool)
    ensures CountSeverity(DetectedIssues(code, metrics, proxy, debugCount, hasForElse), Critical)
      == if HasEvalCall(code) then 1 else 0
  {
    var lines := Lines(code);
    var long := LongLineIssues(lines);
    var e := EvalIssues(code, lines);
    var c := ComplexityIssues(proxy);
    var lc := LowCommentIssues(metrics);
    var d := DebugOutputIssues(debugCount);
    var n := NestingIssues(lines);
    var f := ForElseIssues(code, lines, hasForElse);
    OtherRulesNotCritical(code, metrics, proxy, debugCount, hasForElse);
    assert CountSeverity(e, Critical) == if HasEvalCall(code) then 1 else 0 by {
      assert e[..0] == [];
    }
    CountSeverityAppend(long, e, Critical);
    CountSeverityAppend(long + e, c, Critical);
    CountSeverityAppend(long + e + c, lc, Critical);
    CountSeverityAppend(long + e + c + lc, d, Critical);
    CountSeverityAppend(long + e + c + lc + d, n, Critical);
    CountSeverityAppend(long + e + c + lc + d + n, f, Critical);
  }

  // ---------------------------------------------------------------------
  // A worked example: the single line `eval(x);`

  lemma LoneEvalLines(code: string)
    requires code == "eval(x);"
    ensures Lines(code) == [code]
    ensures Trim(code) == code
  {
    SplitOfOne(code, '\n');
    assert LeadingSpaces(code) == 0 by { assert !IsSpace(code[0]); }
    assert TrailingSpaces(code) == 0 by { assert !IsSpace(code[|code| - 1]); }
    assert code[0..] == code;
  }

  /** One code line, no comment. */
  lemma LoneEvalMetrics(code: string)
    requires code == "eval(x);"
    ensures MetricsOf(code) == Metrics(1, 1, 0, 0, 0)
  {
    LoneEvalLines(code);
    assert code[..2] != "//" && code[..2] != "/*" && code[..1] != "*" && code[..1] != "#";
    assert Classify(code) == Code;
    var lines := [code];
    assert lines[..0] == [];
    assert CountKind(lines, Code) == 1 && CountKind(lines, Comment) == 0 && CountKind(lines, Blank) == 0;
  }

  /** No decision keyword starts the text. */
  lemma LoneEvalNoLeadingWord(code: string)
    requires code == "eval(x);"
    ensures CountFrom(code, DecisionWords, true, 0) == CountFrom(code, DecisionWords, true, 1)
  {
    forall k | 0 <= k < |DecisionWords| ensures !WordAt(code, 0, DecisionWords[k], true) {
      var w := DecisionWords[k];
      if k < 3 {
      } else if k < 6 {
      } else if k < 8 {
        assert w[1] == 'l' && FoldCase(code[1]) == 'v';
      } else {
      }
    }
    SkipWords(code, 0, DecisionWords, true, |DecisionWords|);
  }

  /** Nor does any later position: `val(x);` offers no decision word. */
  lemma LoneEvalNoLaterWord(code: string)
    requires code == "eval(x);"
    ensures CountFrom(code, DecisionWords, true, 4) == 0
  {
    assert CountFrom(code, DecisionWords, true, 8) == 0;
    NoBoundaryAt(code, 7);
    NoDecisionAt(code, 6);
    NoDecisionAt(code, 5);
    NoDecisionAt(code, 4);
  }

  /** No decision keyword anywhere in the text. */
  lemma LoneEvalNoDecision(code: string)
    requires code == "eval(x);"
    ensures CountFrom(code, DecisionWords, true, 0) == 0
  {
    LoneEvalNoLaterWord(code);
    NoBoundaryAt(code, 3);
    NoBoundaryAt(code, 2);
    NoBoundaryAt(code, 1);
    LoneEvalNoLeadingWord(code);
  }

  /** No decision keyword and no question mark: the proxy is 1. */
  lemma LoneEvalProxy(code: string)
    requires code == "eval(x);"
    ensures CyclomaticComplexityProxy(code) == 1
  {
    LoneEvalNoDecision(code);
    assert '?' !in code;
  }

  /** The eval rule on `eval(x);` reports line 1. */
  lemma LoneEvalRule(code: string)
    requires code == "eval(x);"
    ensures EvalIssues(code, [code]) == [Issue(Critical, EvalCall([1]), 1)]
  {
    var lines := [code];
    assert code[0..4] == "eval" && LeadingSpaces(code[4..]) == 0;
    assert EvalCallAt(code, 0);
    assert OccursAt(code, "eval(", 0);
    assert EvalLineNumbers(lines) == [1];
  }

  /** The only line of `eval(x);` is neither long nor indented. */
  lemma LoneEvalLayout(code: string)
    requires code == "eval(x);"
    ensures LongLineIssues([code]) == [] && NestingIssues([code]) == []
  {
    var lines := [code];
    assert lines[..0] == [];
    assert LeadingSpaces(code) == 0 && LeadingTabs(code) == 0;
    assert MaxNestingDepth(lines) == 0;
    NestingIssuesOf(lines, 0);
  }

  /** Only the eval rule fires, reporting line 1. */
  lemma LoneEvalIssues(code: string)
    requires code == "eval(x);"
    ensures DetectedIssues(code, MetricsOf(code), 1, 0, false) == [Issue(Critical, EvalCall([1]), 1)]
  {
    LoneEvalLines(code);
    LoneEvalMetrics(code);
    LoneEvalRule(code);
    LoneEvalLayout(code);
  }

  /** The marks of that single critical issue. */
  lemma LoneEvalMarks(issues: seq<Issue>)
    requires issues == [Issue(Critical, EvalCall([1]), 1)]
    ensures ScoreOf(issues) == 60 && StatusOf(ScoreOf(issues)) == NeedsImprovement
    ensures ReadabilityTenths(0, Mentioning(issues, LongLinePhrase), Mentioning(issues, NestingPhrase)) == 60
    ensures Maintainability(1, Mentioning(issues, ComplexityPhrase), Mentioning(issues, LogicalIssuePhrase)) == 97
  {
    assert issues[..0] == [];
    assert TotalWeight(issues) == 40;
    MentionCounts(issues);
    assert CountComplexity(issues) == 0 && CountForElse(issues) == 0;
  }

  /** The report of `eval(x);`: one critical issue, score 60 and "Needs
      Improvement"; readability 6.0, since nothing is commented;
      maintainability 97. */
  lemma LoneEvalReport(code: string, sig: Signals)
    requires code == "eval(x);"
    requires sig.debugLogCount == 0 && !sig.hasForElse
    ensures ReportOf(code, sig).issues == [Issue(Critical, EvalCall([1]), 1)]
    ensures ReportOf(code, sig).score == 60 && ReportOf(code, sig).status == NeedsImprovement
    ensures ReportOf(code, sig).loc == 1 && ReportOf(code, sig).cyclomaticComplexityProxy == 1
    ensures ReportOf(code, sig).readabilityTenths == 60 && ReportOf(code, sig).maintainability == 97
  {
    LoneEvalMetrics(code);
    LoneEvalProxy(code);
    LoneEvalIssues(code);
    LoneEvalMarks([Issue(Critical, EvalCall([1]), 1)]);
  }
}
