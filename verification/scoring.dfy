/** The scores of the analysis endpoint: an overall score that each issue
    lowers by the weight of its severity, a status read off the score, a
    readability mark out of ten and a maintainability mark out of a hundred,
    both lowered by counts of issues whose description mentions a phrase. */
module Scoring {
  import opened Text
  import opened Messages
  import opened Issues

  function Max(a: int, b: int): int { if a >= b then a else b }
  function Min(a: int, b: int): int { if a <= b then a else b }

  // ---------------------------------------------------------------------
  // Overall score and status

  /** The deduction for one issue of the given severity. */
  function Weight(s: Severity): (w: nat)
    ensures 2 <= w <= 40
    ensures w == 40 <==> s == Critical
  {
    match s
    case Critical => 40
    case High => 25
    case Medium => 15
    case Low => 7
    case Info => 2
  }

  function TotalWeight(issues: seq<Issue>): nat {
    if |issues| == 0 then 0
    else TotalWeight(issues[..|issues| - 1]) + Weight(issues[|issues| - 1].severity)
  }

  function CountSeverity(issues: seq<Issue>, s: Severity): (n: nat)
    ensures n <= |issues|
  {
    if |issues| == 0 then 0
    else CountSeverity(issues[..|issues| - 1], s) + (if issues[|issues| - 1].severity == s then 1 else 0)
  }

  /** Counts add up over a concatenation. */
  lemma {:induction false} CountSeverityAppend(a: seq<Issue>, b: seq<Issue>, s: Severity)
    ensures CountSeverity(a + b, s) == CountSeverity(a, s) + CountSeverity(b, s)
    decreases |b|
  {
    if |b| > 0 {
      assert (a + b)[..|a + b| - 1] == a + b[..|b| - 1];
      CountSeverityAppend(a, b[..|b| - 1], s);
    } else {
      assert a + b == a;
    }
  }

  lemma {:induction false} NoneOfSeverity(issues: seq<Issue>, s: Severity)
    requires forall k | 0 <= k < |issues| :: issues[k].severity != s
    ensures CountSeverity(issues, s) == 0
  {
    if |issues| > 0 {
      NoneOfSeverity(issues[..|issues| - 1], s);
    }
  }

  /** Every issue costs between 2 and 40 points, a critical one exactly 40. */
  lemma {:induction false} TotalWeightBounds(issues: seq<Issue>)
    ensures 2 * |issues| <= TotalWeight(issues) <= 40 * |issues|
    ensures 40 * CountSeverity(issues, Critical) <= TotalWeight(issues)
  {
    if |issues| > 0 {
      TotalWeightBounds(issues[..|issues| - 1]);
    }
  }

  /** The deductions do not depend on how the report is split. */
  lemma {:induction false} TotalWeightAppend(a: seq<Issue>, b: seq<Issue>)
    ensures TotalWeight(a + b) == TotalWeight(a) + TotalWeight(b)
    decreases |b|
  {
    if |b| > 0 {
      assert (a + b)[..|a + b| - 1] == a + b[..|b| - 1];
      TotalWeightAppend(a, b[..|b| - 1]);
    } else {
      assert a + b == a;
    }
  }

  /** The score after the deductions, clamped to [0, 100]. */
  function ScoreOf(issues: seq<Issue>): (score: int)
    ensures 0 <= score <= 100
  {
    Max(0, Min(100, 100 - TotalWeight(issues)))
  }

  datatype Status = Excellent | NeedsImprovement | PoorQuality

  function StatusOf(score: int): Status {
    if score >= 80 then Excellent
    else if score >= 50 then NeedsImprovement
    else PoorQuality
  }

  /** 0 for the worst status, 2 for the best. */
  function StatusRank(s: Status): nat {
    match s
    case PoorQuality => 0
    case NeedsImprovement => 1
    case Excellent => 2
  }

  /** A higher score never earns a worse status. */
  lemma StatusMonotone(a: int, b: int)
    requires a <= b
    ensures StatusRank(StatusOf(a)) <= StatusRank(StatusOf(b))
  {
  }

  /** A clean report scores 100, and any issue takes the score below it;
      one critical issue rules out "Excellent" and two mean "Poor Quality". */
  lemma ScoreAndIssues(issues: seq<Issue>)
    ensures ScoreOf(issues) == 100 <==> |issues| == 0
    ensures CountSeverity(issues, Critical) >= 1 ==> ScoreOf(issues) <= 60 && StatusOf(ScoreOf(issues)) != Excellent
    ensures CountSeverity(issues, Critical) >= 2 ==> StatusOf(ScoreOf(issues)) == PoorQuality
  {
    TotalWeightBounds(issues);
  }

  // ---------------------------------------------------------------------
  // Phrase counts

  /** `issues.filter(i => i.description.includes(phrase)).length`. */
  function Mentioning(issues: seq<Issue>, phrase: string): (n: nat)
    ensures n <= |issues|
  {
    if |issues| == 0 then 0
    else
      var last := if Contains(Describe(issues[|issues| - 1].message), phrase) then 1 else 0;
      Mentioning(issues[..|issues| - 1], phrase) + last
  }

  predicate IsComplexityMessage(m: Message) {
    m.VeryHighComplexity? || m.HighComplexity? || m.DeepNesting?
  }

  function CountComplexity(issues: seq<Issue>): (n: nat)
    ensures n <= |issues|
  {
    if |issues| == 0 then 0
    else CountComplexity(issues[..|issues| - 1]) + (if IsComplexityMessage(issues[|issues| - 1].message) then 1 else 0)
  }

  function CountForElse(issues: seq<Issue>): (n: nat)
    ensures n <= |issues|
  {
    if |issues| == 0 then 0
    else CountForElse(issues[..|issues| - 1]) + (if issues[|issues| - 1].message.ForElseWithoutBreak? then 1 else 0)
  }

  /** What the phrase filters count: no description mentions a "long line"
      or "Nesting" (the nesting issue says "nesting"), so those readability
      penalties never apply; "complexity" is mentioned by the two complexity
      issues and the nesting issue; only the for...else issue announces a
      "Logical Issue". */
  lemma {:induction false} MentionCounts(issues: seq<Issue>)
    ensures Mentioning(issues, LongLinePhrase) == 0
    ensures Mentioning(issues, NestingPhrase) == 0
    ensures Mentioning(issues, ComplexityPhrase) == CountComplexity(issues)
    ensures Mentioning(issues, LogicalIssuePhrase) == CountForElse(issues)
  {
    if |issues| > 0 {
      MentionCounts(issues[..|issues| - 1]);
      TextMentions(issues[|issues| - 1].message);
    }
  }

  // ---------------------------------------------------------------------
  // Readability and maintainability

  /** `10 - max(0, (20 - commentPercentage) / 5) - longLines - 1.5 * nesting`
      in hundredths, with the comment share in tenths of a percent. */
  function ReadabilityHundredths(commentTenths: nat, longLines: nat, nesting: nat): int {
    1000 - Max(0, 2 * (200 - commentTenths)) - 100 * longLines - 150 * nesting
  }

  /** `parseFloat(Math.max(0, r).toFixed(1))` clamped to [0, 10], in tenths:
      the nearest tenth of the unrounded mark, which is never a tie. */
  function ReadabilityTenths(commentTenths: nat, longLines: nat, nesting: nat): (r: nat)
    ensures r <= 100
    ensures var h := Max(0, ReadabilityHundredths(commentTenths, longLines, nesting));
      10 * r - 5 < h < 10 * r + 5
  {
    var h := Max(0, ReadabilityHundredths(commentTenths, longLines, nesting));
    assert h % 2 == 0;
    Min(100, (h + 5) / 10)
  }

  /** With no long-line or nesting mention the mark lies between 6.0 and
      10.0, and is 10.0 exactly when comments make up at least 19.8% (a
      19.8% share leaves 9.96 before rounding). */
  lemma ReadabilityFromComments(commentTenths: nat)
    ensures 60 <= ReadabilityTenths(commentTenths, 0, 0) <= 100
    ensures ReadabilityTenths(commentTenths, 0, 0) == 100 <==> commentTenths >= 198
  {
    var h := ReadabilityHundredths(commentTenths, 0, 0);
    if commentTenths < 198 {
      assert h <= 994;
    }
  }

  /** `100 - 3 * proxy - 10 * complexity - 20 * logical`, floored at 0 and
      capped at 100. The proxy is at least 1, so the mark never exceeds 97. */
  function Maintainability(proxy: nat, complexity: nat, logical: nat): (m: int)
    ensures 0 <= m <= 100
    ensures proxy >= 1 ==> m <= 97
    ensures m == 0 <==> 3 * proxy + 10 * complexity + 20 * logical >= 100
  {
    Max(0, Min(100, Max(0, 100 - 3 * proxy - 10 * complexity - 20 * logical)))
  }

  /** The scoring block of the analysis endpoint. */
  method ScoreIssues(issues: seq<Issue>, commentTenths: nat, proxy: nat)
    returns (score: int, status: Status, readability: nat, maintainability: int)
    ensures score == ScoreOf(issues) && status == StatusOf(score)
    ensures readability == ReadabilityTenths(commentTenths, Mentioning(issues, LongLinePhrase), Mentioning(issues, NestingPhrase))
    ensures maintainability
      == Maintainability(proxy, Mentioning(issues, ComplexityPhrase), Mentioning(issues, LogicalIssuePhrase))
  {
    score := 100;
    for k := 0 to |issues|
      invariant score == 100 - TotalWeight(issues[..k])
    {
      assert issues[..k + 1][..k] == issues[..k];
      match issues[k].severity {
        case Critical => score := score - 40;
        case High => score := score - 25;
        case Medium => score := score - 15;
        case Low => score := score - 7;
        case Info => score := score - 2;
      }
    }
    assert issues[..|issues|] == issues;

    var r := 1000;
    r := r - Max(0, 2 * (200 - commentTenths));
    r := r - 100 * Mentioning(issues, LongLinePhrase);
    r := r - 150 * Mentioning(issues, NestingPhrase);
    readability := (Max(0, r) + 5) / 10;

    var m := 100 - proxy * 3;
    m := m - 10 * Mentioning(issues, ComplexityPhrase);
    m := m - 20 * Mentioning(issues, LogicalIssuePhrase);
    maintainability := Max(0, m);

    score := Max(0, Min(100, score));
    readability := Min(100, readability);
    maintainability := Max(0, Min(100, maintainability));

    if score >= 80 {
      status := Excellent;
    } else if score >= 50 {
      status := NeedsImprovement;
    } else {
      status := PoorQuality;
    }
  }
}
