# Code-quality analysis engine, in Dafny

This project models the analysis engine of a small code-review service:
the part of `backend/server.js` that turns a submitted snippet into a
quality report. It covers:

- the line metrics (blank, full-line-comment and code lines, and the
  comment percentage);
- the cyclomatic-complexity proxy (decision keywords plus question marks);
- the seven-rule issue detector: long lines, `eval` calls, complexity,
  low comments, debug output, deep nesting and Python `for ... else`;
- function-body extraction with the Python dedent step and the self-call
  search;
- the time- and space-complexity classifiers;
- the scoring block: score, status, readability and maintainability;
- the endpoint that assembles all of these into one report.

Each step that the source writes as a loop is a Dafny `method` with its
loop and invariants. Each such method is proved equal to a specification
function (`GetLinesOfCodeMetrics`, `CollectLongLineIssues`,
`CollectEvalLines`, `FindMaxNestingDepth`, `DetectIssues`, `DedentBody`,
`GetFunctionBodies`, `FindRecursion`, `ScoreIssues`, `Analyze`).

The properties below are proved about those functions. Among them:

- the long-line report lists exactly the offending lines, in order;
- the `eval` issue points at the first line containing `eval(`;
- the nesting issue fires exactly when some non-blank line is more than
  five levels deep;
- the dedent step removes exactly the common indentation;
- the recursion scan returns true exactly when some extracted function
  calls itself;
- a recognised program overrides every heuristic;
- one critical issue rules out "Excellent".

The regular expressions that need a backtracking engine are inputs of the
model (see "Left out"). The scanners the report depends on are modelled
exactly: the decision-keyword scan with `\b` and the `i` flag, the branch
keyword count, the `\beval\s*\(` test and the self-call pattern.

Text is `seq<char>`, and one `char` stands for one UTF-16 code unit.
`trim` and `\s` use JavaScript's white-space and line-terminator set.
`\w` and `\b` are ASCII.

Numbers are exact integers:

- the comment percentage is kept in tenths of a percent, rounded half up
  as `toFixed(1)` does;
- readability is kept in tenths and computed from exact hundredths, which
  are always even, so the rounding never meets a tie.

Readability subtracts one point per issue whose description contains
the text `long line` and 1.5 points per issue whose description contains
`Nesting` (`backend/server.js:564-565`). No description the detector
writes contains either text: the long-line description says "too long",
and the nesting description writes "nesting" in lower case. Those two
penalties therefore never apply. `Scoring.MentionCounts` proves this, and
`Analysis.ReportMarks` states the resulting range of readability: 6.0 to
10.0, reaching 10.0 exactly from a 19.8% comment share.

## Model

| member | source | states |
|---|---|---|
| Text.Trim | backend/server.js:79 | the trimmed text is empty exactly when every character is white space; otherwise it neither starts nor ends with white space |
| Text.TrimRemovesOuterSpace | backend/server.js:79 | the trimmed text is the original with a white-space prefix and a white-space suffix removed |
| Text.SplitShape | backend/server.js:72 | `Split`, which models `split` on one character (`Lines` with `'\n'`, `Fields` with `','`), yields one more segment than there are separators, and no segment contains the separator |
| Text.JoinLines | backend/server.js:300-302 | joining the segments with `'\n'` gives back the original text |
| Text.LinesJoin | backend/server.js:300-302 | splitting a join of newline-free lines gives back those lines |
| Text.SplitOfOne | backend/server.js:72 | a text without the separator splits into itself alone |
| Text.CountChar | backend/server.js:128-131 | the number of `?` matches is the number of occurrences of the character in the text |
| Text.LeadingSpaces | backend/server.js:214 | the length of the `^\s*` match: every character before it is white space and the one after it is not |
| Text.LeadingTabs | backend/server.js:215 | the length of the `^\t*` match: tabs before it, no tab right after it |
| Text.ToLower | backend/server.js:318 | the lower-cased text has no ASCII capital and is at least as long as the original; when the text has no Kelvin sign and no dotted capital I, it has the same length and each character is the case-folded original character |
| Text.TenthsToString | backend/server.js:194 | the printed comment percentage consists of digits and `.`; when it has a point, that point is second to last and all characters before it are digits; it starts with `0` only when it is `0` itself or the point follows that `0` |
| Text.NatToStringValue | backend/server.js:170 | reading the decimal digits of a number back gives the number |
| Text.TenthsToStringValue | backend/server.js:194 | reading the printed percentage back gives the tenths; a whole number is printed without a decimal point, and no printed value ends in `.0` |
| Keywords.MatchLengthIsWord | backend/server.js:122 | a match found by `MatchLength` (the alternation followed by `\b`, tried at one position) is one of the listed words, spelled at that position and followed by a word boundary |
| Keywords.SkipWords | backend/server.js:122 | alternatives that do not match at a position are skipped in list order, so the earlier of two matching words wins |
| Keywords.CountFromBound | backend/server.js:122-126 | `CountFrom` counts the global matches from left to right; they never overlap, so words of two or more characters match at most once per two characters |
| Keywords.CountFromFold | backend/server.js:122 | with the `i` flag, the number of matches that `CountWords` finds does not depend on the case of ASCII letters |
| ComplexityProxy.CyclomaticComplexityProxy | backend/server.js:118-133 | the proxy is 1 plus the decision-keyword matches plus the question marks, so it is at least 1 |
| ComplexityProxy.DecisionPointsBound | backend/server.js:122-126 | a text of n characters has at most n/2 decision points |
| ComplexityProxy.ProxyIgnoresCase | backend/server.js:122-130 | changing the case of ASCII letters does not change the proxy |
| ComplexityProxy.ElseIfIsOneDecision | backend/server.js:122 | `else if` counts once, because the scan reaches the `else if` alternative before `if` can match inside it |
| ComplexityProxy.SpacedAndIsNoDecision | backend/server.js:122 | `a && b` counts no decision, because `\b` fails on both sides of `&&` between spaces |
| ComplexityProxy.TightAndIsOneDecision | backend/server.js:122 | `a&&b` counts one decision |
| LineMetrics.GetLinesOfCodeMetrics | backend/server.js:71-110 | the loop's result is `MetricsOf(code)`: its counts equal the blank, comment and code counts of the split lines and sum to the line count; the line count is the newline count plus one; the percentage is at most 100.0; an empty text gives one blank line |
| LineMetrics.KindsPartition | backend/server.js:78-100 | `Classify` puts every line in exactly one of blank, comment or code, so the three counts add up to the line count |
| LineMetrics.PercentTenths | backend/server.js:102 | the comment percentage in tenths is the nearest tenth of `100 * comments / lines` (a tie goes up), at most 1000, and 0 for no lines |
| Messages.NumberList | backend/server.js:170 | `evalLines.join(', ')` holds only digits, commas and spaces |
| Messages.NumberListFields | backend/server.js:170 | splitting the joined list at its commas gives one field per number, in order: the first number's decimal form, then each later number's decimal form after one space |
| Messages.LongLineMentions | backend/server.js:153 | the long-line description contains none of `long line`, `Nesting`, `complexity` or `Logical Issue` |
| Messages.EvalMentions | backend/server.js:170 | the eval description contains none of the four phrases |
| Messages.VeryHighComplexityMentions | backend/server.js:179 | the very-high-complexity description contains `complexity` and none of the other three phrases |
| Messages.HighComplexityMentions | backend/server.js:185 | the high-complexity description contains `complexity` and none of the other three phrases |
| Messages.LowCommentsMentions | backend/server.js:194 | the low-comment description contains none of the four phrases |
| Messages.DebugOutputMentions | backend/server.js:204 | the debug-output description contains none of the four phrases |
| Messages.DeepNestingMentions | backend/server.js:226 | the nesting description contains `complexity` but neither `Nesting` (it says "nesting") nor `long line` nor `Logical Issue` |
| Messages.ForElseMentions | backend/server.js:243 | the for...else description contains `Logical Issue` and none of the other three phrases |
| Messages.TextMentions | backend/server.js:151-243 | over every kind of description: none contains `long line` or `Nesting`; `complexity` appears exactly in the two complexity descriptions and the nesting one; `Logical Issue` appears exactly in the for...else one |
| Issues.LongLineIssues | backend/server.js:149-157 | at most one long-line issue per line |
| Issues.LongLineIssuesOnlyLong | backend/server.js:149-157 | every long-line issue names a line longer than 100 characters, with its 1-based number and its length, at medium severity |
| Issues.LongLineIssuesOrdered | backend/server.js:149-157 | long-line issues come in increasing line order |
| Issues.LongLineIssuesComplete | backend/server.js:149-157 | every line longer than 100 characters is reported |
| Issues.LongLineIssuesReport | backend/server.js:149-157 | the long-line issues report exactly the over-long lines, in order |
| Issues.CollectLongLineIssues | backend/server.js:149-157 | the `forEach` loop pushes exactly the long-line issues |
| Issues.EvalLineNumbersSound | backend/server.js:163-167 | every listed line number is that of a line containing `eval(` |
| Issues.EvalLineNumbersOrdered | backend/server.js:163-167 | the listed line numbers increase |
| Issues.EvalLineNumbersComplete | backend/server.js:163-167 | every line containing `eval(` is listed |
| Issues.CollectEvalLines | backend/server.js:162-167 | the `forEach` loop collects exactly the numbers of the lines containing `eval(` |
| Issues.EvalIssues | backend/server.js:160-173 | the eval rule adds at most one issue, a critical one, and adds it exactly when `HasEvalCall` holds: some position `EvalCallAt` starts a word-bounded `eval` followed by optional white space and `(` |
| Issues.FirstIndexContaining | backend/server.js:240 | `findIndex` returns the first index of a line containing the word, or -1 when no line contains it |
| Issues.EvalLineNumbersFirst | backend/server.js:163-171 | the list is empty exactly when no line contains `eval(`, and otherwise starts with the first such line |
| Issues.EvalIssueLine | backend/server.js:171 | the eval issue points at the first line containing `eval(`, or at line 1 when no line does |
| Issues.SpacedEvalExample | backend/server.js:160-171 | `eval (x)` triggers the critical issue with an empty line list, at line 1 |
| Issues.WordBoundEvalExample | backend/server.js:160 | `myeval(x)` contains `eval(` but is not reported, because `\b` fails before `eval` |
| Issues.ComplexityIssuesExclusive | backend/server.js:176-188 | at most one complexity issue; there is one exactly when the proxy exceeds 10, and it is high exactly when the proxy exceeds 18 |
| Issues.MaxNestingDepthIsMax | backend/server.js:210-222 | the tracked depth is at least the `NestingDepth` (spaces divided by four, plus tabs) of every non-blank line, and it is either attained by one of them or 0 |
| Issues.FindMaxNestingDepth | backend/server.js:210-222 | the loop computes the greatest nesting depth over the non-blank lines |
| Issues.NestingIssueIff | backend/server.js:209-229 | the nesting issue is reported exactly when some non-blank line is more than five levels deep, and at most once |
| Issues.TabsCountTwice | backend/server.js:214-217 | leading tabs count once in `^\s*` and again in `^\t*`: a line indented by five tabs is six levels deep and raises the nesting issue |
| Issues.SpacesCountOnce | backend/server.js:214-217 | a line indented by twenty spaces is five levels deep and raises nothing |
| Issues.ForElseIssueLine | backend/server.js:234-246 | the for...else issue is reported exactly when the pattern matches, `if ` occurs and `break` does not; it points at the first line containing `for `, or at line 1 |
| Issues.LaterRulesAddAtMostOne | backend/server.js:159-246 | each rule after the first adds at most one issue |
| Issues.DetectedIssuesShape | backend/server.js:143-249 | `DetectedIssues`, the seven rules' issues in rule order, opens with exactly the long-line issues, in line order |
| Issues.DetectIssues | backend/server.js:143-249 | the detector's result is `DetectedIssues`: it pushes the rules' issues in rule order |
| FunctionBodies.MinIndentIsMin | backend/server.js:285-296 | the loop's result is -1 exactly when every line is blank; otherwise it is the least indentation of the non-blank lines, attained by one of them |
| FunctionBodies.DedentBody | backend/server.js:283-303 | the loop and `map`/`join` compute `Dedent`, the dedented body |
| FunctionBodies.DedentLines | backend/server.js:299-302 | the lines of a dedented body are the original lines, each reindented |
| FunctionBodies.ReindentByMinIndent | backend/server.js:299-302 | each non-blank line loses exactly its first `minIndent` characters, all white space, so relative indentation is kept; some non-blank line ends up unindented; lines shorter than `minIndent` are blank and become empty |
| FunctionBodies.DedentNonBlankLine | backend/server.js:301 | a non-blank line is its white-space prefix of length `minIndent` followed by its reindented text |
| FunctionBodies.DedentShortLine | backend/server.js:301 | a line shorter than `minIndent` is blank and its trim is empty |
| FunctionBodies.DedentKeepsUnindented | backend/server.js:299 | a body without positive common indentation is left unchanged |
| FunctionBodies.GetFunctionBodies | backend/server.js:257-309 | the loop over the matches builds the list of function entries |
| FunctionBodies.FunctionInfosShape | backend/server.js:281-305 | there is one entry per match whose name and body groups are both non-empty, and every name and body is trimmed |
| FunctionBodies.BracedInfo | backend/server.js:268-281 | a brace-delimited match contributes its trimmed groups, and nothing when either group is empty |
| FunctionBodies.FindRecursion | backend/server.js:324-333 | the scan with `break` returns true exactly when some extracted function `CallsItself`: some position of its body is `SelfCallAt`, a word-bounded occurrence of its name followed by optional white space and `(` |
| FunctionBodies.IfBlockLooksRecursive | backend/server.js:257-328 | the span `if (a) { if (b) { x }` matched as a function named `if` yields an entry whose body calls `if (`, so the recursion scan reports recursion |
| Classifiers.Pick | backend/server.js:335-384 | a program is `Recognised` when the text contains all its fragments (and, for the plain recursive C++ program, not the memo parameter); the override chosen is the first recognised program in test order, and there is none exactly when no program is recognised |
| Classifiers.MemoSignatureHasMemoParam | backend/server.js:360 | the memoised signature contains the memo parameter |
| Classifiers.RecursiveAndMemoizedExclusive | backend/server.js:339-365 | no text is recognised as both the plain recursive and the memoised C++ program |
| Classifiers.SortCallReduces | backend/server.js:406-409 | the seven sort names reduce to `sort(`, `heapify(` or `binarysearch(` |
| Classifiers.TimeOverridesFirst | backend/server.js:335-394 | a recognised program's bound does not depend on recursion or on any heuristic; `O(2^N) or O(N!)` needs no recognised program, recursion and at least five branch keywords |
| Classifiers.TimeConstantIff | backend/server.js:386-429 | `TimeComplexity`, the rule chain, returns `O(1)` exactly when no override and no heuristic fires |
| Classifiers.BranchesNeedTenCharacters | backend/server.js:392 | five branch keywords need at least ten characters of lower-cased text |
| Classifiers.ShortCodeNotExponential | backend/server.js:386-394 | code whose lower-cased text is shorter than ten characters is never labelled `O(2^N) or O(N!)` |
| Classifiers.DeriveTimeComplexity | backend/server.js:317-430 | the time classifier runs the recursion scan on the extracted functions, then the rule chain |
| Classifiers.SpaceComplexity | backend/server.js:454-526 | only `O(1)`, `O(N)` and `O(N^2)` occur, and `O(N^2)` exactly for the tabulated and memoised C++ programs |
| Classifiers.SpaceLinearIffRecursive | backend/server.js:513-525 | without an override or a growth signal, the space is `O(N)` exactly when some function calls itself, and `O(1)` otherwise |
| Classifiers.FixtureBoundsAgree | backend/server.js:454-502 | for a recognised program, exponential time goes with linear space, cubic time with quadratic space, and `O(N log N)` time with linear space |
| Classifiers.DeriveSpaceComplexity | backend/server.js:439-526 | the space classifier runs the recursion scan on the extracted functions, then the rule chain |
| Scoring.Weight | backend/server.js:552-558 | each issue costs between 2 and 40 points, and 40 exactly when it is critical |
| Scoring.TotalWeightBounds | backend/server.js:550-559 | the total deduction is between 2 and 40 points per issue, and at least 40 per critical issue |
| Scoring.TotalWeightAppend | backend/server.js:550-559 | the deduction of a concatenated report is the sum of the parts' deductions |
| Scoring.CountSeverityAppend | backend/server.js:550-559 | the number of issues of a severity in a concatenated report is the sum over the parts |
| Scoring.ScoreOf | backend/server.js:575 | the clamped score lies in [0, 100] |
| Scoring.StatusMonotone | backend/server.js:580-588 | `StatusOf`, the thresholds 80 and 50, never gives a higher score a worse status |
| Scoring.ScoreAndIssues | backend/server.js:546-588 | the score is 100 exactly when there are no issues; one critical issue caps it at 60 and rules out "Excellent"; two mean "Poor Quality" |
| Scoring.MentionCounts | backend/server.js:564-571 | `Mentioning` counts the issues whose description contains a phrase; the `long line` and `Nesting` filters count nothing; the `complexity` filter counts the complexity and nesting issues; the `Logical Issue` filter counts the for...else issues |
| Scoring.ReadabilityTenths | backend/server.js:562-566 | readability in tenths is at most 10.0 and is the nearest tenth of the unrounded, non-negative mark |
| Scoring.ReadabilityFromComments | backend/server.js:562-566 | with no long-line or nesting penalty, readability lies in [6.0, 10.0] and is 10.0 exactly when the comment share is at least 19.8% |
| Scoring.Maintainability | backend/server.js:568-572 | maintainability lies in [0, 100]; it is at most 97 since the proxy is at least 1; it is 0 exactly when the penalties reach 100 |
| Scoring.ScoreIssues | backend/server.js:546-588 | the scoring loop and formulas compute the score, the status, readability and maintainability |
| Analysis.Analyze | backend/server.js:530-609 | an empty text is refused, and any other text yields `ReportOf`, the report of every step |
| Analysis.ReportMarks | backend/server.js:546-588 | the score is in [0, 100] and the status follows it; readability depends only on the comment share, lies in [6.0, 10.0] and is 10.0 exactly from 19.8%; maintainability drops 10 per complexity or nesting issue and 20 per for...else issue, and lies in [0, 97] |
| Analysis.EvalNeverExcellent | backend/server.js:159-173 | code with an `eval` call scores at most 60 and is never "Excellent" |
| Analysis.LineRulesNotCritical | backend/server.js:149-246 | the long-line, nesting and for...else rules report no critical issue |
| Analysis.CountRulesNotCritical | backend/server.js:176-206 | the complexity, low-comment and debug-output rules report no critical issue |
| Analysis.OtherRulesNotCritical | backend/server.js:143-249 | no rule other than the eval rule reports a critical issue |
| Analysis.CriticalOnlyFromEval | backend/server.js:159-173 | the detector reports one critical issue when the code has an `eval` call and none otherwise |
| Analysis.LoneEvalMetrics | backend/server.js:71-110 | `eval(x);` is one code line with no comments |
| Analysis.LoneEvalNoDecision | backend/server.js:122-126 | `eval(x);` contains no decision keyword |
| Analysis.LoneEvalProxy | backend/server.js:118-133 | `eval(x);` has proxy 1 |
| Analysis.LoneEvalRule | backend/server.js:159-173 | the eval rule on `eval(x);` reports one critical issue listing line 1 |
| Analysis.LoneEvalLayout | backend/server.js:149-229 | `eval(x);` has no long line and no nesting issue |
| Analysis.LoneEvalIssues | backend/server.js:143-249 | `eval(x);` gets exactly one issue: critical, naming line 1 |
| Analysis.LoneEvalMarks | backend/server.js:546-588 | one critical issue gives score 60, "Needs Improvement", readability 6.0 with no comments, and maintainability 97 with proxy 1 |
| Analysis.LoneEvalReport | backend/server.js:539-609 | the report of `eval(x);` has that one issue, score 60, "Needs Improvement", one line of code, proxy 1, readability 6.0 and maintainability 97 |

## Left out

- HTTP and persistence are not modelled: the Express routing, the CORS and static-file middleware, the JSON body parsing, the Mongoose model and the saving of the report, the server start-up, and the 500 response of the `catch`. The model keeps only the 400 refusal of an empty snippet.
- Analysis.Analyze: a missing, `null` or non-string `code` is not modelled (the model's input is always a string); only the empty string is refused.
- `console.log` debug output is not modelled; it does not affect any result.
- The patterns that need a backtracking regular-expression engine are inputs of the model. Each classifier's rule order and thresholds over these inputs are modelled exactly. The inputs are:
  - the function-definition pattern's matches, as name and body groups (`RawMatch`);
  - whether the Python for...else pattern matches;
  - the number of debug-output matches;
  - the time heuristics (`TimeSignals`): nested loops, the count of loop headers, binary-tree search, dividing loop and single loop;
  - the space heuristics (`SpaceSignals`): dynamic allocation, the count of bracket or brace literals, and the count of string concatenations.
- RawMatch: the name groups are taken as the function-definition pattern captures them, identifiers of the form `[a-zA-Z_$][0-9a-zA-Z_$]*`; the model does not restate that form, and `SelfCallAt` reads a name literally, so a name with a `$` (an anchor once pasted into the self-call pattern) never matches.
- In the Python branch of the function-definition pattern, JavaScript reads `\Z` as a literal `Z`, so a last `def` with nothing after it is never matched. That pattern's matches are an input of the model, so this behaviour is not derived here.
- LineMetrics.PercentTenths rounds the exact ratio. The source computes `(c / t) * 100` in binary floating point before `toFixed(1)`, which can differ by one tenth when the product lands just beside a half-tenth.
- Scoring.ReadabilityTenths is computed in exact hundredths. The source subtracts in floating point.
- `toLowerCase` is modelled for ASCII letters, the Kelvin sign and the dotted capital I only. No pattern of the engine can observe other mappings.
- Characters outside the Basic Multilingual Plane are one `char` here but two UTF-16 code units in JavaScript, so line lengths differ for text that contains them.
- The browser front end is not part of this model.
