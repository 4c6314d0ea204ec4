/** Function-body extraction. The function-definition pattern is a
    backtracking regular expression; its matches are an input here, each
    with the name and body groups it captured. What the engine does with a
    match is modelled exactly: the falsy-group check, the dedent of an
    indentation-delimited (Python) body, the trimming, and the search for a
    self-call that marks a function as recursive. */
module FunctionBodies {
  import opened Text

  /** One match of the function-definition pattern: a brace-delimited
      definition (the C/C++/Java alternatives, which also match
      `if (...) {`, `for (...) {` and `while (...) {`) or an
      indentation-delimited Python `def`. A group that did not take part in
      the match is the empty string, which JavaScript treats as falsy just
      like `undefined`. */
  datatype RawMatch =
    | Braced(name: string, body: string)
    | Indented(name: string, body: string)

  datatype FunctionInfo = FunctionInfo(name: string, body: string)

  // ---------------------------------------------------------------------
  // Dedent of an indentation-delimited body

  /** The least leading-whitespace length over the non-blank lines, or -1
      when every line is blank. */
  function MinIndent(lines: seq<string>): (m: int)
    ensures m >= -1
  {
    if |lines| == 0 then -1
    else
      var m := MinIndent(lines[..|lines| - 1]);
      var line := lines[|lines| - 1];
      if !IsBlank(line) && (m == -1 || LeadingSpaces(line) < m) then LeadingSpaces(line) else m
  }

  lemma MinIndentStep(lines: seq<string>)
    requires |lines| > 0
    ensures var m := MinIndent(lines[..|lines| - 1]);
      var line := lines[|lines| - 1];
      MinIndent(lines) == if !IsBlank(line) && (m == -1 || LeadingSpaces(line) < m) then LeadingSpaces(line) else m
  {
  }

  /** -1 exactly when all lines are blank. */
  lemma {:induction false} MinIndentNone(lines: seq<string>)
    ensures MinIndent(lines) == -1 <==> forall i | 0 <= i < |lines| :: IsBlank(lines[i])
  {
    if |lines| > 0 {
      var front := lines[..|lines| - 1];
      MinIndentNone(front);
      assert forall i | 0 <= i < |front| :: front[i] == lines[i];
    }
  }

  /** No non-blank line is indented less. */
  lemma {:induction false} MinIndentBelow(lines: seq<string>, i: nat)
    requires i < |lines| && !IsBlank(lines[i])
    ensures 0 <= MinIndent(lines) <= LeadingSpaces(lines[i])
  {
    var front := lines[..|lines| - 1];
    if i < |front| {
      assert front[i] == lines[i];
      MinIndentBelow(front, i);
    }
  }

  /** Some non-blank line has exactly that indentation. */
  lemma {:induction false} MinIndentAttained(lines: seq<string>)
    requires MinIndent(lines) >= 0
    ensures exists i | 0 <= i < |lines| :: !IsBlank(lines[i]) && LeadingSpaces(lines[i]) == MinIndent(lines)
  {
    var front := lines[..|lines| - 1];
    var line := lines[|lines| - 1];
    if MinIndent(lines) != LeadingSpaces(line) || IsBlank(line) {
      MinIndentAttained(front);
      var i :| 0 <= i < |front| && !IsBlank(front[i]) && LeadingSpaces(front[i]) == MinIndent(front);
      assert lines[i] == front[i];
    }
  }

  /** -1 exactly when all lines are blank; otherwise a lower bound of the
      indentation of every non-blank line that some non-blank line attains. */
  lemma MinIndentIsMin(lines: seq<string>)
    ensures MinIndent(lines) == -1 <==> forall i | 0 <= i < |lines| :: IsBlank(lines[i])
    ensures MinIndent(lines) >= 0 ==>
      (forall i | 0 <= i < |lines| && !IsBlank(lines[i]) :: MinIndent(lines) <= LeadingSpaces(lines[i]))
      && exists i | 0 <= i < |lines| :: !IsBlank(lines[i]) && LeadingSpaces(lines[i]) == MinIndent(lines)
  {
    MinIndentNone(lines);
    forall i | 0 <= i < |lines| && !IsBlank(lines[i]) ensures MinIndent(lines) <= LeadingSpaces(lines[i]) {
      MinIndentBelow(lines, i);
    }
    if MinIndent(lines) >= 0 {
      MinIndentAttained(lines);
    }
  }

  /** What `lines.map` does to one line: drop the common indentation, or
      trim a line too short to have it. */
  function Reindent(line: string, minIndent: nat): string {
    if |line| >= minIndent then line[minIndent..] else Trim(line)
  }

  function ReindentAll(lines: seq<string>, minIndent: nat): (r: seq<string>)
    ensures |r| == |lines|
    ensures forall k | 0 <= k < |lines| :: r[k] == Reindent(lines[k], minIndent)
  {
    seq(|lines|, k requires 0 <= k < |lines| => Reindent(lines[k], minIndent))
  }

  /** The body after the Python dedent step: unchanged unless the least
      indentation of its non-blank lines is positive. */
  function Dedent(body: string): string {
    var lines := Lines(body);
    var minIndent := MinIndent(lines);
    if minIndent > 0 then Join(ReindentAll(lines, minIndent)) else body
  }

  method DedentBody(funcBody: string) returns (r: string)
    ensures r == Dedent(funcBody)
  {
    var lines := Lines(funcBody);
    var minIndent: int := -1;
    for i := 0 to |lines|
      invariant minIndent == MinIndent(lines[..i])
    {
      assert lines[..i + 1][..i] == lines[..i];
      MinIndentStep(lines[..i + 1]);
      var trimmed := Trim(lines[i]);
      if |trimmed| > 0 {
        var currentIndent := LeadingSpaces(lines[i]);
        if minIndent == -1 || currentIndent < minIndent {
          minIndent := currentIndent;
        }
      }
    }
    assert lines[..|lines|] == lines;
    r := funcBody;
    if minIndent > 0 {
      r := Join(ReindentAll(lines, minIndent));
    }
  }

  /** `LeadingSpaces` is the only length whose prefix is whitespace and
      which stops at a non-space character or at the end. */
  lemma {:induction false} LeadingSpacesUnique(s: string, n: nat)
    requires n <= |s|
    requires forall i | 0 <= i < n :: IsSpace(s[i])
    requires n == |s| || !IsSpace(s[n])
    ensures LeadingSpaces(s) == n
  {
  }

  /** Dropping part of the leading whitespace shortens it by that much. */
  lemma LeadingSpacesDrop(s: string, m: nat)
    requires m <= LeadingSpaces(s)
    ensures LeadingSpaces(s[m..]) == LeadingSpaces(s) - m
  {
    var l := LeadingSpaces(s);
    var t := s[m..];
    assert forall i | 0 <= i < l - m :: t[i] == s[m + i];
    if l < |s| {
      assert t[l - m] == s[l];
    }
    LeadingSpacesUnique(t, l - m);
  }

  /** A line that is not blank has a non-space character after its
      leading whitespace. */
  lemma NonBlankIsLonger(line: string)
    requires !IsBlank(line)
    ensures LeadingSpaces(line) < |line|
  {
  }

  /** A non-blank line loses exactly its first `minIndent` characters, all
      of them whitespace, so relative indentation is kept. */
  lemma DedentNonBlankLine(line: string, minIndent: nat)
    requires !IsBlank(line) && minIndent <= LeadingSpaces(line)
    ensures minIndent < |line| && line == line[..minIndent] + Reindent(line, minIndent)
    ensures AllSpace(line[..minIndent])
    ensures LeadingSpaces(Reindent(line, minIndent)) == LeadingSpaces(line) - minIndent
  {
    NonBlankIsLonger(line);
    assert Reindent(line, minIndent) == line[minIndent..];
    SpacePrefix(line, minIndent);
    LeadingSpacesDrop(line, minIndent);
  }

  lemma SpacePrefix(s: string, m: nat)
    requires m <= LeadingSpaces(s)
    ensures s == s[..m] + s[m..] && AllSpace(s[..m])
  {
    var head := s[..m];
    assert forall i | 0 <= i < |head| :: head[i] == s[i];
  }

  /** A line shorter than `minIndent` is blank and becomes empty. */
  lemma DedentShortLine(line: string, minIndent: nat)
    requires |line| < minIndent
    requires !IsBlank(line) ==> minIndent <= LeadingSpaces(line)
    ensures IsBlank(line) && Reindent(line, minIndent) == ""
  {
    if !IsBlank(line) {
      NonBlankIsLonger(line);
    }
  }

  lemma TrimHasNoNewline(s: string)
    requires '\n' !in s
    ensures '\n' !in Trim(s)
  {
    var a := s[LeadingSpaces(s)..];
    assert forall c | c in a :: c in s;
    assert forall c | c in a[..|a| - TrailingSpaces(a)] :: c in a;
  }

  lemma ReindentHasNoNewline(line: string, minIndent: nat)
    requires '\n' !in line
    ensures '\n' !in Reindent(line, minIndent)
  {
    if |line| >= minIndent {
      assert forall c | c in line[minIndent..] :: c in line;
    } else {
      TrimHasNoNewline(line);
    }
  }

  /** When the body is dedented, its lines are the reindented lines of the
      original. */
  lemma DedentLines(body: string)
    requires MinIndent(Lines(body)) > 0
    ensures Lines(Dedent(body)) == ReindentAll(Lines(body), MinIndent(Lines(body)))
  {
    var lines := Lines(body);
    var m := MinIndent(lines);
    var out := ReindentAll(lines, m);
    SplitShape(body, '\n');
    forall k | 0 <= k < |out| ensures '\n' !in out[k] {
      ReindentHasNoNewline(lines[k], m);
    }
    LinesJoin(out);
  }

  /** Reindenting by the least indentation: every non-blank line loses
      exactly `MinIndent` characters of leading whitespace, one of them ends
      up unindented, and the lines too short for the indentation are blank
      and become empty. */
  lemma ReindentByMinIndent(lines: seq<string>)
    requires MinIndent(lines) > 0
    ensures forall i | 0 <= i < |lines| && !IsBlank(lines[i]) ::
      var out := ReindentAll(lines, MinIndent(lines));
      MinIndent(lines) < |lines[i]|
      && lines[i] == lines[i][..MinIndent(lines)] + out[i]
      && AllSpace(lines[i][..MinIndent(lines)])
      && LeadingSpaces(out[i]) == LeadingSpaces(lines[i]) - MinIndent(lines)
    ensures exists i | 0 <= i < |lines| :: !IsBlank(lines[i]) && LeadingSpaces(ReindentAll(lines, MinIndent(lines))[i]) == 0
    ensures forall i | 0 <= i < |lines| && |lines[i]| < MinIndent(lines) ::
      IsBlank(lines[i]) && ReindentAll(lines, MinIndent(lines))[i] == ""
  {
    var m := MinIndent(lines);
    var out := ReindentAll(lines, m);
    MinIndentIsMin(lines);
    forall i | 0 <= i < |lines| && !IsBlank(lines[i])
      ensures m < |lines[i]| && lines[i] == lines[i][..m] + out[i]
      ensures AllSpace(lines[i][..m])
      ensures LeadingSpaces(out[i]) == LeadingSpaces(lines[i]) - m
    {
      DedentNonBlankLine(lines[i], m);
    }
    forall i | 0 <= i < |lines| && |lines[i]| < m ensures IsBlank(lines[i]) && out[i] == "" {
      DedentShortLine(lines[i], m);
    }
  }

  /** A body whose non-blank lines are not all indented is kept as it is. */
  lemma DedentKeepsUnindented(body: string)
    requires MinIndent(Lines(body)) <= 0
    ensures Dedent(body) == body
  {
  }

  // ---------------------------------------------------------------------
  // Extraction

  /** A match is used only when both its name and body groups are truthy,
      that is non-empty. */
  predicate Usable(m: RawMatch) {
    m.name != "" && m.body != ""
  }

  /** The entry a match contributes: none, or its trimmed name and its
      trimmed (and, for Python, dedented) body. */
  function InfoOf(m: RawMatch): seq<FunctionInfo> {
    if !Usable(m) then []
    else
      var body := if m.Indented? then Dedent(m.body) else m.body;
      [FunctionInfo(Trim(m.name), Trim(body))]
  }

  function FunctionInfos(matches: seq<RawMatch>): seq<FunctionInfo> {
    if |matches| == 0 then []
    else FunctionInfos(matches[..|matches| - 1]) + InfoOf(matches[|matches| - 1])
  }

  /** Number of usable matches. */
  function CountUsable(matches: seq<RawMatch>): (n: nat)
    ensures n <= |matches|
  {
    if |matches| == 0 then 0
    else CountUsable(matches[..|matches| - 1]) + (if Usable(matches[|matches| - 1]) then 1 else 0)
  }

  method GetFunctionBodies(matches: seq<RawMatch>) returns (functionInfo: seq<FunctionInfo>)
    ensures functionInfo == FunctionInfos(matches)
  {
    functionInfo := [];
    var k := 0;
    while k < |matches|
      invariant 0 <= k <= |matches|
      invariant functionInfo == FunctionInfos(matches[..k])
    {
      var funcMatch := matches[k];
      assert matches[..k + 1][..k] == matches[..k];
      var funcName, funcBody := funcMatch.name, funcMatch.body;
      if funcName != "" && funcBody != "" {
        if funcMatch.Indented? {
          funcBody := DedentBody(funcBody);
        }
        functionInfo := functionInfo + [FunctionInfo(Trim(funcName), Trim(funcBody))];
      }
      k := k + 1;
    }
    assert matches[..k] == matches;
  }

  predicate Trimmed(s: string) {
    s == "" || (!IsSpace(s[0]) && !IsSpace(s[|s| - 1]))
  }

  /** One entry per usable match, each with a name and body that have no
      surrounding whitespace; a brace-delimited body is only trimmed. */
  lemma {:induction false} FunctionInfosShape(matches: seq<RawMatch>)
    ensures |FunctionInfos(matches)| == CountUsable(matches)
    ensures forall k | 0 <= k < |FunctionInfos(matches)| ::
      Trimmed(FunctionInfos(matches)[k].name) && Trimmed(FunctionInfos(matches)[k].body)
  {
    if |matches| > 0 {
      var front := matches[..|matches| - 1];
      FunctionInfosShape(front);
      var p := FunctionInfos(front);
      var r := FunctionInfos(matches);
      assert r == p + InfoOf(matches[|matches| - 1]);
      forall k | 0 <= k < |r| ensures Trimmed(r[k].name) && Trimmed(r[k].body) {
        if k < |p| {
          assert r[k] == p[k];
        }
      }
    }
  }

  /** A brace-delimited match contributes its groups, trimmed. */
  lemma BracedInfo(name: string, body: string)
    requires name != "" && body != ""
    ensures InfoOf(Braced(name, body)) == [FunctionInfo(Trim(name), Trim(body))]
    ensures InfoOf(Braced(name, "")) == [] && InfoOf(Braced("", body)) == []
  {
  }

  // ---------------------------------------------------------------------
  // Self-calls

  /** `new RegExp('\\b' + name + '\\s*\\(')` matches the body at `i`. A `$`
      in the name is an end-of-input anchor in the pattern, after which the
      name's next character or the parenthesis can never match, so such a
      name is never found. */
  predicate SelfCallAt(body: string, name: string, i: nat) {
    '$' !in name && i + |name| <= |body| && IsWordBoundary(body, i) && body[i..i + |name|] == name
    && var j := i + |name| + LeadingSpaces(body[i + |name|..]);
       j < |body| && body[j] == '('
  }

  /** `selfCallPattern.test(info.body)`. */
  predicate CallsItself(info: FunctionInfo) {
    exists i | 0 <= i < |info.body| :: SelfCallAt(info.body, info.name, i)
  }

  /** Some extracted function calls itself. */
  predicate AnyCallsItself(functionInfo: seq<FunctionInfo>) {
    exists k | 0 <= k < |functionInfo| :: CallsItself(functionInfo[k])
  }

  /** The `for ... of` scan with `break` that sets `isRecursiveGeneral`. */
  method FindRecursion(functionInfo: seq<FunctionInfo>) returns (isRecursiveGeneral: bool)
    ensures isRecursiveGeneral <==> AnyCallsItself(functionInfo)
  {
    isRecursiveGeneral := false;
    var k := 0;
    while k < |functionInfo|
      invariant 0 <= k <= |functionInfo|
      invariant forall j | 0 <= j < k :: !CallsItself(functionInfo[j])
    {
      if CallsItself(functionInfo[k]) {
        isRecursiveGeneral := true;
        break;
      }
      k := k + 1;
    }
  }

  /** A brace-delimited span named `if` is found recursive when its body
      holds another `if (`: the scan cannot tell a statement from a
      function. `if (a) { if (b) { x }` gives the name group `if` and the
      body group between the first brace and the first closing brace. */
  lemma IfBlockLooksRecursive(body: string)
    requires body == " if (b) { x "
    ensures AnyCallsItself(FunctionInfos([Braced("if", body)]))
  {
    var trimmed := "if (b) { x";
    IfBodyTrim(body, trimmed);
    assert Trim("if") == "if" by {
      assert LeadingSpaces("if") == 0 && TrailingSpaces("if") == 0;
    }
    OneBracedMatch("if", body);
    IfCallsIf(trimmed);
    assert CallsItself(FunctionInfos([Braced("if", body)])[0]);
  }

  /** A single usable brace-delimited match gives one entry. */
  lemma OneBracedMatch(name: string, body: string)
    requires name != "" && body != ""
    ensures FunctionInfos([Braced(name, body)]) == [FunctionInfo(Trim(name), Trim(body))]
  {
    assert [Braced(name, body)][..0] == [];
  }

  /** The body group of that span, trimmed. */
  lemma IfBodyTrim(body: string, trimmed: string)
    requires body == " if (b) { x " && trimmed == "if (b) { x"
    ensures Trim(body) == trimmed
  {
    assert LeadingSpaces(body) == 1 && body[1..] == trimmed + " ";
    assert TrailingSpaces(trimmed + " ") == 1 && (trimmed + " ")[..|trimmed|] == trimmed;
  }

  /** The trimmed body opens with a call-shaped `if (`. */
  lemma IfCallsIf(body: string)
    requires body == "if (b) { x"
    ensures SelfCallAt(body, "if", 0)
  {
    var rest := body[2..];
    assert rest[0] == ' ' && rest[1] == '(';
    assert LeadingSpaces(rest[1..]) == 0;
    assert LeadingSpaces(rest) == 1;
    assert body[0..2] == "if";
  }
}
