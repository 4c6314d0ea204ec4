/** The cyclomatic-complexity proxy: one for the entry path, one per
    decision keyword or operator, one per question mark. */
module ComplexityProxy {
  import opened Text
  import opened Keywords

  /** The alternatives of `/\b(if|for|while|switch|case|catch|else if|elif|&&|\|\|)\b/gi`, in order. */
  const DecisionWords: seq<string> :=
    ["if", "for", "while", "switch", "case", "catch", "else if", "elif", "&&", "||"]

  /** Matches of the decision-point pattern (case-insensitive). */
  function DecisionPoints(code: string): nat {
    CountWords(code, DecisionWords, true)
  }

  function CyclomaticComplexityProxy(code: string): (r: nat)
    ensures r >= 1
    ensures r == 1 + DecisionPoints(code) + multiset(code)['?']
  {
    1 + DecisionPoints(code) + CountChar(code, '?')
  }

  /** The first characters of the decision words. */
  lemma DecisionInitials(c: char)
    requires c !in "ifwsce&|"
    ensures forall k | 0 <= k < |DecisionWords| :: DecisionWords[k][0] != c
  {
    forall k | 0 <= k < |DecisionWords| ensures DecisionWords[k][0] in "ifwsce&|" {
      if k < 5 { } else { }
    }
  }

  /** A position where no decision word starts adds nothing to the count. */
  lemma NoDecisionAt(s: string, i: nat)
    requires i < |s| && FoldCase(s[i]) !in "ifwsce&|"
    ensures CountFrom(s, DecisionWords, true, i) == CountFrom(s, DecisionWords, true, i + 1)
  {
    DecisionInitials(FoldCase(s[i]));
    NoWordStartsWith(s, i, DecisionWords, true);
  }

  /** Neither does a position without a word boundary. */
  lemma NoBoundaryAt(s: string, i: nat)
    requires i < |s| && !IsWordBoundary(s, i)
    ensures CountFrom(s, DecisionWords, true, i) == CountFrom(s, DecisionWords, true, i + 1)
  {
  }

  /** Every match takes up at least two characters: a text of `n`
      characters has at most `n / 2` decision points. */
  lemma DecisionPointsBound(code: string)
    ensures 2 * DecisionPoints(code) <= |code|
  {
    CountFromBound(code, DecisionWords, true, 0);
  }

  lemma {:induction false} FoldKeepsQuestionMarks(s: string)
    ensures CountChar(FoldAll(s), '?') == CountChar(s, '?')
    decreases |s|
  {
    if |s| > 0 {
      assert FoldAll(s)[1..] == FoldAll(s[1..]);
      FoldKeepsQuestionMarks(s[1..]);
    }
  }

  /** The pattern carries the `i` flag: changing the case of ASCII letters
      does not change the proxy. */
  lemma ProxyIgnoresCase(code: string)
    ensures CyclomaticComplexityProxy(FoldAll(code)) == CyclomaticComplexityProxy(code)
  {
    assert LowerWords(DecisionWords);
    CountFromFold(code, DecisionWords, 0);
    FoldKeepsQuestionMarks(code);
  }

  /** `else if` is one match: the scan reaches `else if` before `if`. */
  lemma ElseIfIsOneDecision(s: string)
    requires s == "else if"
    ensures DecisionPoints(s) == 1
  {
    var w := DecisionWords[6];
    assert w == s;
    SpellsVerbatim(s, 0, w, true);
    assert WordAt(s, 0, w, true);
    SkipWords(s, 0, DecisionWords, true, 6);
    assert MatchLength(s, 0, DecisionWords, true) == 7;
    assert IsWordBoundary(s, 0);
    assert CountFrom(s, DecisionWords, true, 7) == 0;
  }

  /** `&&` between spaces has no `\b` on either side, so it is not counted. */
  lemma SpacedAndIsNoDecision(s: string)
    requires s == "a && b"
    ensures DecisionPoints(s) == 0
  {
    assert CountFrom(s, DecisionWords, true, 6) == 0;
    NoDecisionAt(s, 5);
    NoBoundaryAt(s, 4);
    NoBoundaryAt(s, 3);
    NoBoundaryAt(s, 2);
    NoDecisionAt(s, 1);
    NoDecisionAt(s, 0);
  }

  /** `&&` between two word characters is counted. */
  lemma TightAndIsOneDecision(s: string)
    requires s == "a&&b"
    ensures DecisionPoints(s) == 1
  {
    var w := DecisionWords[8];
    assert s[1..3] == w;
    SpellsVerbatim(s, 1, w, true);
    assert WordAt(s, 1, w, true);
    SkipWords(s, 1, DecisionWords, true, 8);
    assert MatchLength(s, 1, DecisionWords, true) == 2;
    assert IsWordBoundary(s, 1);
    assert CountFrom(s, DecisionWords, true, 4) == 0;
    NoDecisionAt(s, 3);
    NoDecisionAt(s, 0);
  }
}
