/** The descriptions the issue detector writes, and which of the phrases the
    scoring step searches for (`long line`, `Nesting`, `complexity`,
    `Logical Issue`) each of them contains. A description is written as the
    concatenation of short pieces, so that what a piece contains can be
    worked out character by character. */
module Messages {
  import opened Text

  /** Longest line the detector accepts. */
  const MaxLineLength: nat := 100

  // ---------------------------------------------------------------------
  // Descriptions as concatenations of short pieces

  /** The concatenation of the pieces of a description. */
  function Concat(pieces: seq<string>): string {
    if |pieces| == 0 then "" else pieces[0] + Concat(pieces[1..])
  }

  /** `s` does not hold the character `c`. */
  predicate NoChar(s: string, c: char) {
    forall p | 0 <= p < |s| :: s[p] != c
  }

  /** Every character of the text comes from one of its pieces. */
  lemma {:induction false} CharNotInConcat(pieces: seq<string>, c: char)
    requires forall k | 0 <= k < |pieces| :: NoChar(pieces[k], c)
    ensures NoChar(Concat(pieces), c)
  {
    if |pieces| > 0 {
      assert forall k | 0 <= k < |pieces[1..]| :: pieces[1..][k] == pieces[k + 1];
      CharNotInConcat(pieces[1..], c);
      var s := Concat(pieces);
      assert s == pieces[0] + Concat(pieces[1..]);
      forall p | 0 <= p < |s| ensures s[p] != c {
        if p >= |pieces[0]| {
          assert s[p] == Concat(pieces[1..])[p - |pieces[0]|];
        }
      }
    }
  }

  /** `s` never holds `x` directly followed by `y`. */
  predicate NoPair(s: string, x: char, y: char) {
    forall p | 0 <= p < |s| - 1 :: !(s[p] == x && s[p + 1] == y)
  }

  /** No piece holds the pair, and no piece ends with `x`, so no seam
      between two pieces holds it either. */
  predicate NoPairInPieces(pieces: seq<string>, x: char, y: char) {
    (forall k | 0 <= k < |pieces| :: NoPair(pieces[k], x, y))
    && (forall k | 0 <= k < |pieces| :: |pieces[k]| > 0 ==> pieces[k][|pieces[k]| - 1] != x)
  }

  lemma NoPairSeam(a: string, b: string, x: char, y: char)
    requires NoPair(a, x, y) && NoPair(b, x, y)
    requires |a| > 0 ==> a[|a| - 1] != x
    ensures NoPair(a + b, x, y)
  {
    var s := a + b;
    forall p | 0 <= p < |s| - 1 ensures !(s[p] == x && s[p + 1] == y) {
      if p + 1 < |a| {
        assert s[p] == a[p] && s[p + 1] == a[p + 1];
      } else if p >= |a| {
        assert s[p] == b[p - |a|] && s[p + 1] == b[p - |a| + 1];
      } else {
        assert s[p] == a[|a| - 1];
      }
    }
  }

  lemma {:induction false} NoPairInConcat(pieces: seq<string>, x: char, y: char)
    requires NoPairInPieces(pieces, x, y)
    ensures NoPair(Concat(pieces), x, y)
  {
    if |pieces| > 0 {
      assert forall k | 0 <= k < |pieces[1..]| :: pieces[1..][k] == pieces[k + 1];
      NoPairInConcat(pieces[1..], x, y);
      NoPairSeam(pieces[0], Concat(pieces[1..]), x, y);
    }
  }

  /** A text that lacks one of the characters of `w` does not contain `w`. */
  lemma MissingChar(s: string, w: string, j: nat)
    requires j < |w| && NoChar(s, w[j])
    ensures !Contains(s, w)
  {
    forall p | 0 <= p <= |s| - |w| ensures !OccursAt(s, w, p) {
      var t := s[p..p + |w|];
      assert t[j] == s[p + j];
    }
  }

  /** A text that never holds two neighbouring characters of `w` side by
      side does not contain `w`. */
  lemma MissingPair(s: string, w: string, j: nat)
    requires j + 1 < |w| && NoPair(s, w[j], w[j + 1])
    ensures !Contains(s, w)
  {
    forall p | 0 <= p <= |s| - |w| ensures !OccursAt(s, w, p) {
      var t := s[p..p + |w|];
      assert t[j] == s[p + j] && t[j + 1] == s[p + j + 1];
    }
  }

  /** An occurrence inside one piece is an occurrence in the text. */
  lemma {:induction false} PieceInConcat(pieces: seq<string>, k: nat, w: string, i: nat)
    requires k < |pieces| && OccursAt(pieces[k], w, i)
    ensures Contains(Concat(pieces), w)
  {
    if k == 0 {
      assert Concat(pieces)[i..i + |w|] == pieces[0][i..i + |w|];
      ContainsWitness(Concat(pieces), w, i);
    } else {
      assert pieces[1..][k - 1] == pieces[k];
      PieceInConcat(pieces[1..], k - 1, w, i);
      var rest := Concat(pieces[1..]);
      var q :| 0 <= q <= |rest| - |w| && OccursAt(rest, w, q);
      assert Concat(pieces)[|pieces[0]| + q..|pieces[0]| + q + |w|] == rest[q..q + |w|];
      ContainsWitness(Concat(pieces), w, |pieces[0]| + q);
    }
  }

  // ---------------------------------------------------------------------
  // The descriptions

  /** `evalLines.join(', ')`. */
  function NumberList(ns: seq<nat>): (s: string)
    ensures forall i | 0 <= i < |s| :: IsDigit(s[i]) || s[i] == ',' || s[i] == ' '
  {
    if |ns| == 0 then ""
    else if |ns| == 1 then NatToString(ns[0])
    else NatToString(ns[0]) + ", " + NumberList(ns[1..])
  }

  /** Splitting the list at its commas gives the decimal forms of the
      numbers, in order, each after the first preceded by one space. */
  lemma {:induction false} NumberListFields(ns: seq<nat>)
    requires |ns| > 0
    ensures |Fields(NumberList(ns))| == |ns|
    ensures Fields(NumberList(ns))[0] == NatToString(ns[0])
    ensures forall k | 0 < k < |ns| :: Fields(NumberList(ns))[k] == " " + NatToString(ns[k])
  {
    var first := NatToString(ns[0]);
    assert ',' !in first by { assert forall i | 0 <= i < |first| :: IsDigit(first[i]); }
    if |ns| == 1 {
      SplitOfOne(first, ',');
    } else {
      var rest := NumberList(ns[1..]);
      NumberListFields(ns[1..]);
      assert NumberList(ns) == first + [','] + (" " + rest);
      SplitAppend(first, ',', " " + rest);
      SplitAfter(' ', rest, ',');
      var fs := Fields(rest);
      forall k | 0 < k < |ns| ensures Fields(NumberList(ns))[k] == " " + NatToString(ns[k]) {
        if k > 1 {
          assert Fields(NumberList(ns))[k] == fs[k - 1];
          assert ns[1..][k - 1] == ns[k];
        }
      }
    }
  }

  function LongLinePieces(lineNumber: nat, length: nat): seq<string> {
    ["Line ", NatToString(lineNumber), " is too long (", NatToString(length), " chars). Max ",
     "recommended is ", NatToString(MaxLineLength), "."]
  }

  function EvalPieces(lineNumbers: seq<nat>): seq<string> {
    ["Avoid using ", "'eval()'. Found on ", "line(s): ", NumberList(lineNumbers), ". This can lead to ",
     "security ", "vulnerabilities."]
  }

  function VeryHighComplexityPieces(proxy: nat): seq<string> {
    ["Very high estimated ", "complexity (", NatToString(proxy), "). This code is ", "likely hard to ",
     "understand, test, ", "and maintain."]
  }

  function HighComplexityPieces(proxy: nat): seq<string> {
    ["High estimated ", "complexity (", NatToString(proxy), "). Consider ", "refactoring for ",
     "simplicity."]
  }

  function LowCommentsPieces(commentTenths: nat): seq<string> {
    ["Low comment ", "percentage (", TenthsToString(commentTenths), "%). Code might be ", "difficult to ",
     "understand without ", "comments."]
  }

  function DebugOutputPieces(count: nat): seq<string> {
    ["Excessive debug ", "output (", NatToString(count), " instances). Remove ", "debug logs from ",
     "production code."]
  }

  function DeepNestingPieces(depth: nat): seq<string> {
    ["Potentially deep ", "nesting detected ", "(max depth: ", NatToString(depth), "). Consider ",
     "refactoring to ", "reduce complexity."]
  }

  const ForElsePieces: seq<string> :=
    ["Logical Issue: ", "'for...else' loop ", "in Python used with ", "an 'if' condition ",
     "but no 'break'. The ", "'else' block will ", "execute even if the ", "'if' condition is ",
     "met within the loop."]

  /** The four phrases the scoring step looks for. */
  const LongLinePhrase := "long line"
  const NestingPhrase := "Nesting"
  const ComplexityPhrase := "complexity"
  const LogicalIssuePhrase := "Logical Issue"

  // Each description below is followed by a lemma stating which of the
  // four phrases it contains. No description contains "long line" or
  // "Nesting": the long-line description says "too long", and the nesting
  // one writes "nesting" in lower case.

  function LongLineText(lineNumber: nat, length: nat): string {
    Concat(LongLinePieces(lineNumber, length))
  }

  lemma LongLineLetters(lineNumber: nat, length: nat)
    ensures NoChar(LongLineText(lineNumber, length), 'N')
    ensures NoChar(LongLineText(lineNumber, length), 'I')
  {
    var ps := LongLinePieces(lineNumber, length);
    assert NoChar(ps[0], 'N') && NoChar(ps[0], 'I');
    assert NoChar(ps[1], 'N') && NoChar(ps[1], 'I');
    assert NoChar(ps[2], 'N') && NoChar(ps[2], 'I');
    assert NoChar(ps[3], 'N') && NoChar(ps[3], 'I');
    assert NoChar(ps[4], 'N') && NoChar(ps[4], 'I');
    assert NoChar(ps[5], 'N') && NoChar(ps[5], 'I');
    assert NoChar(ps[6], 'N') && NoChar(ps[6], 'I');
    assert NoChar(ps[7], 'N') && NoChar(ps[7], 'I');
    CharNotInConcat(ps, 'N');
    CharNotInConcat(ps, 'I');
  }

  lemma LongLinePairs(lineNumber: nat, length: nat)
    ensures NoChar(LongLineText(lineNumber, length), 'y')
    ensures NoPair(LongLineText(lineNumber, length), 'l', 'i')
  {
    var ps := LongLinePieces(lineNumber, length);
    assert NoChar(ps[0], 'y') && NoPair(ps[0], 'l', 'i');
    assert NoChar(ps[1], 'y') && NoPair(ps[1], 'l', 'i');
    assert NoChar(ps[2], 'y') && NoPair(ps[2], 'l', 'i');
    assert NoChar(ps[3], 'y') && NoPair(ps[3], 'l', 'i');
    assert NoChar(ps[4], 'y') && NoPair(ps[4], 'l', 'i');
    assert NoChar(ps[5], 'y') && NoPair(ps[5], 'l', 'i');
    assert NoChar(ps[6], 'y') && NoPair(ps[6], 'l', 'i');
    assert NoChar(ps[7], 'y') && NoPair(ps[7], 'l', 'i');
    CharNotInConcat(ps, 'y');
    NoPairInConcat(ps, 'l', 'i');
  }

  lemma LongLineMentions(lineNumber: nat, length: nat)
    ensures var text := LongLineText(lineNumber, length);
      !Contains(text, LongLinePhrase) && !Contains(text, NestingPhrase)
      && !Contains(text, ComplexityPhrase) && !Contains(text, LogicalIssuePhrase)
  {
    var ps := LongLinePieces(lineNumber, length);
    LongLineLetters(lineNumber, length);
    LongLinePairs(lineNumber, length);
    MissingChar(Concat(ps), NestingPhrase, 0);
    MissingChar(Concat(ps), LogicalIssuePhrase, 8);
    MissingChar(Concat(ps), ComplexityPhrase, 9);
    MissingPair(Concat(ps), LongLinePhrase, 5);
  }

  function EvalText(lineNumbers: seq<nat>): string {
    Concat(EvalPieces(lineNumbers))
  }

  lemma EvalLetters(lineNumbers: seq<nat>)
    ensures NoChar(EvalText(lineNumbers), 'N')
    ensures NoChar(EvalText(lineNumbers), 'I')
  {
    var ps := EvalPieces(lineNumbers);
    assert NoChar(ps[0], 'N') && NoChar(ps[0], 'I');
    assert NoChar(ps[1], 'N') && NoChar(ps[1], 'I');
    assert NoChar(ps[2], 'N') && NoChar(ps[2], 'I');
    assert NoChar(ps[3], 'N') && NoChar(ps[3], 'I');
    assert NoChar(ps[4], 'N') && NoChar(ps[4], 'I');
    assert NoChar(ps[5], 'N') && NoChar(ps[5], 'I');
    assert NoChar(ps[6], 'N') && NoChar(ps[6], 'I');
    CharNotInConcat(ps, 'N');
    CharNotInConcat(ps, 'I');
  }

  lemma EvalPairs(lineNumbers: seq<nat>)
    ensures NoChar(EvalText(lineNumbers), 'm')
    ensures NoPair(EvalText(lineNumbers), 'l', 'o')
  {
    var ps := EvalPieces(lineNumbers);
    assert NoChar(ps[0], 'm') && NoPair(ps[0], 'l', 'o');
    assert NoChar(ps[1], 'm') && NoPair(ps[1], 'l', 'o');
    assert NoChar(ps[2], 'm') && NoPair(ps[2], 'l', 'o');
    assert NoChar(ps[3], 'm') && NoPair(ps[3], 'l', 'o');
    assert NoChar(ps[4], 'm') && NoPair(ps[4], 'l', 'o');
    assert NoChar(ps[5], 'm') && NoPair(ps[5], 'l', 'o');
    assert NoChar(ps[6], 'm') && NoPair(ps[6], 'l', 'o');
    CharNotInConcat(ps, 'm');
    NoPairInConcat(ps, 'l', 'o');
  }

  lemma EvalMentions(lineNumbers: seq<nat>)
    ensures var text := EvalText(lineNumbers);
      !Contains(text, LongLinePhrase) && !Contains(text, NestingPhrase)
      && !Contains(text, ComplexityPhrase) && !Contains(text, LogicalIssuePhrase)
  {
    var ps := EvalPieces(lineNumbers);
    EvalLetters(lineNumbers);
    EvalPairs(lineNumbers);
    MissingChar(Concat(ps), NestingPhrase, 0);
    MissingChar(Concat(ps), LogicalIssuePhrase, 8);
    MissingChar(Concat(ps), ComplexityPhrase, 2);
    MissingPair(Concat(ps), LongLinePhrase, 0);
  }

  function VeryHighComplexityText(proxy: nat): string {
    Concat(VeryHighComplexityPieces(proxy))
  }

  lemma VeryHighComplexityLetters(proxy: nat)
    ensures NoChar(VeryHighComplexityText(proxy), 'N')
    ensures NoChar(VeryHighComplexityText(proxy), 'I')
  {
    var ps := VeryHighComplexityPieces(proxy);
    assert NoChar(ps[0], 'N') && NoChar(ps[0], 'I');
    assert NoChar(ps[1], 'N') && NoChar(ps[1], 'I');
    assert NoChar(ps[2], 'N') && NoChar(ps[2], 'I');
    assert NoChar(ps[3], 'N') && NoChar(ps[3], 'I');
    assert NoChar(ps[4], 'N') && NoChar(ps[4], 'I');
    assert NoChar(ps[5], 'N') && NoChar(ps[5], 'I');
    assert NoChar(ps[6], 'N') && NoChar(ps[6], 'I');
    CharNotInConcat(ps, 'N');
    CharNotInConcat(ps, 'I');
  }

  lemma VeryHighComplexityPairs(proxy: nat)
    ensures NoPair(VeryHighComplexityText(proxy), 'l', 'o')
  {
    var ps := VeryHighComplexityPieces(proxy);
    assert NoPair(ps[0], 'l', 'o');
    assert NoPair(ps[1], 'l', 'o');
    assert NoPair(ps[2], 'l', 'o');
    assert NoPair(ps[3], 'l', 'o');
    assert NoPair(ps[4], 'l', 'o');
    assert NoPair(ps[5], 'l', 'o');
    assert NoPair(ps[6], 'l', 'o');
    NoPairInConcat(ps, 'l', 'o');
  }

  lemma VeryHighComplexityMentions(proxy: nat)
    ensures var text := VeryHighComplexityText(proxy);
      !Contains(text, LongLinePhrase) && !Contains(text, NestingPhrase)
      && Contains(text, ComplexityPhrase) && !Contains(text, LogicalIssuePhrase)
  {
    var ps := VeryHighComplexityPieces(proxy);
    VeryHighComplexityLetters(proxy);
    VeryHighComplexityPairs(proxy);
    MissingChar(Concat(ps), NestingPhrase, 0);
    MissingChar(Concat(ps), LogicalIssuePhrase, 8);
    MissingPair(Concat(ps), LongLinePhrase, 0);
    assert ps[1][0..0+|ComplexityPhrase|] == ComplexityPhrase;
    PieceInConcat(ps, 1, ComplexityPhrase, 0);
  }

  function HighComplexityText(proxy: nat): string {
    Concat(HighComplexityPieces(proxy))
  }

  lemma HighComplexityLetters(proxy: nat)
    ensures NoChar(HighComplexityText(proxy), 'N')
    ensures NoChar(HighComplexityText(proxy), 'I')
  {
    var ps := HighComplexityPieces(proxy);
    assert NoChar(ps[0], 'N') && NoChar(ps[0], 'I');
    assert NoChar(ps[1], 'N') && NoChar(ps[1], 'I');
    assert NoChar(ps[2], 'N') && NoChar(ps[2], 'I');
    assert NoChar(ps[3], 'N') && NoChar(ps[3], 'I');
    assert NoChar(ps[4], 'N') && NoChar(ps[4], 'I');
    assert NoChar(ps[5], 'N') && NoChar(ps[5], 'I');
    CharNotInConcat(ps, 'N');
    CharNotInConcat(ps, 'I');
  }

  lemma HighComplexityPairs(proxy: nat)
    ensures NoPair(HighComplexityText(proxy), 'l', 'o')
  {
    var ps := HighComplexityPieces(proxy);
    assert NoPair(ps[0], 'l', 'o');
    assert NoPair(ps[1], 'l', 'o');
    assert NoPair(ps[2], 'l', 'o');
    assert NoPair(ps[3], 'l', 'o');
    assert NoPair(ps[4], 'l', 'o');
    assert NoPair(ps[5], 'l', 'o');
    NoPairInConcat(ps, 'l', 'o');
  }

  lemma HighComplexityMentions(proxy: nat)
    ensures var text := HighComplexityText(proxy);
      !Contains(text, LongLinePhrase) && !Contains(text, NestingPhrase)
      && Contains(text, ComplexityPhrase) && !Contains(text, LogicalIssuePhrase)
  {
    var ps := HighComplexityPieces(proxy);
    HighComplexityLetters(proxy);
    HighComplexityPairs(proxy);
    MissingChar(Concat(ps), NestingPhrase, 0);
    MissingChar(Concat(ps), LogicalIssuePhrase, 8);
    MissingPair(Concat(ps), LongLinePhrase, 0);
    assert ps[1][0..0+|ComplexityPhrase|] == ComplexityPhrase;
    PieceInConcat(ps, 1, ComplexityPhrase, 0);
  }

  function LowCommentsText(commentTenths: nat): string {
    Concat(LowCommentsPieces(commentTenths))
  }

  lemma LowCommentsLetters(commentTenths: nat)
    ensures NoChar(LowCommentsText(commentTenths), 'N')
    ensures NoChar(LowCommentsText(commentTenths), 'I')
  {
    var ps := LowCommentsPieces(commentTenths);
    assert NoChar(ps[0], 'N') && NoChar(ps[0], 'I');
    assert NoChar(ps[1], 'N') && NoChar(ps[1], 'I');
    assert NoChar(ps[2], 'N') && NoChar(ps[2], 'I');
    assert NoChar(ps[3], 'N') && NoChar(ps[3], 'I');
    assert NoChar(ps[4], 'N') && NoChar(ps[4], 'I');
    assert NoChar(ps[5], 'N') && NoChar(ps[5], 'I');
    assert NoChar(ps[6], 'N') && NoChar(ps[6], 'I');
    CharNotInConcat(ps, 'N');
    CharNotInConcat(ps, 'I');
  }

  lemma LowCommentsPairs(commentTenths: nat)
    ensures NoChar(LowCommentsText(commentTenths), 'y')
    ensures NoPair(LowCommentsText(commentTenths), 'l', 'i')
  {
    var ps := LowCommentsPieces(commentTenths);
    assert NoChar(ps[0], 'y') && NoPair(ps[0], 'l', 'i');
    assert NoChar(ps[1], 'y') && NoPair(ps[1], 'l', 'i');
    assert NoChar(ps[2], 'y') && NoPair(ps[2], 'l', 'i');
    assert NoChar(ps[3], 'y') && NoPair(ps[3], 'l', 'i');
    assert NoChar(ps[4], 'y') && NoPair(ps[4], 'l', 'i');
    assert NoChar(ps[5], 'y') && NoPair(ps[5], 'l', 'i');
    assert NoChar(ps[6], 'y') && NoPair(ps[6], 'l', 'i');
    CharNotInConcat(ps, 'y');
    NoPairInConcat(ps, 'l', 'i');
  }

  lemma LowCommentsMentions(commentTenths: nat)
    ensures var text := LowCommentsText(commentTenths);
      !Contains(text, LongLinePhrase) && !Contains(text, NestingPhrase)
      && !Contains(text, ComplexityPhrase) && !Contains(text, LogicalIssuePhrase)
  {
    var ps := LowCommentsPieces(commentTenths);
    LowCommentsLetters(commentTenths);
    LowCommentsPairs(commentTenths);
    MissingChar(Concat(ps), NestingPhrase, 0);
    MissingChar(Concat(ps), LogicalIssuePhrase, 8);
    MissingChar(Concat(ps), ComplexityPhrase, 9);
    MissingPair(Concat(ps), LongLinePhrase, 5);
  }

  function DebugOutputText(count: nat): string {
    Concat(DebugOutputPieces(count))
  }

  lemma DebugOutputLetters(count: nat)
    ensures NoChar(DebugOutputText(count), 'N')
    ensures NoChar(DebugOutputText(count), 'I')
  {
    var ps := DebugOutputPieces(count);
    assert NoChar(ps[0], 'N') && NoChar(ps[0], 'I');
    assert NoChar(ps[1], 'N') && NoChar(ps[1], 'I');
    assert NoChar(ps[2], 'N') && NoChar(ps[2], 'I');
    assert NoChar(ps[3], 'N') && NoChar(ps[3], 'I');
    assert NoChar(ps[4], 'N') && NoChar(ps[4], 'I');
    assert NoChar(ps[5], 'N') && NoChar(ps[5], 'I');
    CharNotInConcat(ps, 'N');
    CharNotInConcat(ps, 'I');
  }

  lemma DebugOutputPairs(count: nat)
    ensures NoChar(DebugOutputText(count), 'y')
    ensures NoPair(DebugOutputText(count), 'l', 'i')
  {
    var ps := DebugOutputPieces(count);
    assert NoChar(ps[0], 'y') && NoPair(ps[0], 'l', 'i');
    assert NoChar(ps[1], 'y') && NoPair(ps[1], 'l', 'i');
    assert NoChar(ps[2], 'y') && NoPair(ps[2], 'l', 'i');
    assert NoChar(ps[3], 'y') && NoPair(ps[3], 'l', 'i');
    assert NoChar(ps[4], 'y') && NoPair(ps[4], 'l', 'i');
    assert NoChar(ps[5], 'y') && NoPair(ps[5], 'l', 'i');
    CharNotInConcat(ps, 'y');
    NoPairInConcat(ps, 'l', 'i');
  }

  lemma DebugOutputMentions(count: nat)
    ensures var text := DebugOutputText(count);
      !Contains(text, LongLinePhrase) && !Contains(text, NestingPhrase)
      && !Contains(text, ComplexityPhrase) && !Contains(text, LogicalIssuePhrase)
  {
    var ps := DebugOutputPieces(count);
    DebugOutputLetters(count);
    DebugOutputPairs(count);
    MissingChar(Concat(ps), NestingPhrase, 0);
    MissingChar(Concat(ps), LogicalIssuePhrase, 8);
    MissingChar(Concat(ps), ComplexityPhrase, 9);
    MissingPair(Concat(ps), LongLinePhrase, 5);
  }

  function DeepNestingText(depth: nat): string {
    Concat(DeepNestingPieces(depth))
  }

  lemma DeepNestingLetters(depth: nat)
    ensures NoChar(DeepNestingText(depth), 'N')
    ensures NoChar(DeepNestingText(depth), 'I')
  {
    var ps := DeepNestingPieces(depth);
    assert NoChar(ps[0], 'N') && NoChar(ps[0], 'I');
    assert NoChar(ps[1], 'N') && NoChar(ps[1], 'I');
    assert NoChar(ps[2], 'N') && NoChar(ps[2], 'I');
    assert NoChar(ps[3], 'N') && NoChar(ps[3], 'I');
    assert NoChar(ps[4], 'N') && NoChar(ps[4], 'I');
    assert NoChar(ps[5], 'N') && NoChar(ps[5], 'I');
    assert NoChar(ps[6], 'N') && NoChar(ps[6], 'I');
    CharNotInConcat(ps, 'N');
    CharNotInConcat(ps, 'I');
  }

  lemma DeepNestingPairs(depth: nat)
    ensures NoPair(DeepNestingText(depth), 'l', 'i')
  {
    var ps := DeepNestingPieces(depth);
    assert NoPair(ps[0], 'l', 'i');
    assert NoPair(ps[1], 'l', 'i');
    assert NoPair(ps[2], 'l', 'i');
    assert NoPair(ps[3], 'l', 'i');
    assert NoPair(ps[4], 'l', 'i');
    assert NoPair(ps[5], 'l', 'i');
    assert NoPair(ps[6], 'l', 'i');
    NoPairInConcat(ps, 'l', 'i');
  }

  lemma DeepNestingMentions(depth: nat)
    ensures var text := DeepNestingText(depth);
      !Contains(text, LongLinePhrase) && !Contains(text, NestingPhrase)
      && Contains(text, ComplexityPhrase) && !Contains(text, LogicalIssuePhrase)
  {
    var ps := DeepNestingPieces(depth);
    DeepNestingLetters(depth);
    DeepNestingPairs(depth);
    MissingChar(Concat(ps), NestingPhrase, 0);
    MissingChar(Concat(ps), LogicalIssuePhrase, 8);
    MissingPair(Concat(ps), LongLinePhrase, 5);
    assert ps[6][7..7+|ComplexityPhrase|] == ComplexityPhrase;
    PieceInConcat(ps, 6, ComplexityPhrase, 7);
  }

  function ForElseText(): string {
    Concat(ForElsePieces)
  }

  lemma ForElseLetters()
    ensures NoChar(ForElseText(), 'N')
  {
    var ps := ForElsePieces;
    assert NoChar(ps[0], 'N');
    assert NoChar(ps[1], 'N');
    assert NoChar(ps[2], 'N');
    assert NoChar(ps[3], 'N');
    assert NoChar(ps[4], 'N');
    assert NoChar(ps[5], 'N');
    assert NoChar(ps[6], 'N');
    assert NoChar(ps[7], 'N');
    assert NoChar(ps[8], 'N');
    CharNotInConcat(ps, 'N');
  }

  lemma ForElsePairs()
    ensures NoPair(ForElseText(), 'l', 'i')
  {
    var ps := ForElsePieces;
    assert NoPair(ps[0], 'l', 'i');
    assert NoPair(ps[1], 'l', 'i');
    assert NoPair(ps[2], 'l', 'i');
    assert NoPair(ps[3], 'l', 'i');
    assert NoPair(ps[4], 'l', 'i');
    assert NoPair(ps[5], 'l', 'i');
    assert NoPair(ps[6], 'l', 'i');
    assert NoPair(ps[7], 'l', 'i');
    assert NoPair(ps[8], 'l', 'i');
    NoPairInConcat(ps, 'l', 'i');
  }

  lemma ForElseComplexityPairs()
    ensures NoPair(ForElseText(), 'm', 'p')
  {
    var ps := ForElsePieces;
    assert NoPair(ps[0], 'm', 'p');
    assert NoPair(ps[1], 'm', 'p');
    assert NoPair(ps[2], 'm', 'p');
    assert NoPair(ps[3], 'm', 'p');
    assert NoPair(ps[4], 'm', 'p');
    assert NoPair(ps[5], 'm', 'p');
    assert NoPair(ps[6], 'm', 'p');
    assert NoPair(ps[7], 'm', 'p');
    assert NoPair(ps[8], 'm', 'p');
    NoPairInConcat(ps, 'm', 'p');
  }

  lemma ForElseMentions()
    ensures var text := ForElseText();
      !Contains(text, LongLinePhrase) && !Contains(text, NestingPhrase)
      && !Contains(text, ComplexityPhrase) && Contains(text, LogicalIssuePhrase)
  {
    var ps := ForElsePieces;
    ForElseLetters();
    ForElsePairs();
    ForElseComplexityPairs();
    MissingChar(Concat(ps), NestingPhrase, 0);
    MissingPair(Concat(ps), LongLinePhrase, 5);
    MissingPair(Concat(ps), ComplexityPhrase, 2);
    assert ps[0][0..0+|LogicalIssuePhrase|] == LogicalIssuePhrase;
    PieceInConcat(ps, 0, LogicalIssuePhrase, 0);
  }

  // ---------------------------------------------------------------------
  // Descriptions by kind

  /** What an issue says, with the numbers its description prints. */
  datatype Message =
    | LongLine(lineNumber: nat, length: nat)
    | EvalCall(lineNumbers: seq<nat>)
    | VeryHighComplexity(proxy: nat)
    | HighComplexity(proxy: nat)
    | LowComments(commentTenths: nat)
    | DebugOutput(count: nat)
    | DeepNesting(depth: nat)
    | ForElseWithoutBreak

  /** The description an issue carries. */
  function Describe(m: Message): string {
    match m
    case LongLine(lineNumber, length) => LongLineText(lineNumber, length)
    case EvalCall(lineNumbers) => EvalText(lineNumbers)
    case VeryHighComplexity(proxy) => VeryHighComplexityText(proxy)
    case HighComplexity(proxy) => HighComplexityText(proxy)
    case LowComments(commentTenths) => LowCommentsText(commentTenths)
    case DebugOutput(count) => DebugOutputText(count)
    case DeepNesting(depth) => DeepNestingText(depth)
    case ForElseWithoutBreak => ForElseText()
  }

  /** Which phrases each kind of description contains: none mentions a long
      line or "Nesting"; the complexity descriptions and the nesting one
      mention complexity; only the for...else one announces a logical issue. */
  lemma TextMentions(m: Message)
    ensures !Contains(Describe(m), LongLinePhrase)
    ensures !Contains(Describe(m), NestingPhrase)
    ensures Contains(Describe(m), ComplexityPhrase) <==> m.VeryHighComplexity? || m.HighComplexity? || m.DeepNesting?
    ensures Contains(Describe(m), LogicalIssuePhrase) <==> m.ForElseWithoutBreak?
  {
    match m
    case LongLine(lineNumber, length) => LongLineMentions(lineNumber, length);
    case EvalCall(lineNumbers) => EvalMentions(lineNumbers);
    case VeryHighComplexity(proxy) => VeryHighComplexityMentions(proxy);
    case HighComplexity(proxy) => HighComplexityMentions(proxy);
    case LowComments(commentTenths) => LowCommentsMentions(commentTenths);
    case DebugOutput(count) => DebugOutputMentions(count);
    case DeepNesting(depth) => DeepNestingMentions(depth);
    case ForElseWithoutBreak => ForElseMentions();
  }
}
