/** Counting the matches of a global, word-bounded alternation
    `/\b(w1|w2|...)\b/g`, as `String.prototype.match` does: the scan tries
    each position from left to right; at a position where `\b` holds it tries
    the alternatives in the order written and takes the first one that is
    followed by `\b`; after a match it resumes right behind it. */
module Keywords {
  import opened Text

  /** Character comparison of a pattern with or without the `i` flag. */
  function Canon(c: char, ignoreCase: bool): char {
    if ignoreCase then FoldCase(c) else c
  }

  predicate NonEmptyWords(words: seq<string>) {
    forall k | 0 <= k < |words| :: |words[k]| > 0
  }

  /** The characters of `w` appear at position `i` of `s`. */
  predicate SpellsAt(s: string, i: nat, w: string, ignoreCase: bool)
    decreases |w|
  {
    |w| == 0 || (i < |s| && Canon(s[i], ignoreCase) == w[0] && SpellsAt(s, i + 1, w[1..], ignoreCase))
  }

  /** A word without capitals spells itself, with or without the `i` flag. */
  lemma {:induction false} SpellsVerbatim(s: string, i: nat, w: string, ignoreCase: bool)
    requires i + |w| <= |s| && s[i..i + |w|] == w
    requires forall j | 0 <= j < |w| :: !('A' <= w[j] <= 'Z')
    ensures SpellsAt(s, i, w, ignoreCase)
    decreases |w|
  {
    if |w| > 0 {
      assert s[i] == w[0];
      assert s[i + 1..i + 1 + |w[1..]|] == w[1..];
      SpellsVerbatim(s, i + 1, w[1..], ignoreCase);
    }
  }

  /** The alternative `w` followed by `\b` matches at position `i`. */
  predicate WordAt(s: string, i: nat, w: string, ignoreCase: bool) {
    SpellsAt(s, i, w, ignoreCase) && i + |w| <= |s| && IsWordBoundary(s, i + |w|)
  }

  /** Length of the match at `i` (0 when there is none): the first listed
      word that matches there. */
  function MatchLength(s: string, i: nat, words: seq<string>, ignoreCase: bool): (n: nat)
    requires i <= |s|
    ensures n <= |s| - i
  {
    if |words| == 0 then 0
    else if WordAt(s, i, words[0], ignoreCase) then |words[0]|
    else MatchLength(s, i, words[1..], ignoreCase)
  }

  /** A match found at `i` is one of the alternatives, followed by `\b`. */
  lemma {:induction false} MatchLengthIsWord(s: string, i: nat, words: seq<string>, ignoreCase: bool)
    requires i <= |s|
    ensures var n := MatchLength(s, i, words, ignoreCase);
      n == 0 || exists k | 0 <= k < |words| :: |words[k]| == n && WordAt(s, i, words[k], ignoreCase)
    decreases |words|
  {
    if |words| > 0 && !WordAt(s, i, words[0], ignoreCase) {
      MatchLengthIsWord(s, i, words[1..], ignoreCase);
      var n := MatchLength(s, i, words, ignoreCase);
      if n > 0 {
        var k :| 0 <= k < |words[1..]| && |words[1..][k]| == n && WordAt(s, i, words[1..][k], ignoreCase);
        assert words[1..][k] == words[k + 1];
      }
    }
  }

  /** Alternatives that do not match are skipped: the match at `i` is that
      of the remaining list. */
  lemma {:induction false} SkipWords(s: string, i: nat, words: seq<string>, ignoreCase: bool, j: nat)
    requires i <= |s| && j <= |words|
    requires forall k | 0 <= k < j :: !WordAt(s, i, words[k], ignoreCase)
    ensures MatchLength(s, i, words, ignoreCase) == MatchLength(s, i, words[j..], ignoreCase)
    decreases j
  {
    if j > 0 {
      assert words[1..][j - 1..] == words[j..];
      SkipWords(s, i, words[1..], ignoreCase, j - 1);
    }
  }

  /** No alternative matches where the text's character starts none of them. */
  lemma {:induction false} NoWordStartsWith(s: string, i: nat, words: seq<string>, ignoreCase: bool)
    requires i < |s| && NonEmptyWords(words)
    requires forall k | 0 <= k < |words| :: words[k][0] != Canon(s[i], ignoreCase)
    ensures MatchLength(s, i, words, ignoreCase) == 0
  {
    SkipWords(s, i, words, ignoreCase, |words|);
  }

  /** Number of matches of the scan started at position `i`. */
  function CountFrom(s: string, words: seq<string>, ignoreCase: bool, i: nat): nat
    requires i <= |s|
    decreases |s| - i
  {
    if i == |s| then 0
    else
      var n := if IsWordBoundary(s, i) then MatchLength(s, i, words, ignoreCase) else 0;
      if n > 0 then 1 + CountFrom(s, words, ignoreCase, i + n)
      else CountFrom(s, words, ignoreCase, i + 1)
  }

  /** `(s.match(/\b(words)\b/g) || []).length`. */
  function CountWords(s: string, words: seq<string>, ignoreCase: bool): nat {
    CountFrom(s, words, ignoreCase, 0)
  }

  /** Matches never overlap, so words of at least two characters match at
      most once per two characters of text. */
  lemma {:induction false} CountFromBound(s: string, words: seq<string>, ignoreCase: bool, i: nat)
    requires i <= |s|
    requires forall k | 0 <= k < |words| :: |words[k]| >= 2
    ensures 2 * CountFrom(s, words, ignoreCase, i) <= |s| - i
    decreases |s| - i
  {
    if i < |s| {
      var n := if IsWordBoundary(s, i) then MatchLength(s, i, words, ignoreCase) else 0;
      if n > 0 {
        MatchLengthIsWord(s, i, words, ignoreCase);
        CountFromBound(s, words, ignoreCase, i + n);
      } else {
        CountFromBound(s, words, ignoreCase, i + 1);
      }
    }
  }

  // ---------------------------------------------------------------------
  // Case insensitivity

  function FoldAll(s: string): (t: string)
    ensures |t| == |s|
    ensures forall i | 0 <= i < |s| :: t[i] == FoldCase(s[i])
  {
    seq(|s|, i requires 0 <= i < |s| => FoldCase(s[i]))
  }

  predicate LowerWords(words: seq<string>) {
    forall k, j | 0 <= k < |words| && 0 <= j < |words[k]| :: !('A' <= words[k][j] <= 'Z')
  }

  lemma {:induction false} SpellsAtFold(s: string, i: nat, w: string)
    requires forall j | 0 <= j < |w| :: !('A' <= w[j] <= 'Z')
    ensures SpellsAt(s, i, w, true) == SpellsAt(FoldAll(s), i, w, true)
    decreases |w|
  {
    if |w| > 0 {
      SpellsAtFold(s, i + 1, w[1..]);
    }
  }

  lemma {:induction false} MatchLengthFold(s: string, i: nat, words: seq<string>)
    requires i <= |s|
    requires LowerWords(words)
    ensures MatchLength(s, i, words, true) == MatchLength(FoldAll(s), i, words, true)
    decreases |words|
  {
    if |words| > 0 {
      SpellsAtFold(s, i, words[0]);
      if i + |words[0]| <= |s| {
        assert IsWordBoundary(s, i + |words[0]|) == IsWordBoundary(FoldAll(s), i + |words[0]|);
      }
      assert LowerWords(words[1..]) by {
        forall k, j | 0 <= k < |words[1..]| && 0 <= j < |words[1..][k]|
          ensures !('A' <= words[1..][k][j] <= 'Z')
        {
          assert words[1..][k] == words[k + 1];
        }
      }
      MatchLengthFold(s, i, words[1..]);
    }
  }

  /** With the `i` flag the count does not depend on the case of ASCII letters. */
  lemma {:induction false} CountFromFold(s: string, words: seq<string>, i: nat)
    requires i <= |s|
    requires LowerWords(words)
    ensures CountFrom(s, words, true, i) == CountFrom(FoldAll(s), words, true, i)
    decreases |s| - i
  {
    if i < |s| {
      MatchLengthFold(s, i, words);
      assert IsWordBoundary(s, i) == IsWordBoundary(FoldAll(s), i);
      var n := if IsWordBoundary(s, i) then MatchLength(s, i, words, true) else 0;
      if n > 0 {
        CountFromFold(s, words, i + n);
      } else {
        CountFromFold(s, words, i + 1);
      }
    }
  }
}
