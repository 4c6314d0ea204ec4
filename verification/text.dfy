/** Text primitives shared by the analysis engine: the JavaScript character
    classes used by its regular expressions, `trim`, `split('\n')`,
    `join('\n')`, `includes`, `startsWith`, `toLowerCase` and number
    formatting. A Dafny `char` stands for one UTF-16 code unit of a
    JavaScript string. */
module Text {

  /** JavaScript's `\s` class, which is also the set `String.prototype.trim`
      removes: the WhiteSpace and LineTerminator characters. */
  predicate IsSpace(c: char) {
    c == ' ' || c == '\t' || c == '\n' || c == '\r' || c == '\U{000B}' || c == '\U{000C}'
    || c == '\U{00A0}' || c == '\U{1680}' || ('\U{2000}' <= c <= '\U{200A}')
    || c == '\U{2028}' || c == '\U{2029}' || c == '\U{202F}' || c == '\U{205F}'
    || c == '\U{3000}' || c == '\U{FEFF}'
  }

  predicate IsDigit(c: char) { '0' <= c <= '9' }

  predicate IsAsciiLetter(c: char) { 'a' <= c <= 'z' || 'A' <= c <= 'Z' }

  /** JavaScript's `\w` class (also what `\b` looks at). */
  predicate IsWordChar(c: char) { IsAsciiLetter(c) || IsDigit(c) || c == '_' }

  /** `\b` at position `i` of `s`: exactly one side of `i` is a word character. */
  predicate IsWordBoundary(s: string, i: nat)
    requires i <= |s|
  {
    (i > 0 && IsWordChar(s[i - 1])) != (i < |s| && IsWordChar(s[i]))
  }

  // ---------------------------------------------------------------------
  // Leading and trailing whitespace, trim

  /** Length of the match of `/^\s* /`. */
  function LeadingSpaces(s: string): (n: nat)
    ensures n <= |s|
    ensures forall i | 0 <= i < n :: IsSpace(s[i])
    ensures n < |s| ==> !IsSpace(s[n])
  {
    if |s| == 0 || !IsSpace(s[0]) then 0 else 1 + LeadingSpaces(s[1..])
  }

  /** Length of the match of `/^\t* /`. */
  function LeadingTabs(s: string): (n: nat)
    ensures n <= |s|
    ensures forall i | 0 <= i < n :: s[i] == '\t'
    ensures n < |s| ==> s[n] != '\t'
  {
    if |s| == 0 || s[0] != '\t' then 0 else 1 + LeadingTabs(s[1..])
  }

  function TrailingSpaces(s: string): (n: nat)
    ensures n <= |s|
    ensures forall i | |s| - n <= i < |s| :: IsSpace(s[i])
    ensures n < |s| ==> !IsSpace(s[|s| - 1 - n])
  {
    if |s| == 0 || !IsSpace(s[|s| - 1]) then 0 else 1 + TrailingSpaces(s[..|s| - 1])
  }

  predicate AllSpace(s: string) {
    forall i | 0 <= i < |s| :: IsSpace(s[i])
  }

  /** `String.prototype.trim`. */
  function Trim(s: string): (t: string)
    ensures |t| <= |s|
    ensures t == "" <==> AllSpace(s)
    ensures t != "" ==> !IsSpace(t[0]) && !IsSpace(t[|t| - 1])
  {
    var a := s[LeadingSpaces(s)..];
    a[..|a| - TrailingSpaces(a)]
  }

  /** The trimmed text is the original with a white-space prefix and a
      white-space suffix removed; with the clause of `Trim` that its ends
      are not white space, this fixes it. */
  lemma TrimRemovesOuterSpace(s: string)
    ensures exists i, j | 0 <= i <= j <= |s| :: Trim(s) == s[i..j] && AllSpace(s[..i]) && AllSpace(s[j..])
  {
    var i := LeadingSpaces(s);
    var a := s[i..];
    var j := i + |a| - TrailingSpaces(a);
    assert Trim(s) == s[i..j];
    assert forall k | 0 <= k < |s| - j :: s[j..][k] == a[|a| - TrailingSpaces(a) + k];
  }

  /** A line JavaScript sees as blank: `line.trim() === ''`. */
  predicate IsBlank(line: string) {
    Trim(line) == ""
  }

  // ---------------------------------------------------------------------
  // Prefixes and substrings

  /** `s.startsWith(p)`. */
  predicate StartsWith(s: string, p: string) {
    |p| <= |s| && s[..|p|] == p
  }

  /** `w` occurs in `s` at position `i`. */
  predicate OccursAt(s: string, w: string, i: int) {
    0 <= i && i + |w| <= |s| && s[i..i + |w|] == w
  }

  /** `s.includes(w)`. */
  predicate Contains(s: string, w: string) {
    exists i | 0 <= i <= |s| - |w| :: OccursAt(s, w, i)
  }

  lemma ContainsWitness(s: string, w: string, i: int)
    requires OccursAt(s, w, i)
    ensures Contains(s, w)
  {
  }

  /** One differing character rules out an occurrence at `i`. */
  lemma Mismatch(s: string, w: string, i: nat, j: nat)
    requires j < |w| && i + j < |s| && s[i + j] != w[j]
    ensures !OccursAt(s, w, i)
  {
    if i + |w| <= |s| {
      var t := s[i..i + |w|];
      assert t[j] == s[i + j];
    }
  }

  /** An occurrence inside a substring is an occurrence in the whole string. */
  lemma {:induction false} ContainsTransitive(s: string, a: string, w: string)
    requires Contains(s, a) && Contains(a, w)
    ensures Contains(s, w)
  {
    var i :| 0 <= i <= |s| - |a| && OccursAt(s, a, i);
    var j :| 0 <= j <= |a| - |w| && OccursAt(a, w, j);
    assert a == s[i..i + |a|];
    forall k | 0 <= k < |w| ensures s[i + j + k] == w[k] {
      assert w[k] == a[j + k] == s[i + j + k];
    }
    assert s[i + j..i + j + |w|] == w;
    assert OccursAt(s, w, i + j);
  }

  // ---------------------------------------------------------------------
  // Splitting on one character, and joining with '\n'

  /** `s.split(sep)` for a one-character separator: always at least one
      segment; an empty string gives `[""]`. */
  function Split(s: string, sep: char): (r: seq<string>)
    ensures |r| >= 1
    decreases |s|
  {
    if |s| == 0 then [""]
    else
      var rest := Split(s[1..], sep);
      if s[0] == sep then [""] + rest else [[s[0]] + rest[0]] + rest[1..]
  }

  /** `s.split('\n')`. */
  function Lines(s: string): seq<string> {
    Split(s, '\n')
  }

  /** `s.split(',')`. */
  function Fields(s: string): seq<string> {
    Split(s, ',')
  }

  /** `lines.join('\n')`. */
  function Join(lines: seq<string>): string
  {
    if |lines| == 0 then ""
    else if |lines| == 1 then lines[0]
    else lines[0] + "\n" + Join(lines[1..])
  }

  /** Number of occurrences of `c` in `s`, written as the scan that
      `s.match(/c/g).length` performs. */
  function CountChar(s: string, c: char): (n: nat)
    ensures n == multiset(s)[c]
    decreases |s|
  {
    if |s| == 0 then 0
    else
      assert s == [s[0]] + s[1..];
      (if s[0] == c then 1 else 0) + CountChar(s[1..], c)
  }

  /** Splitting yields one more segment than there are separators, and no
      segment contains the separator. */
  lemma {:induction false} SplitShape(s: string, sep: char)
    ensures |Split(s, sep)| == CountChar(s, sep) + 1
    ensures forall k | 0 <= k < |Split(s, sep)| :: sep !in Split(s, sep)[k]
    decreases |s|
  {
    if |s| > 0 {
      SplitShape(s[1..], sep);
      var rest := Split(s[1..], sep);
      if s[0] != sep {
        var r := Split(s, sep);
        forall k | 0 <= k < |r| ensures sep !in r[k] {
          if k > 0 { assert r[k] == rest[k]; }
        }
      }
    }
  }

  /** Text without the separator is a single segment. */
  lemma {:induction false} SplitOfOne(s: string, sep: char)
    requires sep !in s
    ensures Split(s, sep) == [s]
    decreases |s|
  {
    if |s| > 0 {
      assert sep !in s[1..] by { assert forall c | c in s[1..] :: c in s; }
      SplitOfOne(s[1..], sep);
      assert s == [s[0]] + s[1..];
    }
  }

  /** A separator after separator-free text ends the first segment. */
  lemma {:induction false} SplitAppend(a: string, sep: char, b: string)
    requires sep !in a
    ensures Split(a + [sep] + b, sep) == [a] + Split(b, sep)
    decreases |a|
  {
    if |a| == 0 {
      assert (a + [sep] + b)[1..] == b;
    } else {
      assert sep !in a[1..] by { assert forall c | c in a[1..] :: c in a; }
      SplitAppend(a[1..], sep, b);
      assert (a + [sep] + b)[1..] == a[1..] + [sep] + b;
      assert [a[0]] + a[1..] == a;
    }
  }

  /** A leading character other than the separator joins the first segment. */
  lemma SplitAfter(c: char, x: string, sep: char)
    requires c != sep
    ensures Split([c] + x, sep) == [[c] + Split(x, sep)[0]] + Split(x, sep)[1..]
  {
    assert ([c] + x)[1..] == x;
  }

  /** Joining the segments restores the original text. */
  lemma {:induction false} JoinLines(s: string)
    ensures Join(Lines(s)) == s
    decreases |s|
  {
    if |s| > 0 {
      JoinLines(s[1..]);
      var rest := Lines(s[1..]);
      if s[0] == '\n' {
        if |rest| == 1 {
          assert Join(rest) == rest[0];
        }
        assert Join([""] + rest) == "" + "\n" + Join(rest);
      } else {
        var r := Lines(s);
        if |rest| == 1 {
          assert r == [[s[0]] + rest[0]];
        } else {
          assert r[1..] == rest[1..];
          assert Join(rest) == rest[0] + "\n" + Join(rest[1..]);
        }
      }
    }
  }

  /** Splitting a join of newline-free segments gives those segments back. */
  lemma {:induction false} LinesJoin(lines: seq<string>)
    requires |lines| >= 1
    requires forall k | 0 <= k < |lines| :: '\n' !in lines[k]
    ensures Lines(Join(lines)) == lines
    decreases |lines|, |lines[0]|
  {
    if |lines[0]| == 0 {
      if |lines| == 1 {
      } else {
        var tail := Join(lines[1..]);
        LinesJoin(lines[1..]);
        assert Join(lines) == "\n" + tail;
        assert Join(lines)[1..] == tail;
      }
    } else {
      var first := lines[0];
      var shorter := [first[1..]] + lines[1..];
      assert '\n' !in shorter[0] by { assert forall c | c in first[1..] :: c in first; }
      assert forall k | 0 < k < |shorter| :: shorter[k] == lines[k];
      LinesJoin(shorter);
      if |lines| == 1 {
        assert Join(lines) == first;
        assert Join(shorter) == first[1..];
      } else {
        assert shorter[1..] == lines[1..];
        assert Join(lines) == first + "\n" + Join(lines[1..]);
        assert Join(shorter) == first[1..] + "\n" + Join(lines[1..]);
      }
      assert Join(lines) == [first[0]] + Join(shorter);
      assert Join(lines)[1..] == Join(shorter);
      assert first[0] == first[..1][0];
      assert first[0] != '\n';
      var r := Lines(Join(lines));
      assert r == [[first[0]] + shorter[0]] + shorter[1..];
      assert [first[0]] + first[1..] == first;
    }
  }

  // ---------------------------------------------------------------------
  // Case mapping

  /** Folding used by a regular expression with the `i` flag and without
      the `u` flag: only ASCII letters change case. */
  function FoldCase(c: char): (d: char)
    ensures IsWordChar(d) == IsWordChar(c)
    ensures !('A' <= d <= 'Z')
  {
    if 'A' <= c <= 'Z' then (c as int + 32) as char else c
  }

  /** `String.prototype.toLowerCase` as far as any pattern of the engine can
      observe it: ASCII capitals, the Kelvin sign (lower case `k`) and the
      dotted capital I (lower case `i` followed by a combining dot above). */
  function LowerChar(c: char): string
  {
    if 'A' <= c <= 'Z' then [(c as int + 32) as char]
    else if c == '\U{212A}' then "k"
    else if c == '\U{0130}' then "i\U{0307}"
    else [c]
  }

  function ToLower(s: string): (t: string)
    ensures forall i | 0 <= i < |t| :: !('A' <= t[i] <= 'Z')
    ensures |t| >= |s|
    ensures (forall i | 0 <= i < |s| :: s[i] != '\U{212A}' && s[i] != '\U{0130}') ==>
      |t| == |s| && forall i | 0 <= i < |s| :: t[i] == FoldCase(s[i])
  {
    if |s| == 0 then ""
    else
      var t := LowerChar(s[0]) + ToLower(s[1..]);
      assert forall i | 0 <= i < |LowerChar(s[0])| :: t[i] == LowerChar(s[0])[i];
      t
  }

  // ---------------------------------------------------------------------
  // Number formatting

  function DigitChar(d: nat): (c: char)
    requires d < 10
    ensures IsDigit(c)
  {
    ('0' as int + d) as char
  }

  /** The decimal text of a non-negative integer, as template literals print it. */
  function NatToString(n: nat): (s: string)
    ensures |s| >= 1
    ensures forall i | 0 <= i < |s| :: IsDigit(s[i])
    ensures |s| > 1 ==> s[0] != '0'
  {
    if n < 10 then [DigitChar(n)] else NatToString(n / 10) + [DigitChar(n % 10)]
  }

  /** The text JavaScript prints for the number `tenths / 10` once it has gone
      through `parseFloat(x.toFixed(1))`: no fractional part when it is whole. */
  function TenthsToString(tenths: nat): (s: string)
    ensures |s| >= 1
    ensures forall i | 0 <= i < |s| :: IsDigit(s[i]) || s[i] == '.'
    ensures '.' in s ==> |s| >= 3 && s[|s| - 2] == '.' && forall i | 0 <= i < |s| - 2 :: IsDigit(s[i])
    ensures |s| > 1 && s[0] == '0' ==> s[1] == '.'
  {
    if tenths % 10 == 0 then NatToString(tenths / 10)
    else NatToString(tenths / 10) + "." + [DigitChar(tenths % 10)]
  }

  /** The number a string of decimal digits denotes. */
  function DigitsValue(s: string): nat {
    if |s| == 0 then 0
    else
      var d := s[|s| - 1] as int - '0' as int;
      10 * DigitsValue(s[..|s| - 1]) + (if 0 <= d then d else 0)
  }

  /** Reading the printed digits back gives the number. */
  lemma {:induction false} NatToStringValue(n: nat)
    ensures DigitsValue(NatToString(n)) == n
  {
    if n >= 10 {
      NatToStringValue(n / 10);
      var s := NatToString(n);
      assert s[..|s| - 1] == NatToString(n / 10);
    }
  }

  /** The number a printed mark with at most one decimal denotes, in tenths. */
  function ReadTenths(s: string): nat {
    if |s| >= 2 && s[|s| - 2] == '.' then
      var d := s[|s| - 1] as int - '0' as int;
      10 * DigitsValue(s[..|s| - 2]) + (if 0 <= d then d else 0)
    else 10 * DigitsValue(s)
  }

  /** Reading the printed mark back gives the tenths, and a whole number is
      printed without a trailing `.0`. */
  lemma TenthsToStringValue(tenths: nat)
    ensures ReadTenths(TenthsToString(tenths)) == tenths
    ensures var s := TenthsToString(tenths); |s| >= 2 && s[|s| - 2] == '.' ==> s[|s| - 1] != '0'
    ensures tenths % 10 == 0 <==> '.' !in TenthsToString(tenths)
  {
    var s := TenthsToString(tenths);
    var whole := NatToString(tenths / 10);
    NatToStringValue(tenths / 10);
    if tenths % 10 != 0 {
      assert s[..|s| - 2] == whole;
      assert s[|s| - 2] == '.';
    } else {
      assert !IsDigit('.');
      assert '.' !in s;
    }
  }
}
