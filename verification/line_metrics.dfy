/** Line metrics: every `'\n'`-separated segment of the input is blank, a
    full-line comment or code; the comment share is reported as a
    percentage with one decimal. */
module LineMetrics {
  import opened Text

  datatype LineKind = Blank | Comment | Code

  // The label a line gets: blank when it trims to nothing, a comment when
  // its trimmed text starts with a double slash, slash-star, star or hash,
  // code otherwise.
  function Classify(line: string): LineKind {
    var t := Trim(line);
    if t == "" then Blank
    else if StartsWith(t, "//") || StartsWith(t, "/*") || StartsWith(t, "*") || StartsWith(t, "#") then Comment
    else Code
  }

  /** Number of lines with the given label. */
  function CountKind(lines: seq<string>, k: LineKind): (n: nat)
    ensures n <= |lines|
  {
    if |lines| == 0 then 0
    else CountKind(lines[..|lines| - 1], k) + (if Classify(lines[|lines| - 1]) == k then 1 else 0)
  }

  /** Every line gets exactly one label. */
  lemma {:induction false} KindsPartition(lines: seq<string>)
    ensures CountKind(lines, Blank) + CountKind(lines, Comment) + CountKind(lines, Code) == |lines|
  {
    if |lines| > 0 {
      KindsPartition(lines[..|lines| - 1]);
    }
  }

  /** `part / whole * 100` rounded to one decimal (ties upwards, as
      `toFixed(1)` does), in tenths of a percent; 0 for an empty whole. The
      result is the nearest tenth: `1000 * part / whole` lies in
      `[r - 1/2, r + 1/2)`. */
  function PercentTenths(part: nat, whole: nat): (r: nat)
    ensures whole > 0 ==> -(whole as int) <= 2000 * part - 2 * whole * r < whole
    ensures part <= whole ==> r <= 1000
    ensures whole == 0 ==> r == 0
  {
    if whole == 0 then 0
    else
      var r := (2000 * part + whole) / (2 * whole);
      RoundingBounds(part, whole, r);
      r
  }

  lemma RoundingBounds(part: nat, whole: nat, r: nat)
    requires whole > 0 && r == (2000 * part + whole) / (2 * whole)
    ensures -(whole as int) <= 2000 * part - 2 * whole * r < whole
    ensures part <= whole ==> r <= 1000
  {
    var n, d := 2000 * part + whole, 2 * whole;
    var m := n % d;
    assert n == d * r + m && 0 <= m < d;
    if part <= whole {
      assert d * r < d * 1001;
      MulCancel(d, r, 1001);
    }
  }

  lemma MulCancel(d: nat, a: nat, b: nat)
    requires d * a < d * b
    ensures a < b
  {
  }

  datatype Metrics = Metrics(
    totalLines: nat,
    actualCodeLines: nat,
    commentLines: nat,
    blankLines: nat,
    /** `commentPercentage`, in tenths of a percent. */
    commentTenths: nat)

  /** The metrics of a text. */
  function MetricsOf(code: string): Metrics {
    var lines := Lines(code);
    var comments := CountKind(lines, Comment);
    Metrics(|lines|, CountKind(lines, Code), comments, CountKind(lines, Blank), PercentTenths(comments, |lines|))
  }

  method GetLinesOfCodeMetrics(code: string) returns (m: Metrics)
    ensures m == MetricsOf(code)
    ensures m.totalLines == |Lines(code)| == CountChar(code, '\n') + 1
    ensures m.blankLines == CountKind(Lines(code), Blank)
    ensures m.commentLines == CountKind(Lines(code), Comment)
    ensures m.actualCodeLines == CountKind(Lines(code), Code)
    ensures m.blankLines + m.commentLines + m.actualCodeLines == m.totalLines
    ensures m.commentTenths == PercentTenths(m.commentLines, m.totalLines) <= 1000
    ensures code == "" ==> m.totalLines == 1 && m.blankLines == 1
  {
    var lines := Lines(code);
    SplitShape(code, '\n');
    var totalLines := |lines|;
    var actualCodeLines, commentLines, blankLines := 0, 0, 0;
    var i := 0;
    while i < |lines|
      invariant 0 <= i <= |lines|
      invariant blankLines == CountKind(lines[..i], Blank)
      invariant commentLines == CountKind(lines[..i], Comment)
      invariant actualCodeLines == CountKind(lines[..i], Code)
    {
      var line := lines[i];
      assert lines[..i + 1][..i] == lines[..i];
      var trimmedLine := Trim(line);
      if trimmedLine == "" {
        blankLines := blankLines + 1;
      } else if StartsWith(trimmedLine, "//") || StartsWith(trimmedLine, "/*")
             || StartsWith(trimmedLine, "*") || StartsWith(trimmedLine, "#") {
        commentLines := commentLines + 1;
      } else {
        // An inline comment does not make a code line anything else: all
        // three branches count code.
        if Contains(trimmedLine, "//") && !StartsWith(trimmedLine, "//") {
          actualCodeLines := actualCodeLines + 1;
        } else if Contains(trimmedLine, "/*") && Contains(trimmedLine, "*/") && !StartsWith(trimmedLine, "/*") {
          actualCodeLines := actualCodeLines + 1;
        } else {
          actualCodeLines := actualCodeLines + 1;
        }
      }
      i := i + 1;
    }
    assert lines[..i] == lines;
    KindsPartition(lines);
    m := Metrics(totalLines, actualCodeLines, commentLines, blankLines, PercentTenths(commentLines, totalLines));
  }
}
