/** The time- and space-complexity classifiers. Both first look for a
    function that calls itself, then for one of five known programs (each
    recognised by fixed fragments of its text), and only then fall back on
    pattern heuristics. The heuristics' regular expressions are inputs; the
    fragment tests, the branch-keyword count, the sort-name test and the
    order of the rules are modelled exactly. */
module Classifiers {
  import opened Text
  import Keywords
  import opened FunctionBodies

  /** The complexity labels the classifiers return. */
  datatype Bound =
    | Constant | Logarithmic | Linear | Linearithmic | Quadratic | Cubic
    | Exponential | ExponentialOrFactorial

  function Label(b: Bound): string {
    match b
    case Constant => "O(1)"
    case Logarithmic => "O(log N)"
    case Linear => "O(N)"
    case Linearithmic => "O(N log N)"
    case Quadratic => "O(N^2)"
    case Cubic => "O(N^3)"
    case Exponential => "O(2^N)"
    case ExponentialOrFactorial => "O(2^N) or O(N!)"
  }

  // ---------------------------------------------------------------------
  // Known programs

  const MemoParam := "vector<vector<int>> &memo"
  const OptCostSig := "int optCost(vector<int> &freq, int i, int j)"
  /** The memoised signature ends in the memo parameter. */
  const MemoOptCostSig := "int optCost(vector<int> &freq, int i, int j, " + MemoParam + ")"
  const RecursiveCostLine := "int cost = optCost(freq, i, r - 1) + optCost(freq, r + 1, j);"
  const MemoCostLine := "int cost = optCost(freq, i, r - 1, memo) + optCost(freq, r + 1, j, memo);"
  const FsumLine := "int fsum = sum(freq, i, j);"
  const JavaOptCostSig := "static int optCost(int[] freq, int i, int j)"

  datatype Fixture =
    | CppRecursiveObst | CppTabulatedObst | CppMemoizedObst | JavaRecursiveObst | SlidingWindowMax

  /** The fragments each known program must contain. */
  function Fragments(f: Fixture): seq<string> {
    match f
    case CppRecursiveObst => [OptCostSig, RecursiveCostLine, FsumLine]
    case CppTabulatedObst =>
      [ "int optimalSearchTree(vector<int> &keys, vector<int> &freq)",
        "vector<vector<int>> dp(n, vector<int>(n, 0));",
        "for (int l = 2; l <= n; l++) {",
        "for (int i = 0; i <= n - l; i++) {",
        "for (int r = i; r <= j; r++) {",
        "dp[i][j] = c;" ]
    case CppMemoizedObst => [MemoOptCostSig, MemoCostLine, FsumLine]
    case JavaRecursiveObst => [JavaOptCostSig, RecursiveCostLine, FsumLine]
    case SlidingWindowMax =>
      [ "void find_max(int A[], int N, int K)",
        "map<int, int> Count;",
        "set<int> Myset;",
        "if (x.second == 1) Myset.insert(x.first);",
        "Myset.erase(A[i]);",
        "printf(\"%d\\n\", *Myset.rbegin());" ]
  }

  /** The code contains every fragment of the program and, for the plain
      recursive C++ program, not the memo parameter. */
  predicate Recognised(code: string, f: Fixture) {
    (forall k | 0 <= k < |Fragments(f)| :: Contains(code, Fragments(f)[k]))
    && (f == CppRecursiveObst ==> !Contains(code, MemoParam))
  }

  datatype Option<T> = None | Some(value: T)

  /** Position of a known program in the order both classifiers test them. */
  function Rank(f: Fixture): nat {
    match f
    case CppRecursiveObst => 0
    case CppTabulatedObst => 1
    case CppMemoizedObst => 2
    case JavaRecursiveObst => 3
    case SlidingWindowMax => 4
  }

  /** The override chain: the first program, in the order both classifiers
      test them, that `recognised` holds for. It picks none exactly when
      `recognised` holds for none, and otherwise one that comes before all
      others it holds for. */
  function Pick(recognised: Fixture -> bool): (r: Option<Fixture>)
    ensures r.None? <==> forall f: Fixture :: !recognised(f)
    ensures r.Some? ==> recognised(r.value) && forall f: Fixture :: recognised(f) ==> Rank(r.value) <= Rank(f)
  {
    if recognised(CppRecursiveObst) then Some(CppRecursiveObst)
    else if recognised(CppTabulatedObst) then Some(CppTabulatedObst)
    else if recognised(CppMemoizedObst) then Some(CppMemoizedObst)
    else if recognised(JavaRecursiveObst) then Some(JavaRecursiveObst)
    else if recognised(SlidingWindowMax) then Some(SlidingWindowMax)
    else NoneRecognised(recognised); None
  }

  lemma NoneRecognised(recognised: Fixture -> bool)
    requires !recognised(CppRecursiveObst) && !recognised(CppTabulatedObst) && !recognised(CppMemoizedObst)
    requires !recognised(JavaRecursiveObst) && !recognised(SlidingWindowMax)
    ensures forall f: Fixture :: !recognised(f)
  {
    forall f: Fixture ensures !recognised(f) {
      match f
      case CppRecursiveObst =>
      case CppTabulatedObst =>
      case CppMemoizedObst =>
      case JavaRecursiveObst =>
      case SlidingWindowMax =>
    }
  }

  /** The first known program the code is recognised as. */
  function FirstFixture(code: string): Option<Fixture> {
    Pick(f => Recognised(code, f))
  }

  lemma MemoSignatureHasMemoParam()
    ensures Contains(MemoOptCostSig, MemoParam)
  {
    var prefix := "int optCost(vector<int> &freq, int i, int j, ";
    assert MemoOptCostSig == (prefix + MemoParam) + ")";
    assert (prefix + MemoParam)[|prefix|..] == MemoParam;
    assert MemoOptCostSig[|prefix|..|prefix| + |MemoParam|] == MemoParam;
    ContainsWitness(MemoOptCostSig, MemoParam, |prefix|);
  }

  /** The plain recursive C++ program and the memoised one exclude each
      other: the memoised signature contains the memo parameter whose
      absence the plain one demands. */
  lemma RecursiveAndMemoizedExclusive(code: string)
    ensures !(Recognised(code, CppRecursiveObst) && Recognised(code, CppMemoizedObst))
  {
    if Recognised(code, CppMemoizedObst) {
      assert Contains(code, Fragments(CppMemoizedObst)[0]);
      MemoSignatureHasMemoParam();
      ContainsTransitive(code, MemoOptCostSig, MemoParam);
    }
  }

  // ---------------------------------------------------------------------
  // Heuristic tests computed from the text

  const BranchWords := ["if", "else", "switch", "try", "except", "elif"]

  /** `(lowerCaseCode.match(/\b(if|else|switch|try|except|elif)\b/g) || []).length`. */
  function BranchCount(code: string): nat {
    Keywords.CountWords(ToLower(code), BranchWords, false)
  }

  const SortNames := ["sort(", "qsort(", "mergesort(", "quicksort(", "heapify(", "heapsort(", "binarysearch("]

  /** The lower-cased code names a sorting or binary-search routine. */
  predicate SortCall(code: string) {
    exists k | 0 <= k < |SortNames| :: Contains(ToLower(code), SortNames[k])
  }

  lemma SortSuffix(name: string, at: nat)
    requires at + 5 == |name| && name[at..] == "sort("
    ensures Contains(name, "sort(")
  {
    ContainsWitness(name, "sort(", at);
  }

  /** Every `...sort(` name contains `sort(`, so the test is the same as
      looking for `sort(`, `heapify(` or `binarysearch(`. */
  lemma SortCallReduces(code: string)
    ensures SortCall(code) <==>
      Contains(ToLower(code), "sort(") || Contains(ToLower(code), "heapify(")
      || Contains(ToLower(code), "binarysearch(")
  {
    var lower := ToLower(code);
    if SortCall(code) {
      var k :| 0 <= k < |SortNames| && Contains(lower, SortNames[k]);
      if k == 1 || k == 2 || k == 3 || k == 5 {
        var name := SortNames[k];
        SortSuffix(name, |name| - 5);
        ContainsTransitive(lower, name, "sort(");
      }
    } else {
      assert !Contains(lower, SortNames[0]) && !Contains(lower, SortNames[4]) && !Contains(lower, SortNames[6]);
    }
  }

  // ---------------------------------------------------------------------
  // Time

  /** The regular-expression tests of the time heuristics, evaluated on the
      code: the nested-loop pattern, the number of loop headers in the
      lower-cased code, the binary-tree search and dividing-loop patterns,
      and the single-loop pattern. */
  datatype TimeSignals = TimeSignals(
    nestedLoop: bool, loopHeaders: nat, bstSearch: bool, iterativeLog: bool, linearLoop: bool)

  function FixtureTime(f: Fixture): Bound {
    match f
    case CppRecursiveObst => Exponential
    case CppTabulatedObst => Cubic
    case CppMemoizedObst => Cubic
    case JavaRecursiveObst => Exponential
    case SlidingWindowMax => Linearithmic
  }

  /** What the rule chains read from the text itself: the first known
      program it is recognised as, the number of branch keywords, and
      whether it names a sorting routine. */
  datatype TextFacts = TextFacts(fixture: Option<Fixture>, branchCount: nat, sortCall: bool)

  function FactsOf(code: string): TextFacts {
    TextFacts(FirstFixture(code), BranchCount(code), SortCall(code))
  }

  /** The rule chain of the time classifier, first rule first. */
  function TimeComplexity(facts: TextFacts, isRecursiveGeneral: bool, s: TimeSignals): Bound {
    match facts.fixture
    case Some(f) => FixtureTime(f)
    case None =>
      if isRecursiveGeneral && facts.branchCount >= 5 then ExponentialOrFactorial
      else if s.nestedLoop || s.loopHeaders >= 2 then Quadratic
      else if facts.sortCall then Linearithmic
      else if s.bstSearch || s.iterativeLog then Logarithmic
      else if s.linearLoop then Linear
      else Constant
  }

  /** A recognised program gets its fixed bound whatever the heuristics
      say, and the exponential-or-factorial label needs recursion and at
      least five branch keywords. */
  lemma TimeOverridesFirst(facts: TextFacts, isRecursiveGeneral: bool, s: TimeSignals, r: bool, t: TimeSignals)
    ensures facts.fixture.Some? ==> TimeComplexity(facts, isRecursiveGeneral, s) == TimeComplexity(facts, r, t)
    ensures TimeComplexity(facts, isRecursiveGeneral, s) == ExponentialOrFactorial ==>
      facts.fixture.None? && isRecursiveGeneral && facts.branchCount >= 5
  {
  }

  /** `O(1)` exactly when no rule fires. */
  lemma TimeConstantIff(facts: TextFacts, isRecursiveGeneral: bool, s: TimeSignals)
    ensures TimeComplexity(facts, isRecursiveGeneral, s) == Constant <==>
      facts.fixture.None? && !(isRecursiveGeneral && facts.branchCount >= 5)
      && !s.nestedLoop && s.loopHeaders < 2 && !facts.sortCall
      && !s.bstSearch && !s.iterativeLog && !s.linearLoop
  {
  }

  /** Five branch keywords take at least ten characters of lower-cased
      text (matches do not overlap and every keyword has two or more
      characters), so the exponential-or-factorial rule never fires on
      shorter code. */
  lemma BranchesNeedTenCharacters(code: string)
    requires BranchCount(code) >= 5
    ensures |ToLower(code)| >= 10
  {
    assert forall k | 0 <= k < |BranchWords| :: |BranchWords[k]| >= 2;
    Keywords.CountFromBound(ToLower(code), BranchWords, false, 0);
  }

  /** Code whose lower-cased text is shorter than ten characters is never
      labelled exponential or factorial, whatever the other signals say. */
  lemma ShortCodeNotExponential(code: string, isRecursiveGeneral: bool, s: TimeSignals)
    requires |ToLower(code)| < 10
    ensures TimeComplexity(FactsOf(code), isRecursiveGeneral, s) != ExponentialOrFactorial
  {
    if TimeComplexity(FactsOf(code), isRecursiveGeneral, s) == ExponentialOrFactorial {
      TimeOverridesFirst(FactsOf(code), isRecursiveGeneral, s, isRecursiveGeneral, s);
      BranchesNeedTenCharacters(code);
    }
  }

  method DeriveTimeComplexity(code: string, matches: seq<RawMatch>, s: TimeSignals) returns (b: Bound)
    ensures b == TimeComplexity(FactsOf(code), AnyCallsItself(FunctionInfos(matches)), s)
  {
    var functionInfo := GetFunctionBodies(matches);
    var isRecursiveGeneral := FindRecursion(functionInfo);
    b := TimeComplexity(FactsOf(code), isRecursiveGeneral, s);
  }

  // ---------------------------------------------------------------------
  // Space

  /** The regular-expression tests of the space heuristics: the
      dynamic-allocation pattern, the number of bracket or brace literals,
      and the number of string concatenations in the lower-cased code. */
  datatype SpaceSignals = SpaceSignals(dynamicAllocation: bool, literalCount: nat, concatCount: nat)

  function FixtureSpace(f: Fixture): Bound {
    match f
    case CppRecursiveObst => Linear
    case CppTabulatedObst => Quadratic
    case CppMemoizedObst => Quadratic
    case JavaRecursiveObst => Linear
    case SlidingWindowMax => Linear
  }

  /** The rule chain of the space classifier. Only three labels occur, and
      `O(N^2)` only for the two dynamic-programming tables. */
  function SpaceComplexity(fixture: Option<Fixture>, isRecursiveGeneral: bool, s: SpaceSignals): (b: Bound)
    ensures b == Constant || b == Linear || b == Quadratic
    ensures b == Quadratic <==> fixture == Some(CppTabulatedObst) || fixture == Some(CppMemoizedObst)
  {
    match fixture
    case Some(f) => FixtureSpace(f)
    case None =>
      if s.dynamicAllocation || s.literalCount > 2 || s.concatCount > 5 then Linear
      else if isRecursiveGeneral then Linear
      else Constant
  }

  /** Without a recognised program or a growth signal, the space is linear
      exactly when some function calls itself, and constant otherwise. */
  lemma SpaceLinearIffRecursive(isRecursiveGeneral: bool, s: SpaceSignals)
    requires !s.dynamicAllocation && s.literalCount <= 2 && s.concatCount <= 5
    ensures SpaceComplexity(None, isRecursiveGeneral, s) == Linear <==> isRecursiveGeneral
    ensures SpaceComplexity(None, isRecursiveGeneral, s) == Constant <==> !isRecursiveGeneral
  {
  }

  /** For a recognised program the two classifiers agree with each other:
      exponential time comes with linear space, cubic time with quadratic
      space, and `O(N log N)` time with linear space. */
  lemma FixtureBoundsAgree(facts: TextFacts, r1: bool, r2: bool, t: TimeSignals, s: SpaceSignals)
    requires facts.fixture.Some?
    ensures (TimeComplexity(facts, r1, t) == Exponential && SpaceComplexity(facts.fixture, r2, s) == Linear)
      || (TimeComplexity(facts, r1, t) == Cubic && SpaceComplexity(facts.fixture, r2, s) == Quadratic)
      || (TimeComplexity(facts, r1, t) == Linearithmic && SpaceComplexity(facts.fixture, r2, s) == Linear)
  {
  }

  method DeriveSpaceComplexity(code: string, matches: seq<RawMatch>, s: SpaceSignals) returns (b: Bound)
    ensures b == SpaceComplexity(FirstFixture(code), AnyCallsItself(FunctionInfos(matches)), s)
  {
    var functionInfo := GetFunctionBodies(matches);
    var isRecursiveGeneral := FindRecursion(functionInfo);
    b := SpaceComplexity(FirstFixture(code), isRecursiveGeneral, s);
  }
}
