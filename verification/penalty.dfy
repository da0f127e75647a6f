/**
 The penalty rules 1 to 3 (_lost_point_level1, _lost_point_level2 and _lost_point_level3,
 qml/utilities/qrcode/util.py:201-344) against plain definitions of what they count
 (ISO/IEC 18004:2015, section 7.8.3).
 */
module Penalty {

  type Matrix = seq<seq<bool>>

  predicate IsSquare(m: Matrix) {
    forall r :: 0 <= r < |m| ==> |m[r]| == |m|
  }

  function Column(m: Matrix, c: nat): (r: seq<bool>)
    requires IsSquare(m) && c < |m|
    ensures |r| == |m|
  {
    seq(|m|, i requires 0 <= i < |m| => m[i][c])
  }

  /** The sum of a quantity over the rows, and over the columns. */
  ghost function RowSum(m: Matrix, f: seq<bool> -> nat, n: nat): nat
    requires n <= |m|
  {
    if n == 0 then 0 else RowSum(m, f, n - 1) + f(m[n - 1])
  }

  ghost function ColumnSum(m: Matrix, f: seq<bool> -> nat, n: nat): nat
    requires IsSquare(m) && n <= |m|
  {
    if n == 0 then 0 else ColumnSum(m, f, n - 1) + f(Column(m, n - 1))
  }

  // ---- rule 1: runs of one colour ------------------------------------------------------------

  /** The maximal run that starts at s is line[s..e]. */
  ghost predicate IsMaximalRun(line: seq<bool>, s: nat, e: nat) {
    && s < e <= |line|
    && (forall i :: s <= i < e ==> line[i] == line[s])
    && (s > 0 ==> line[s - 1] != line[s])
    && (e < |line| ==> line[e] != line[s])
  }

  function RunEnd(line: seq<bool>, s: nat): (e: nat)
    requires s < |line|
    ensures s < e <= |line| && (forall i :: s <= i < e ==> line[i] == line[s])
    ensures e < |line| ==> line[e] != line[s]
    decreases |line| - s
  {
    if s + 1 < |line| && line[s + 1] == line[s] then RunEnd(line, s + 1) else s + 1
  }

  function RunPoints(length: nat): nat {
    if length >= 5 then length - 2 else 0
  }

  /** Points of the maximal runs from s on. */
  function RunsFrom(line: seq<bool>, s: nat): nat
    requires s <= |line|
    decreases |line| - s
  {
    if s == |line| then 0 else RunPoints(RunEnd(line, s) - s) + RunsFrom(line, RunEnd(line, s))
  }

  function Runs(line: seq<bool>): nat {
    RunsFrom(line, 0)
  }

  lemma {:induction false} RunEndIsMaximal(line: seq<bool>, s: nat, e: nat)
    requires IsMaximalRun(line, s, e)
    ensures RunEnd(line, s) == e
  {}

  /** The histogram's sum of count * (length - 2) over the lengths 5 to n - 1. */
  function Weighted(container: seq<nat>, n: nat): nat
    requires n <= |container|
  {
    if n <= 5 then 0 else Weighted(container, n - 1) + container[n - 1] * (n - 1 - 2)
  }

  lemma {:induction false} OneMoreRun(container: seq<nat>, length: nat, n: nat)
    requires length < |container| && n <= |container| && length >= 5
    ensures Weighted(container[length := container[length] + 1], n) ==
            Weighted(container, n) + if length < n then length - 2 else 0
  {
    if n > 5 {
      OneMoreRun(container, length, n - 1);
      if length == n - 1 {
        assert (container[length] + 1) * (length - 2) == container[length] * (length - 2) + (length - 2);
      }
    }
  }

  lemma {:induction false} NoRuns(container: seq<nat>, n: nat)
    requires n <= |container| && forall i :: 0 <= i < |container| ==> container[i] == 0
    ensures Weighted(container, n) == 0
  {
    if n > 5 {
      NoRuns(container, n - 1);
    }
  }

  /** A finished run enters the histogram if it is long enough. */
  method Record(container: seq<nat>, length: nat) returns (r: seq<nat>)
    requires length < |container|
    ensures |r| == |container| && Weighted(r, |r|) == Weighted(container, |container|) + RunPoints(length)
  {
    r := container;
    if length >= 5 {
      OneMoreRun(r, length, |r|);
      r := r[length := r[length] + 1];
    }
  }

  /** The scan of one line: every run of at least five enters the histogram once. */
  method CountRuns(line: seq<bool>, container: seq<nat>) returns (r: seq<nat>)
    requires |container| == |line| + 1 && line != []
    ensures |r| == |container| && Weighted(r, |r|) == Weighted(container, |container|) + Runs(line)
  {
    hide Weighted, RunPoints;
    r := container;
    var previousColor, length := line[0], 0;
    for col := 0 to |line|
      invariant |r| == |container| && length <= col && (col > 0 ==> length > 0)
      invariant forall i :: col - length <= i < col ==> line[i] == previousColor
      invariant col - length == 0 || line[col - length - 1] != line[col - length]
      invariant col == 0 ==> previousColor == line[0]
      invariant Weighted(r, |r|) + RunsFrom(line, col - length) == Weighted(container, |container|) + Runs(line)
    {
      if line[col] == previousColor {
        length := length + 1;
      } else {
        RunEndIsMaximal(line, col - length, col);
        r := Record(r, length);
        length := 1;
        previousColor := line[col];
      }
    }
    RunEndIsMaximal(line, |line| - length, |line|);
    r := Record(r, length);
  }

  method LostPointLevel1(modules: Matrix) returns (lostPoint: nat)
    requires IsSquare(modules)
    ensures lostPoint == RowSum(modules, Runs, |modules|) + ColumnSum(modules, Runs, |modules|)
  {
    hide Weighted, Runs;
    var n := |modules|;
    var container: seq<nat> := seq(n + 1, _ => 0);
    NoRuns(container, |container|);
    for row := 0 to n
      invariant |container| == n + 1 && Weighted(container, n + 1) == RowSum(modules, Runs, row)
    {
      container := CountRuns(modules[row], container);
    }
    for col := 0 to n
      invariant |container| == n + 1
      invariant Weighted(container, n + 1) == RowSum(modules, Runs, n) + ColumnSum(modules, Runs, col)
    {
      container := CountRuns(Column(modules, col), container);
    }
    lostPoint := SumOfHistogram(container);
  }

  method SumOfHistogram(container: seq<nat>) returns (sum: nat)
    ensures sum == Weighted(container, |container|)
  {
    sum := 0;
    var length := 5;
    while length < |container|
      invariant length <= |container| || length == 5
      invariant sum == Weighted(container, if length <= |container| then length else |container|)
    {
      sum := sum + container[length] * (length - 2);
      length := length + 1;
    }
  }

  // ---- rule 2: blocks of one colour ----------------------------------------------------------

  predicate IsBlock(top: seq<bool>, bottom: seq<bool>, c: nat) {
    && c + 1 < |top| && c + 1 < |bottom|
    && top[c] == top[c + 1] == bottom[c] == bottom[c + 1]
  }

  /** How many of the two-by-two blocks of a pair of rows, from column c to the end, have one colour. */
  function BlocksFrom(top: seq<bool>, bottom: seq<bool>, c: nat): nat
    decreases |top| - c
  {
    if c + 1 >= |top| then 0
    else BlocksFrom(top, bottom, c + 1) + if IsBlock(top, bottom, c) then 1 else 0
  }

  function Blocks(m: Matrix, rows: nat): nat
    requires IsSquare(m) && (rows > 0 ==> rows < |m|)
  {
    if rows == 0 then 0 else Blocks(m, rows - 1) + BlocksFrom(m[rows - 1], m[rows], 0)
  }

  method CountBlocks(top: seq<bool>, bottom: seq<bool>) returns (points: nat)
    requires |top| == |bottom|
    ensures points == 3 * BlocksFrom(top, bottom, 0)
  {
    points := 0;
    var col := 0;
    while col + 1 < |top|
      invariant points + 3 * BlocksFrom(top, bottom, col) == 3 * BlocksFrom(top, bottom, 0)
    {
      var topRight := top[col + 1];
      if topRight != bottom[col + 1] {
        // the next block would share the differing pair
        col := col + 1;
      } else if topRight != top[col] {
      } else if topRight != bottom[col] {
      } else {
        points := points + 3;
      }
      col := col + 1;
    }
  }

  method LostPointLevel2(modules: Matrix) returns (lostPoint: nat)
    requires IsSquare(modules)
    ensures lostPoint == 3 * Blocks(modules, if modules == [] then 0 else |modules| - 1)
  {
    lostPoint := 0;
    var row := 0;
    while row + 1 < |modules|
      invariant row < |modules| || row == 0
      invariant lostPoint == 3 * Blocks(modules, row)
    {
      var points := CountBlocks(modules[row], modules[row + 1]);
      lostPoint := lostPoint + points;
      row := row + 1;
    }
  }

  // ---- rule 3: finder-like patterns ----------------------------------------------------------

  /** 1 : 1 : 3 : 1 : 1 followed by four light modules. */
  function Pattern1(): seq<bool> {
    [true, false, true, true, true, false, true, false, false, false, false]
  }

  /** Four light modules followed by 1 : 1 : 3 : 1 : 1. */
  function Pattern2(): seq<bool> {
    [false, false, false, false, true, false, true, true, true, false, true]
  }

  predicate IsFinderLike(line: seq<bool>, c: nat) {
    c + 11 <= |line| && (line[c..c + 11] == Pattern1() || line[c..c + 11] == Pattern2())
  }

  function FinderLikeFrom(line: seq<bool>, c: nat): nat
    decreases |line| - c
  {
    if c + 11 > |line| then 0
    else FinderLikeFrom(line, c + 1) + if IsFinderLike(line, c) then 1 else 0
  }

  function FinderLike(line: seq<bool>): nat {
    40 * FinderLikeFrom(line, 0)
  }

  /** The scan's condition, module by module. */
  predicate MatchesWindow(line: seq<bool>, col: nat)
    requires col + 10 < |line|
  {
    && !line[col + 1] && line[col + 4] && !line[col + 5] && line[col + 6] && !line[col + 9]
    && ((line[col] && line[col + 2] && line[col + 3] && !line[col + 7] && !line[col + 8] && !line[col + 10])
        || (!line[col] && !line[col + 2] && !line[col + 3] && line[col + 7] && line[col + 8] && line[col + 10]))
  }

  lemma {:induction false} WindowIsPattern(line: seq<bool>, col: nat)
    requires col + 10 < |line|
    ensures MatchesWindow(line, col) <==> IsFinderLike(line, col)
  {
    var w := line[col..col + 11];
    assert w[0] == line[col] && w[1] == line[col + 1] && w[2] == line[col + 2] && w[3] == line[col + 3];
    assert w[4] == line[col + 4] && w[5] == line[col + 5] && w[6] == line[col + 6] && w[7] == line[col + 7];
    assert w[8] == line[col + 8] && w[9] == line[col + 9] && w[10] == line[col + 10];
    if MatchesWindow(line, col) {
      if line[col] {
        assert w == Pattern1();
      } else {
        assert w == Pattern2();
      }
    }
  }

  /** A dark last module rules out the next window: both patterns are light in their tenth place. */
  lemma {:induction false} SkippedWindow(line: seq<bool>, col: nat)
    requires col + 10 < |line| && line[col + 10]
    ensures !IsFinderLike(line, col + 1)
  {
    if col + 12 <= |line| {
      assert line[col + 1..col + 12][9] == line[col + 10];
    }
  }

  method CountFinderLike(line: seq<bool>) returns (points: nat)
    ensures points == FinderLike(line)
  {
    hide IsFinderLike, MatchesWindow;
    points := 0;
    var col := 0;
    while col + 10 < |line|
      invariant points + 40 * FinderLikeFrom(line, col) == FinderLike(line)
    {
      WindowIsPattern(line, col);
      if MatchesWindow(line, col) {
        points := points + 40;
      }
      if line[col + 10] {
        SkippedWindow(line, col);
        col := col + 1;
      }
      col := col + 1;
    }
  }

  method LostPointLevel3(modules: Matrix) returns (lostPoint: nat)
    requires IsSquare(modules)
    ensures lostPoint == RowSum(modules, FinderLike, |modules|) + ColumnSum(modules, FinderLike, |modules|)
  {
    hide FinderLike;
    lostPoint := 0;
    for row := 0 to |modules|
      invariant lostPoint == RowSum(modules, FinderLike, row)
    {
      var points := CountFinderLike(modules[row]);
      lostPoint := lostPoint + points;
    }
    for col := 0 to |modules|
      invariant lostPoint == RowSum(modules, FinderLike, |modules|) + ColumnSum(modules, FinderLike, col)
    {
      var points := CountFinderLike(Column(modules, col));
      lostPoint := lostPoint + points;
    }
  }

  /** The score of a symbol; level4 stands for the balance of dark and light modules. */
  ghost function Score(modules: Matrix, level4: Matrix -> nat): nat
    requires IsSquare(modules)
  {
    var n := |modules|;
    RowSum(modules, Runs, n) + ColumnSum(modules, Runs, n) + 3 * Blocks(modules, if n == 0 then 0 else n - 1)
    + RowSum(modules, FinderLike, n) + ColumnSum(modules, FinderLike, n) + level4(modules)
  }

  method LostPoint(modules: Matrix, level4: Matrix -> nat) returns (lostPoint: nat)
    requires IsSquare(modules)
    ensures lostPoint == Score(modules, level4)
  {
    hide RowSum, ColumnSum, Blocks;
    lostPoint := LostPointLevel1(modules);
    var points := LostPointLevel2(modules);
    lostPoint := lostPoint + points;
    points := LostPointLevel3(modules);
    lostPoint := lostPoint + points + level4(modules);
  }
}
