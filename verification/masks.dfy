/**
 The eight mask patterns (mask_func, qml/utilities/qrcode/util.py:144-162), and the same patterns as the pictures
 that a scanner has of them (ISO/IEC 18004:2015, section 7.8.2): one period each.
 */
module Masks {
  predicate MaskAt(pattern: nat, i: nat, j: nat)
    requires pattern < 8
  {
    match pattern
    case 0 => (i + j) % 2 == 0
    case 1 => i % 2 == 0
    case 2 => j % 3 == 0
    case 3 => (i + j) % 3 == 0
    case 4 => (i / 2 + j / 3) % 2 == 0
    case 5 => (i * j) % 2 + (i * j) % 3 == 0
    case 6 => ((i * j) % 2 + (i * j) % 3) % 2 == 0
    case _ => ((i * j) % 3 + (i + j) % 2) % 2 == 0
  }

  /** One period of a pattern, row by row; '#' is a module to invert. */
  function Picture(pattern: nat): seq<string>
    requires pattern < 8
  {
    match pattern
    case 0 => ["#.",
               ".#"]
    case 1 => ["#",
               "."]
    case 2 => ["#.."]
    case 3 => ["#..",
               "..#",
               ".#."]
    case 4 => ["###...",
               "###...",
               "...###",
               "...###"]
    case 5 => ["######",
               "#.....",
               "#..#..",
               "#.#.#.",
               "#..#..",
               "#....."]
    case 6 => ["######",
               "###...",
               "##.##.",
               "#.#.#.",
               "#.##.#",
               "#...##"]
    case _ => ["#.#.#.",
               "...###",
               "#...##",
               ".#.#.#",
               "###...",
               ".###.."]
  }

  /** The period down and across. */
  function Period(pattern: nat): (p: (nat, nat))
    requires pattern < 8
    ensures p.0 > 0 && p.1 > 0 && |Picture(pattern)| == p.0
  {
    match pattern
    case 0 => (2, 2)
    case 1 => (2, 1)
    case 2 => (1, 3)
    case 3 => (3, 3)
    case 4 => (4, 6)
    case _ => (6, 6)
  }

  lemma {:induction false} PictureWidth(pattern: nat, r: nat)
    requires pattern < 8 && r < |Picture(pattern)|
    ensures |Picture(pattern)[r]| == Period(pattern).1
  {}

  /** The scanner's mask: the picture, repeated in both directions. */
  predicate Inverts(pattern: nat, i: nat, j: nat)
    requires pattern < 8
  {
    PictureWidth(pattern, i % Period(pattern).0);
    Picture(pattern)[i % Period(pattern).0][j % Period(pattern).1] == '#'
  }

  // ---- the formulas are the pictures ---------------------------------------------------------

  /** Products by remainders. */
  lemma {:induction false} ProductMod6(i: nat, j: nat)
    ensures (i * j) % 6 == ((i % 6) * (j % 6)) % 6
  {
    ProductOfParts(i / 6, i % 6, j / 6, j % 6);
  }

  lemma {:induction false} ProductOfParts(a: nat, r: nat, b: nat, t: nat)
    ensures ((6 * a + r) * (6 * b + t)) % 6 == (r * t) % 6
  {
    var x := 6 * b + t;
    assert (6 * a + r) * x == 6 * (a * x) + r * x;
    assert r * x == 6 * (r * b) + r * t;
    SplitOffSixes(a * x, r * b, r * t);
  }

  lemma {:induction false} SplitOffSixes(k: nat, l: nat, x: nat)
    ensures (6 * k + (6 * l + x)) % 6 == x % 6
  {
    AddSixes(k, 6 * l + x);
    AddSixes(l, x);
  }

  lemma {:induction false} AddSixes(k: nat, x: nat)
    ensures (6 * k + x) % 6 == x % 6
  {}

  lemma {:induction false} ModOf6(x: nat)
    ensures x % 2 == x % 6 % 2 && x % 3 == x % 6 % 3
  {}

  lemma {:induction false} ProductRemainders(i: nat, j: nat)
    ensures (i * j) % 2 == ((i % 6) * (j % 6)) % 2 && (i * j) % 3 == ((i % 6) * (j % 6)) % 3
  {
    ProductMod6(i, j);
    ModOf6(i * j);
    ModOf6((i % 6) * (j % 6));
  }

  lemma {:induction false} SumRemainders(i: nat, j: nat)
    ensures (i + j) % 2 == (i % 2 + j % 2) % 2
    ensures (i + j) % 3 == (i % 3 + j % 3) % 3
  {
    SumOfHalves(i / 2, i % 2, j / 2, j % 2);
    SumOfThirds(i / 3, i % 3, j / 3, j % 3);
  }

  lemma {:induction false} SumMod6(i: nat, j: nat)
    ensures (i + j) % 2 == (i % 6 + j % 6) % 2
  {
    SumOfParts(i / 6, i % 6, j / 6, j % 6);
  }

  lemma {:induction false} SumOfParts(a: nat, r: nat, b: nat, t: nat)
    ensures ((6 * a + r) + (6 * b + t)) % 2 == (r + t) % 2
  {
    AddTwos(3 * a + 3 * b, r + t);
  }

  lemma {:induction false} SumOfHalves(a: nat, r: nat, b: nat, t: nat)
    ensures ((2 * a + r) + (2 * b + t)) % 2 == (r + t) % 2
  {
    AddTwos(a + b, r + t);
  }

  lemma {:induction false} SumOfThirds(a: nat, r: nat, b: nat, t: nat)
    ensures ((3 * a + r) + (3 * b + t)) % 3 == (r + t) % 3
  {
    AddThrees(a + b, r + t);
  }

  lemma {:induction false} AddThrees(k: nat, x: nat)
    ensures (3 * k + x) % 3 == x % 3
  {}

  lemma {:induction false} AddTwos(k: nat, x: nat)
    ensures (2 * k + x) % 2 == x % 2
  {}

  lemma {:induction false} HalvesAndThirds(i: nat, j: nat)
    ensures (i / 2 + j / 3) % 2 == (i % 4 / 2 + j % 6 / 3) % 2
  {
    var a, b := i / 4, j / 6;
    assert i == 4 * a + i % 4 && j == 6 * b + j % 6;
    assert i / 2 == 2 * a + i % 4 / 2 && j / 3 == 2 * b + j % 6 / 3;
  }

  /** Every formula only depends on the remainders by its period. */
  lemma {:induction false} Periodic(pattern: nat, i: nat, j: nat)
    requires pattern < 8
    ensures MaskAt(pattern, i, j) == MaskAt(pattern, i % Period(pattern).0, j % Period(pattern).1)
  {
    if pattern >= 5 {
      PeriodicProduct(pattern, i, j);
    } else if pattern == 4 {
      HalvesAndThirds(i, j);
    } else {
      PeriodicSum(pattern, i, j);
    }
  }

  lemma {:induction false} PeriodicProduct(pattern: nat, i: nat, j: nat)
    requires 5 <= pattern < 8
    ensures MaskAt(pattern, i, j) == MaskAt(pattern, i % 6, j % 6)
  {
    ProductRemainders(i, j);
    SumMod6(i, j);
  }

  lemma {:induction false} PeriodicSum(pattern: nat, i: nat, j: nat)
    requires pattern < 4
    ensures MaskAt(pattern, i, j) == MaskAt(pattern, i % Period(pattern).0, j % Period(pattern).1)
  {
    SumRemainders(i, j);
    match pattern
    case 0 => SumRemainders(i % 2, j % 2);
    case 1 =>
    case 2 =>
    case _ => SumRemainders(i % 3, j % 3);
  }

  lemma {:induction false} SmallPictures(pattern: nat, i: nat, j: nat)
    requires pattern < 4 && i < Period(pattern).0 && j < Period(pattern).1
    ensures j < |Picture(pattern)[i]| && MaskAt(pattern, i, j) == (Picture(pattern)[i][j] == '#')
  {}

  lemma {:induction false} Picture4(i: nat, j: nat)
    requires i < 4 && j < 6
    ensures j < |Picture(4)[i]| && MaskAt(4, i, j) == (Picture(4)[i][j] == '#')
  {}

  /** The product in a row of a picture. */
  lemma {:induction false} ProductInRow(i: nat, j: nat)
    requires i < 6
    ensures i * j == if i == 0 then 0 else if i == 1 then j else if i == 2 then 2 * j else if i == 3 then 3 * j
                     else if i == 4 then 4 * j else 5 * j
  {}

  lemma {:induction false} Picture5(i: nat, j: nat)
    requires i < 6 && j < 6
    ensures j < |Picture(5)[i]| && MaskAt(5, i, j) == (Picture(5)[i][j] == '#')
  {
    ProductInRow(i, j);
  }

  lemma {:induction false} Picture6(i: nat, j: nat)
    requires i < 6 && j < 6
    ensures j < |Picture(6)[i]| && MaskAt(6, i, j) == (Picture(6)[i][j] == '#')
  {
    ProductInRow(i, j);
  }

  lemma {:induction false} Picture7(i: nat, j: nat)
    requires i < 6 && j < 6
    ensures j < |Picture(7)[i]| && MaskAt(7, i, j) == (Picture(7)[i][j] == '#')
  {
    ProductInRow(i, j);
  }

  /** Each formula is its picture, everywhere. */
  lemma {:induction false} MaskIsPicture(pattern: nat, i: nat, j: nat)
    requires pattern < 8
    ensures MaskAt(pattern, i, j) == Inverts(pattern, i, j)
  {
    hide MaskAt, Picture;
    Periodic(pattern, i, j);
    var r, c := i % Period(pattern).0, j % Period(pattern).1;
    if pattern < 4 {
      SmallPictures(pattern, r, c);
    } else if pattern == 4 {
      Picture4(r, c);
    } else if pattern == 5 {
      Picture5(r, c);
    } else if pattern == 6 {
      Picture6(r, c);
    } else {
      Picture7(r, c);
    }
  }
}
