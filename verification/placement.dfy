/**
 Placing codewords in the module grid (setup_position_probe_pattern, setup_timing_pattern and map_data,
 qml/utilities/qrcode/main.py), and reading them back as ISO/IEC 18004:2015, section 7.7.3, tells a scanner to.
 */
module Placement {
  import opened Wrappers
  import opened BitBuffers
  import FormatInfo
  import opened Masks
  import opened Polynomials
  import opened Versions

  /** A module is dark, light or not yet set. */
  type Grid = seq<seq<Option<bool>>>

  predicate IsGrid(g: Grid, n: nat) {
    |g| == n && forall r :: 0 <= r < n ==> |g[r]| == n
  }

  predicate IsSize(n: nat) {
    n >= 21 && n % 4 == 1
  }

  // ---- the zigzag ----------------------------------------------------------------------------

  /** A place on the path: column pair k, step s along it, right (0) or left (1) module. */
  datatype Place = Place(k: nat, s: nat, h: nat)

  predicate OnPath(n: nat, p: Place) {
    p.k < n / 2 && p.s < n && p.h < 2
  }

  /** The right column of pair k; column 6 belongs to no pair. */
  function RightColumn(n: nat, k: nat): nat
    requires IsSize(n) && k < n / 2
  {
    if n - 1 - 2 * k > 6 then n - 1 - 2 * k else n - 2 - 2 * k
  }

  /** Even pairs run upwards. */
  function Row(n: nat, k: nat, s: nat): (r: nat)
    requires s < n
    ensures r < n
  {
    if k % 2 == 0 then n - 1 - s else s
  }

  function Column(n: nat, p: Place): (c: nat)
    requires IsSize(n) && OnPath(n, p)
    ensures c < n && c != 6
  {
    OddSize(n);
    RightColumn(n, p.k) - p.h
  }

  /** The pair of a column. */
  function PairOf(n: nat, c: nat): (k: nat)
    requires IsSize(n) && c < n && c != 6
    ensures k < n / 2 && 0 <= RightColumn(n, k) - c < 2
  {
    OddSize(n);
    Half(if c > 6 then n - 1 - c else n - 2 - c);
    if c > 6 then (n - 1 - c) / 2 else (n - 2 - c) / 2
  }

  lemma {:induction false} OddSize(n: nat)
    requires IsSize(n)
    ensures n == 2 * (n / 2) + 1
  {
    var q := n / 4;
    assert n == 4 * q + 1;
    Half(n);
    assert n / 2 == 2 * q;
  }

  lemma {:induction false} Half(x: nat)
    ensures 0 <= x - 2 * (x / 2) <= 1
  {}

  /** Where the path meets a module outside column 6. */
  function PlaceOf(n: nat, r: nat, c: nat): (p: Place)
    requires IsSize(n) && r < n && c < n && c != 6
    ensures OnPath(n, p) && Row(n, p.k, p.s) == r && Column(n, p) == c
  {
    var k := PairOf(n, c);
    Place(k, Row(n, k, r), RightColumn(n, k) - c)
  }

  lemma {:induction false} PlaceOfInverse(n: nat, p: Place)
    requires IsSize(n) && OnPath(n, p)
    ensures PlaceOf(n, Row(n, p.k, p.s), Column(n, p)) == p
  {}

  /** p comes before q; q may be one past the end of a pair. */
  predicate Before(p: Place, q: Place) {
    p.k < q.k || (p.k == q.k && (p.s < q.s || (p.s == q.s && p.h < q.h)))
  }

  function CellAt(g: Grid, n: nat, p: Place): Option<bool>
    requires IsSize(n) && IsGrid(g, n) && OnPath(n, p)
  {
    g[Row(n, p.k, p.s)][Column(n, p)]
  }

  /** The place before q. */
  function Previous(n: nat, q: Place): Place
    requires q.k <= n / 2 && q.s <= n && q.h < 2 && n > 0 && (q.k == n / 2 ==> q.s == q.h == 0) && (q.s == n ==> q.h == 0)
    requires q != Place(0, 0, 0)
  {
    if q.h == 1 then Place(q.k, q.s, 0)
    else if q.s > 0 then Place(q.k, q.s - 1, 1)
    else Place(q.k - 1, n - 1, 1)
  }

  predicate IsStop(n: nat, q: Place) {
    q.k <= n / 2 && q.s <= n && q.h < 2 && (q.k == n / 2 ==> q.s == q.h == 0) && (q.s == n ==> q.h == 0)
  }

  /** How many unset modules the path meets before q. */
  function Prior(g: Grid, n: nat, q: Place): nat
    requires IsSize(n) && IsGrid(g, n) && IsStop(n, q)
    decreases q.k, q.s, q.h
  {
    if q == Place(0, 0, 0) then 0
    else
      var p := Previous(n, q);
      Prior(g, n, p) + if CellAt(g, n, p).None? then 1 else 0
  }

  /** Bit m of the codewords, most significant bit first; zero past the end. */
  predicate DataBit(data: Poly, m: nat) {
    m / 8 < |data| && BitAt(data[m / 8], m % 8)
  }

  // ---- what the grid holds along the way -----------------------------------------------------

  /** Module (r, c) once the path has come to q: the unset ones before q hold the masked data bits in path order. */
  function Expected(g: Grid, n: nat, data: Poly, mask: nat, q: Place, r: nat, c: nat): Option<bool>
    requires IsSize(n) && IsGrid(g, n) && mask < 8 && r < n && c < n
  {
    if c != 6 && g[r][c].None? && Before(PlaceOf(n, r, c), q)
    then Some(DataBit(data, Prior(g, n, PlaceOf(n, r, c))) != MaskAt(mask, r, c))
    else g[r][c]
  }

  ghost predicate FilledTo(now: Grid, g: Grid, n: nat, data: Poly, mask: nat, q: Place)
    requires IsSize(n) && IsGrid(g, n) && mask < 8
  {
    && IsGrid(now, n)
    && forall r, c :: 0 <= r < n && 0 <= c < n ==> now[r][c] == Expected(g, n, data, mask, q, r, c)
  }

  function After(p: Place): Place {
    if p.h == 0 then Place(p.k, p.s, 1) else Place(p.k, p.s + 1, 0)
  }

  lemma {:induction false} OnlyOneMore(n: nat, p: Place, r: nat, c: nat)
    requires IsSize(n) && OnPath(n, p) && r < n && c < n && c != 6
    ensures Before(PlaceOf(n, r, c), After(p)) <==>
            Before(PlaceOf(n, r, c), p) || (r == Row(n, p.k, p.s) && c == Column(n, p))
  {
    PlaceOfInverse(n, p);
  }

  lemma {:induction false} ExpectedAfter(g: Grid, n: nat, data: Poly, mask: nat, p: Place, r: nat, c: nat)
    requires IsSize(n) && IsGrid(g, n) && mask < 8 && OnPath(n, p) && r < n && c < n
    ensures var here := r == Row(n, p.k, p.s) && c == Column(n, p);
      && (here ==> Expected(g, n, data, mask, p, r, c) == g[r][c])
      && Expected(g, n, data, mask, After(p), r, c) ==
           if here && g[r][c].None? then Some(DataBit(data, Prior(g, n, p)) != MaskAt(mask, r, c))
           else Expected(g, n, data, mask, p, r, c)
  {
    hide MaskAt, DataBit, PlaceOf, Prior, Row, Column;
    PlaceOfInverse(n, p);
    if c != 6 {
      OnlyOneMore(n, p, r, c);
    }
  }

  /** Setting the module at p, if it is unset, to its masked bit takes the grid one place further. */
  lemma {:induction false} FillOne(now: Grid, next: Grid, g: Grid, n: nat, data: Poly, mask: nat, p: Place)
    requires IsSize(n) && IsGrid(g, n) && mask < 8 && OnPath(n, p) && FilledTo(now, g, n, data, mask, p)
    requires var r, c := Row(n, p.k, p.s), Column(n, p);
      next == if now[r][c].None?
        then now[r := now[r][c := Some(DataBit(data, Prior(g, n, p)) != MaskAt(mask, r, c))]]
        else now
    ensures FilledTo(next, g, n, data, mask, After(p))
    ensures now[Row(n, p.k, p.s)][Column(n, p)] == CellAt(g, n, p)
    ensures Prior(g, n, After(p)) == Prior(g, n, p) + if CellAt(g, n, p).None? then 1 else 0
  {
    hide MaskAt, DataBit, PlaceOf, Prior, Row, Column, Expected;
    PriorAfter(g, n, p);
    ExpectedAfter(g, n, data, mask, p, Row(n, p.k, p.s), Column(n, p));
    forall r, c | 0 <= r < n && 0 <= c < n ensures next[r][c] == Expected(g, n, data, mask, After(p), r, c) {
      ExpectedAfter(g, n, data, mask, p, r, c);
    }
  }

  lemma {:induction false} PriorAfter(g: Grid, n: nat, p: Place)
    requires IsSize(n) && IsGrid(g, n) && OnPath(n, p)
    ensures Prior(g, n, After(p)) == Prior(g, n, p) + if CellAt(g, n, p).None? then 1 else 0
  {
    assert Previous(n, After(p)) == p;
  }

  /** The end of a pair is the start of the next one. */
  lemma {:induction false} EndOfPair(now: Grid, g: Grid, n: nat, data: Poly, mask: nat, k: nat)
    requires IsSize(n) && IsGrid(g, n) && mask < 8 && k < n / 2
    requires FilledTo(now, g, n, data, mask, Place(k, n, 0))
    ensures FilledTo(now, g, n, data, mask, Place(k + 1, 0, 0))
    ensures Prior(g, n, Place(k + 1, 0, 0)) == Prior(g, n, Place(k, n, 0))
  {
    hide MaskAt, DataBit, Row, Column, CellAt;
    assert Previous(n, Place(k + 1, 0, 0)) == Previous(n, Place(k, n, 0));
    forall r, c | 0 <= r < n && 0 <= c < n
      ensures Expected(g, n, data, mask, Place(k + 1, 0, 0), r, c) == Expected(g, n, data, mask, Place(k, n, 0), r, c)
    {
    }
  }

  function Finish(n: nat): Place {
    Place(n / 2, 0, 0)
  }

  // ---- reading back --------------------------------------------------------------------------

  /** The module at p with the scanner's mask undone. */
  predicate Unmasked(now: Grid, n: nat, mask: nat, p: Place)
    requires IsSize(n) && IsGrid(now, n) && OnPath(n, p) && mask < 8
  {
    (CellAt(now, n, p) == Some(true)) != Inverts(mask, Row(n, p.k, p.s), Column(n, p))
  }

  /** The unmasked data modules before q, in path order; those unset in g are the data modules. */
  function Read(now: Grid, g: Grid, n: nat, mask: nat, q: Place): seq<bool>
    requires IsSize(n) && IsGrid(g, n) && IsGrid(now, n) && mask < 8 && IsStop(n, q)
    decreases q.k, q.s, q.h
  {
    if q == Place(0, 0, 0) then []
    else
      var p := Previous(n, q);
      Read(now, g, n, mask, p) + if CellAt(g, n, p).None? then [Unmasked(now, n, mask, p)] else []
  }

  /** Only which modules are unset matters for the places to read. */
  lemma {:induction false} ReadSame(now: Grid, g: Grid, h: Grid, n: nat, mask: nat, q: Place)
    requires IsSize(n) && IsGrid(g, n) && IsGrid(h, n) && IsGrid(now, n) && mask < 8 && IsStop(n, q)
    requires forall r, c :: 0 <= r < n && 0 <= c < n ==> (g[r][c].None? <==> h[r][c].None?)
    ensures Read(now, g, n, mask, q) == Read(now, h, n, mask, q)
    decreases q.k, q.s, q.h
  {
    hide Unmasked, Row, Column;
    if q != Place(0, 0, 0) {
      ReadSame(now, g, h, n, mask, Previous(n, q));
    }
  }

  /** The bits of the codewords, then zeros. */
  function DataBits(data: Poly, count: nat): seq<bool> {
    seq(count, m requires m >= 0 => DataBit(data, m))
  }

  lemma {:induction false} ReadPart(now: Grid, g: Grid, n: nat, data: Poly, mask: nat, q: Place)
    requires IsSize(n) && IsGrid(g, n) && mask < 8 && IsStop(n, q)
    requires FilledTo(now, g, n, data, mask, Finish(n))
    ensures Read(now, g, n, mask, q) == DataBits(data, Prior(g, n, q))
    decreases q.k, q.s, q.h
  {
    hide MaskAt, DataBit, Row, Column, PlaceOf, CellAt, Unmasked, FilledTo;
    if q != Place(0, 0, 0) {
      var p := Previous(n, q);
      ReadPart(now, g, n, data, mask, p);
      UnmaskedIsDataBit(now, g, n, data, mask, p);
    }
  }

  lemma {:induction false} UnmaskedIsDataBit(now: Grid, g: Grid, n: nat, data: Poly, mask: nat, p: Place)
    requires IsSize(n) && IsGrid(g, n) && mask < 8 && OnPath(n, p)
    requires FilledTo(now, g, n, data, mask, Finish(n))
    ensures CellAt(g, n, p).None? ==> Unmasked(now, n, mask, p) == DataBit(data, Prior(g, n, p))
  {
    hide MaskAt, Inverts, DataBit, Row, Column, PlaceOf, Prior;
    PlaceOfInverse(n, p);
    var r, c := Row(n, p.k, p.s), Column(n, p);
    MaskIsPicture(mask, r, c);
    assert now[r][c] == Expected(g, n, data, mask, Finish(n), r, c);
  }

  lemma {:induction false} DataBitsThenZeros(data: Poly, count: nat)
    requires 8 * |data| <= count
    ensures DataBits(data, count)[..8 * |data|] == ByteBits(data)
    ensures forall m :: 8 * |data| <= m < count ==> !DataBits(data, count)[m]
  {
    hide BitAt;
  }

  /** The unset modules the path meets before q. */
  ghost function Unset(g: Grid, n: nat, q: Place): set<(nat, nat)>
    requires IsSize(n) && IsGrid(g, n)
  {
    set r: nat, c: nat | r < n && c < n && c != 6 && g[r][c].None? && Before(PlaceOf(n, r, c), q) :: (r, c)
  }

  /** The path meets each of them once: their number is the number of steps that find an unset module. */
  lemma {:induction false} PriorCountsUnset(g: Grid, n: nat, q: Place)
    requires IsSize(n) && IsGrid(g, n) && IsStop(n, q)
    ensures Prior(g, n, q) == |Unset(g, n, q)|
    decreases q.k, q.s, q.h
  {
    if q == Place(0, 0, 0) {
      assert Unset(g, n, q) == {};
    } else {
      var p := Previous(n, q);
      PriorCountsUnset(g, n, p);
      UnsetGrows(g, n, p, q);
    }
  }

  lemma {:induction false} UnsetGrows(g: Grid, n: nat, p: Place, q: Place)
    requires IsSize(n) && IsGrid(g, n) && IsStop(n, q) && q != Place(0, 0, 0) && p == Previous(n, q)
    ensures OnPath(n, p)
    ensures var cell := (Row(n, p.k, p.s), Column(n, p));
      cell !in Unset(g, n, p) && Unset(g, n, q) == Unset(g, n, p) + if CellAt(g, n, p).None? then {cell} else {}
  {
    hide PlaceOf, Row, Column;
    PlaceOfInverse(n, p);
    forall r: nat, c: nat | r < n && c < n && c != 6
      ensures Before(PlaceOf(n, r, c), q) <==>
              Before(PlaceOf(n, r, c), p) || (r == Row(n, p.k, p.s) && c == Column(n, p))
    {
      OnlyOneMore(n, p, r, c);
    }
  }

  /**
   What map_data promises: set modules keep their value, every unset module outside column 6 is set, and
   the data modules in path order, with the mask undone, are the bits of the codewords and then zeros.
   */
  lemma {:induction false} MappedMeaning(now: Grid, g: Grid, n: nat, data: Poly, mask: nat)
    requires IsSize(n) && IsGrid(g, n) && mask < 8 && FilledTo(now, g, n, data, mask, Finish(n))
    ensures forall r, c :: 0 <= r < n && 0 <= c < n && g[r][c].Some? ==> now[r][c] == g[r][c]
    ensures forall r, c :: 0 <= r < n && 0 <= c < n && g[r][c].None? ==> (now[r][c].Some? <==> c != 6)
    ensures Prior(g, n, Finish(n)) == |set r: nat, c: nat | r < n && c < n && c != 6 && g[r][c].None? :: (r, c)|
    ensures var count := Prior(g, n, Finish(n));
      && Read(now, g, n, mask, Finish(n)) == DataBits(data, count)
      && (8 * |data| <= count ==> Read(now, g, n, mask, Finish(n))[..8 * |data|] == ByteBits(data))
  {
    hide MaskAt, DataBit, Prior, Read, ByteBits, DataBits, Row, Column;
    ReadPart(now, g, n, data, mask, Finish(n));
    PriorCountsUnset(g, n, Finish(n));
    if 8 * |data| <= Prior(g, n, Finish(n)) {
      DataBitsThenZeros(data, Prior(g, n, Finish(n)));
    }
    assert Unset(g, n, Finish(n)) == set r: nat, c: nat | r < n && c < n && c != 6 && g[r][c].None? :: (r, c);
  }

  // ---- the class -----------------------------------------------------------------------------

  /** A finder pattern, relative to its top left module. */
  predicate ProbeDark(r: int, c: int) {
    || (0 <= r <= 6 && (c == 0 || c == 6))
    || (0 <= c <= 6 && (r == 0 || r == 6))
    || (2 <= r <= 4 && 2 <= c <= 4)
  }

  predicate IsTiming(n: nat, i: nat, j: nat) {
    (8 <= i < n - 8 && j == 6) || (i == 6 && 8 <= j < n - 8)
  }

  // ---- alignment patterns --------------------------------------------------------------------

  /** The row of PATTERN_POSITION_TABLE. */
  function PatternPosition(version: nat): seq<nat>
    requires 1 <= version <= 40
  {
    match version
    case 1 => []
    case 2 => [6, 18]
    case 3 => [6, 22]
    case 4 => [6, 26]
    case 5 => [6, 30]
    case 6 => [6, 34]
    case 7 => [6, 22, 38]
    case 8 => [6, 24, 42]
    case 9 => [6, 26, 46]
    case 10 => [6, 28, 50]
    case 11 => [6, 30, 54]
    case 12 => [6, 32, 58]
    case 13 => [6, 34, 62]
    case 14 => [6, 26, 46, 66]
    case 15 => [6, 26, 48, 70]
    case 16 => [6, 26, 50, 74]
    case 17 => [6, 30, 54, 78]
    case 18 => [6, 30, 56, 82]
    case 19 => [6, 30, 58, 86]
    case 20 => [6, 34, 62, 90]
    case 21 => [6, 28, 50, 72, 94]
    case 22 => [6, 26, 50, 74, 98]
    case 23 => [6, 30, 54, 78, 102]
    case 24 => [6, 28, 54, 80, 106]
    case 25 => [6, 32, 58, 84, 110]
    case 26 => [6, 30, 58, 86, 114]
    case 27 => [6, 34, 62, 90, 118]
    case 28 => [6, 26, 50, 74, 98, 122]
    case 29 => [6, 30, 54, 78, 102, 126]
    case 30 => [6, 26, 52, 78, 104, 130]
    case 31 => [6, 30, 56, 82, 108, 134]
    case 32 => [6, 34, 60, 86, 112, 138]
    case 33 => [6, 30, 58, 86, 114, 142]
    case 34 => [6, 34, 62, 90, 118, 146]
    case 35 => [6, 30, 54, 78, 102, 126, 150]
    case 36 => [6, 24, 50, 76, 102, 128, 154]
    case 37 => [6, 28, 54, 80, 106, 132, 158]
    case 38 => [6, 32, 58, 84, 110, 136, 162]
    case 39 => [6, 26, 54, 82, 110, 138, 166]
    case _ => [6, 30, 58, 86, 114, 142, 170]
  }

  /** An alignment pattern, relative to its centre. */
  predicate AlignmentDark(r: int, c: int) {
    r == -2 || r == 2 || c == -2 || c == 2 || (r == 0 && c == 0)
  }

  predicate IsNear(row: int, col: int, i: int, j: int) {
    row - 2 <= i <= row + 2 && col - 2 <= j <= col + 2
  }

  /** Positions far enough from each other and from the border. */
  predicate IsSpread(pos: seq<nat>, n: nat) {
    && (forall a :: 0 <= a < |pos| ==> 2 <= pos[a] < n - 2)
    && forall a, b :: 0 <= a < b < |pos| ==> pos[a] + 5 <= pos[b]
  }

  /** The pattern with centre (pos[a], pos[b]) comes before row i, column j of the loops. */
  predicate IsDone(a: int, b: int, i: int, j: int) {
    a < i || (a == i && b < j)
  }

  /** Module (r, c) belongs to the pattern with centre (pos[a], pos[b]), which has been reached and was free. */
  predicate IsPattern(g: Grid, n: nat, pos: seq<nat>, i: nat, j: nat, a: int, b: int, r: nat, c: nat)
    requires IsGrid(g, n) && IsSpread(pos, n)
  {
    0 <= a < |pos| && 0 <= b < |pos| && IsDone(a, b, i, j) && g[pos[a]][pos[b]].None? && IsNear(pos[a], pos[b], r, c)
  }

  /** A module of a pattern reached so far has the pattern's colour, any other is what it was. */
  ghost predicate IsAligned(now: Option<bool>, g: Grid, n: nat, pos: seq<nat>, i: nat, j: nat, r: nat, c: nat)
    requires IsGrid(g, n) && IsSpread(pos, n) && r < n && c < n
  {
    && (forall a, b :: IsPattern(g, n, pos, i, j, a, b, r, c) ==> now == Some(AlignmentDark(r - pos[a], c - pos[b])))
    && ((forall a, b :: !IsPattern(g, n, pos, i, j, a, b, r, c)) ==> now == g[r][c])
  }

  ghost predicate Aligned(now: Grid, g: Grid, n: nat, pos: seq<nat>, i: nat, j: nat)
    requires IsGrid(g, n) && IsSpread(pos, n)
  {
    IsGrid(now, n) && forall r, c :: 0 <= r < n && 0 <= c < n ==> IsAligned(now[r][c], g, n, pos, i, j, r, c)
  }

  lemma {:induction false} NothingAligned(g: Grid, n: nat, pos: seq<nat>)
    requires IsGrid(g, n) && IsSpread(pos, n)
    ensures Aligned(g, g, n, pos, 0, 0)
  {
    hide AlignmentDark, IsNear;
    forall r, c, a, b | 0 <= r < n && 0 <= c < n ensures !IsPattern(g, n, pos, 0, 0, a, b, r, c) {
    }
  }

  /** Patterns with different centres do not touch. */
  lemma {:induction false} PatternsApart(pos: seq<nat>, n: nat, a: nat, b: nat, i: nat, j: nat, r: int, c: int)
    requires IsSpread(pos, n) && a < |pos| && b < |pos| && i < |pos| && j < |pos|
    requires IsNear(pos[a], pos[b], r, c) && IsNear(pos[i], pos[j], r, c)
    ensures a == i && b == j
  {}

  lemma {:induction false} CentreIsFree(now: Grid, g: Grid, n: nat, pos: seq<nat>, i: nat, j: nat)
    requires IsGrid(g, n) && IsSpread(pos, n) && i < |pos| && j < |pos| && Aligned(now, g, n, pos, i, j)
    ensures IsGrid(now, n) && now[pos[i]][pos[j]] == g[pos[i]][pos[j]]
  {
    hide AlignmentDark;
    forall a, b ensures !IsPattern(g, n, pos, i, j, a, b, pos[i], pos[j]) {
    }
    assert IsAligned(now[pos[i]][pos[j]], g, n, pos, i, j, pos[i], pos[j]);
  }

  /** The pattern at row i, column j of the loops is drawn, if its centre is free. */
  lemma {:induction false} AlignedNext(before: Grid, now: Grid, g: Grid, n: nat, pos: seq<nat>, i: nat, j: nat)
    requires IsGrid(g, n) && IsSpread(pos, n) && i < |pos| && j < |pos| && Aligned(before, g, n, pos, i, j)
    requires IsGrid(now, n)
    requires forall r, c :: 0 <= r < n && 0 <= c < n ==>
      now[r][c] == if g[pos[i]][pos[j]].None? && IsNear(pos[i], pos[j], r, c) then Some(AlignmentDark(r - pos[i], c - pos[j]))
                   else before[r][c]
    ensures Aligned(now, g, n, pos, i, j + 1)
  {
    hide AlignmentDark, IsNear, IsPattern;
    forall r, c | 0 <= r < n && 0 <= c < n ensures IsAligned(now[r][c], g, n, pos, i, j + 1, r, c) {
      assert IsAligned(before[r][c], g, n, pos, i, j, r, c);
      ModuleNext(before[r][c], now[r][c], g, n, pos, i, j, r, c);
    }
  }

  lemma {:induction false} ModuleNext(before: Option<bool>, now: Option<bool>, g: Grid, n: nat, pos: seq<nat>, i: nat, j: nat, r: nat, c: nat)
    requires IsGrid(g, n) && IsSpread(pos, n) && i < |pos| && j < |pos| && r < n && c < n
    requires IsAligned(before, g, n, pos, i, j, r, c)
    requires now == if g[pos[i]][pos[j]].None? && IsNear(pos[i], pos[j], r, c) then Some(AlignmentDark(r - pos[i], c - pos[j])) else before
    ensures IsAligned(now, g, n, pos, i, j + 1, r, c)
  {
    hide AlignmentDark, IsNear;
    forall a, b
      ensures IsPattern(g, n, pos, i, j + 1, a, b, r, c) <==>
        IsPattern(g, n, pos, i, j, a, b, r, c) || (a == i && b == j && g[pos[i]][pos[j]].None? && IsNear(pos[i], pos[j], r, c))
    {
    }
    if g[pos[i]][pos[j]].None? && IsNear(pos[i], pos[j], r, c) {
      assert IsPattern(g, n, pos, i, j + 1, i, j, r, c);
      forall a, b | IsPattern(g, n, pos, i, j + 1, a, b, r, c) ensures now == Some(AlignmentDark(r - pos[a], c - pos[b])) {
        PatternsApart(pos, n, a, b, i, j, r, c);
      }
    } else {
      SamePatterns(now, g, n, pos, i, j, i, j + 1, r, c);
    }
  }

  lemma {:induction false} SamePatterns(now: Option<bool>, g: Grid, n: nat, pos: seq<nat>, i: nat, j: nat, i': nat, j': nat, r: nat, c: nat)
    requires IsGrid(g, n) && IsSpread(pos, n) && r < n && c < n && IsAligned(now, g, n, pos, i, j, r, c)
    requires forall a, b :: IsPattern(g, n, pos, i', j', a, b, r, c) <==> IsPattern(g, n, pos, i, j, a, b, r, c)
    ensures IsAligned(now, g, n, pos, i', j', r, c)
  {
    hide AlignmentDark, IsPattern;
  }

  lemma {:induction false} NextRow(now: Grid, g: Grid, n: nat, pos: seq<nat>, i: nat)
    requires IsGrid(g, n) && IsSpread(pos, n) && i < |pos| && Aligned(now, g, n, pos, i, |pos|)
    ensures Aligned(now, g, n, pos, i + 1, 0)
  {
    hide IsAligned, IsPattern;
    forall r, c | 0 <= r < n && 0 <= c < n ensures IsAligned(now[r][c], g, n, pos, i + 1, 0, r, c) {
      RowDone(g, n, pos, i, r, c);
      SamePatterns(now[r][c], g, n, pos, i, |pos|, i + 1, 0, r, c);
    }
  }

  lemma {:induction false} RowDone(g: Grid, n: nat, pos: seq<nat>, i: nat, r: nat, c: nat)
    requires IsGrid(g, n) && IsSpread(pos, n) && i < |pos|
    ensures forall a, b :: IsPattern(g, n, pos, i + 1, 0, a, b, r, c) <==> IsPattern(g, n, pos, i, |pos|, a, b, r, c)
  {
    hide IsNear;
  }

  // ---- what is not data ----------------------------------------------------------------------

  /** The finder patterns with their borders. */
  predicate InFinder(n: nat, i: nat, j: nat) {
    (i < 8 && j < 8) || (i + 8 >= n && j < 8) || (i < 8 && j + 8 >= n)
  }

  /** The alignment patterns: those of the table whose centre is in no finder pattern. */
  ghost predicate IsAlignment(version: nat, i: nat, j: nat)
    requires 1 <= version <= 40
  {
    exists a, b :: IsAlignmentOf(version, a, b, i, j)
  }

  predicate IsAlignmentOf(version: nat, a: int, b: int, i: nat, j: nat)
    requires 1 <= version <= 40
  {
    var pos := PatternPosition(version);
    0 <= a < |pos| && 0 <= b < |pos| && !InFinder(SizeOf(version), pos[a], pos[b]) && IsNear(pos[a], pos[b], i, j)
  }

  ghost predicate IsBlank(version: nat, i: nat, j: nat)
    requires 1 <= version <= 40
  {
    InFinder(SizeOf(version), i, j) || IsTiming(SizeOf(version), i, j) || IsAlignment(version, i, j)
  }

  /** The two copies of the format information, and the fixed dark module. */
  predicate InInfo(n: nat, i: nat, j: nat) {
    || (j == 8 && (i < 6 || i == 7 || i == 8 || i + 8 >= n))
    || (i == 8 && (j < 6 || j == 7 || j + 8 >= n))
  }

  /** Which of the fifteen bits a module of the format information holds; 15 for the fixed one. */
  function InfoBit(n: nat, i: nat, j: nat): (k: nat)
    requires InInfo(n, i, j) && n >= 21 && i < n && j < n
    ensures k < 16
  {
    if j == 8 then if i < 6 then i else if i <= 8 then i - 1 else if i + 8 == n then 15 else i - n + 15
    else if j + 8 >= n then n - 1 - j
    else if j == 7 then 8 else 14 - j
  }

  /** The two copies of the version information, from version 7 on. */
  predicate InNumber(n: nat, i: nat, j: nat) {
    (i < 6 && n <= j + 11 && j + 8 < n) || (j < 6 && n <= i + 11 && i + 8 < n)
  }

  function NumberBit(n: nat, i: nat, j: nat): (k: nat)
    requires InNumber(n, i, j) && n >= 21
    ensures k < 18
  {
    if i < 6 then 3 * i + j - n + 11 else 3 * j + i - n + 11
  }

  /** The modules that hold no data. */
  ghost predicate IsFunction(version: nat, i: nat, j: nat)
    requires 1 <= version <= 40
  {
    IsBlank(version, i, j) || InInfo(SizeOf(version), i, j) || (version >= 7 && InNumber(SizeOf(version), i, j))
  }

  /** The grid is set exactly outside the data modules. */
  ghost predicate IsPrepared(g: Grid, version: nat)
    requires 1 <= version <= 40
  {
    && IsGrid(g, SizeOf(version))
    && forall i, j :: 0 <= i < SizeOf(version) && 0 <= j < SizeOf(version) ==> (g[i][j].Some? <==> IsFunction(version, i, j))
  }

  /** What a scanner knows of a version: which modules hold no data. */
  ghost function Template(version: nat): (g: Grid)
    requires 1 <= version <= 40
    ensures IsPrepared(g, version)
  {
    seq(SizeOf(version), i requires 0 <= i < SizeOf(version) =>
      seq(SizeOf(version), j requires 0 <= j < SizeOf(version) => if IsFunction(version, i, j) then Some(false) else None))
  }

  ghost predicate IsBlankGrid(g: Grid, version: nat)
    requires 1 <= version <= 40
  {
    && IsGrid(g, SizeOf(version))
    && forall i, j :: 0 <= i < SizeOf(version) && 0 <= j < SizeOf(version) ==> (g[i][j].Some? <==> IsBlank(version, i, j))
  }

  /** Half the distance between neighbouring positions after the first: as even as possible. */
  function HalfStep(version: nat): nat {
    match Alignments(version)
    case 2 => (4 * version + 5) / 2
    case 3 => (4 * version + 7) / 4
    case 4 => (4 * version + 9) / 6
    case 5 => (4 * version + 11) / 8
    case 6 => if version == 32 then 13 else (4 * version + 13) / 10
    case _ => (4 * version + 15) / 12
  }

  function Step(version: nat): nat {
    2 * HalfStep(version)
  }

  predicate HasStep(pos: seq<nat>, i: nat, step: nat) {
    i + 1 < |pos| ==> pos[i] + step == pos[i + 1]
  }

  predicate HasSteps(pos: seq<nat>, step: nat) {
    HasStep(pos, 1, step) && HasStep(pos, 2, step) && HasStep(pos, 3, step) && HasStep(pos, 4, step) && HasStep(pos, 5, step)
  }

  /** A row of the table: 6, then positions one step apart up to the seventh module from the other border. */
  predicate IsRow(pos: seq<nat>, version: nat) {
    && |pos| == Alignments(version)
    && (pos != [] ==>
      && pos[0] == 6 && pos[0] + 12 <= pos[1] && pos[|pos| - 1] + 7 == SizeOf(version)
      && Step(version) >= 12 && HasSteps(pos, Step(version)))
  }

  lemma {:induction false} Rows0()
    ensures IsRow(PatternPosition(1), 1)
    ensures IsRow(PatternPosition(2), 2)
    ensures IsRow(PatternPosition(3), 3)
  {}

  lemma {:induction false} Rows1()
    ensures IsRow(PatternPosition(4), 4)
    ensures IsRow(PatternPosition(5), 5)
    ensures IsRow(PatternPosition(6), 6)
  {}

  lemma {:induction false} Rows2()
    ensures IsRow(PatternPosition(7), 7)
    ensures IsRow(PatternPosition(8), 8)
    ensures IsRow(PatternPosition(9), 9)
  {}

  lemma {:induction false} Rows3()
    ensures IsRow(PatternPosition(10), 10)
    ensures IsRow(PatternPosition(11), 11)
    ensures IsRow(PatternPosition(12), 12)
  {}

  lemma {:induction false} Rows4()
    ensures IsRow(PatternPosition(13), 13)
    ensures IsRow(PatternPosition(14), 14)
    ensures IsRow(PatternPosition(15), 15)
  {}

  lemma {:induction false} Rows5()
    ensures IsRow(PatternPosition(16), 16)
    ensures IsRow(PatternPosition(17), 17)
    ensures IsRow(PatternPosition(18), 18)
  {}

  lemma {:induction false} Rows6()
    ensures IsRow(PatternPosition(19), 19)
    ensures IsRow(PatternPosition(20), 20)
    ensures IsRow(PatternPosition(21), 21)
  {}

  lemma {:induction false} Rows7()
    ensures IsRow(PatternPosition(22), 22)
    ensures IsRow(PatternPosition(23), 23)
    ensures IsRow(PatternPosition(24), 24)
  {}

  lemma {:induction false} Rows8()
    ensures IsRow(PatternPosition(25), 25)
    ensures IsRow(PatternPosition(26), 26)
    ensures IsRow(PatternPosition(27), 27)
  {}

  lemma {:induction false} Rows9()
    ensures IsRow(PatternPosition(28), 28)
    ensures IsRow(PatternPosition(29), 29)
    ensures IsRow(PatternPosition(30), 30)
  {}

  lemma {:induction false} Rows10()
    ensures IsRow(PatternPosition(31), 31)
    ensures IsRow(PatternPosition(32), 32)
    ensures IsRow(PatternPosition(33), 33)
  {}

  lemma {:induction false} Rows11()
    ensures IsRow(PatternPosition(34), 34)
    ensures IsRow(PatternPosition(35), 35)
    ensures IsRow(PatternPosition(36), 36)
  {}

  lemma {:induction false} Rows12()
    ensures IsRow(PatternPosition(37), 37)
    ensures IsRow(PatternPosition(38), 38)
    ensures IsRow(PatternPosition(39), 39)
  {}

  lemma {:induction false} Rows13()
    ensures IsRow(PatternPosition(40), 40)
  {}

  lemma {:induction false} TableRow(version: nat)
    requires 1 <= version <= 40
    ensures IsRow(PatternPosition(version), version)
  {
    hide IsRow, PatternPosition;
    if version <= 3 {
      Rows0();
    } else if version <= 6 {
      Rows1();
    } else if version <= 9 {
      Rows2();
    } else if version <= 12 {
      Rows3();
    } else if version <= 15 {
      Rows4();
    } else if version <= 18 {
      Rows5();
    } else if version <= 21 {
      Rows6();
    } else if version <= 24 {
      Rows7();
    } else if version <= 27 {
      Rows8();
    } else if version <= 30 {
      Rows9();
    } else if version <= 33 {
      Rows10();
    } else if version <= 36 {
      Rows11();
    } else if version <= 39 {
      Rows12();
    } else {
      Rows13();
    }
  }

  /** Positions further along are larger. */
  lemma {:induction false} RowGrows(pos: seq<nat>, version: nat, a: nat, b: nat)
    requires 1 <= version <= 40 && IsRow(pos, version) && a < b < |pos|
    ensures pos[a] + 12 <= pos[b]
    decreases b
  {
    hide Step;
    assert b > 1 ==> HasStep(pos, b - 1, Step(version));
    if a < b - 1 {
      RowGrows(pos, version, a, b - 1);
    }
  }

  lemma {:induction false} TableIsSpread(version: nat)
    requires 1 <= version <= 40
    ensures IsSpread(PatternPosition(version), SizeOf(version))
  {
    hide PatternPosition, IsRow;
    TableRow(version);
    var pos := PatternPosition(version);
    RowEnds(pos, version);
    forall a, b | 0 <= a < b < |pos| ensures pos[a] + 5 <= pos[b] {
      RowGrows(pos, version, a, b);
    }
    forall a | 0 <= a < |pos| ensures 6 <= pos[a] <= SizeOf(version) - 7 {
      if a > 0 {
        RowGrows(pos, version, 0, a);
      }
      if a < |pos| - 1 {
        RowGrows(pos, version, a, |pos| - 1);
      }
    }
  }

  lemma {:induction false} RowEnds(pos: seq<nat>, version: nat)
    requires IsRow(pos, version)
    ensures |pos| == Alignments(version)
    ensures pos != [] ==> pos[0] == 6 && pos[|pos| - 1] + 7 == SizeOf(version)
  {}

  // ---- the colours that a scanner looks for --------------------------------------------------

  function Abs(x: int): nat {
    if x < 0 then -x else x
  }

  /** The square ring around a centre that a module lies on. */
  function Ring(r: int, c: int): nat {
    if Abs(r) < Abs(c) then Abs(c) else Abs(r)
  }

  /** A finder pattern, from its centre: a dark square, a light ring, a dark ring and a light border. */
  predicate FinderDark(r: int, c: int) {
    Ring(r, c) <= 1 || Ring(r, c) == 3
  }

  /** The centre of the finder pattern at a module's end of the row or column. */
  function CornerCentre(n: nat, i: nat): int {
    if i < 8 then 3 else n - 4
  }

  lemma {:induction false} ProbeIsRings(r: int, c: int)
    requires -1 <= r <= 7 && -1 <= c <= 7
    ensures ProbeDark(r, c) == FinderDark(r - 3, c - 3)
  {}

  lemma {:induction false} AlignmentIsRings(r: int, c: int)
    requires -2 <= r <= 2 && -2 <= c <= 2
    ensures AlignmentDark(r, c) == (Ring(r, c) != 1)
  {}

  ghost predicate ShowsFinders(g: Grid, n: nat)
    requires IsGrid(g, n)
  {
    forall i, j :: 0 <= i < n && 0 <= j < n && InFinder(n, i, j) ==>
      g[i][j] == Some(FinderDark(i - CornerCentre(n, i), j - CornerCentre(n, j)))
  }

  /** An alignment pattern: a dark centre, a light ring and a dark ring. */
  ghost predicate ShowsAlignments(g: Grid, version: nat)
    requires 1 <= version <= 40 && IsGrid(g, SizeOf(version))
  {
    forall a, b, i, j :: 0 <= i < SizeOf(version) && 0 <= j < SizeOf(version) && IsAlignmentOf(version, a, b, i, j) ==>
      g[i][j] == Some(Ring(i - PatternPosition(version)[a], j - PatternPosition(version)[b]) != 1)
  }

  /** The timing patterns alternate all the way, through the alignment patterns too. */
  ghost predicate ShowsTiming(g: Grid, n: nat)
    requires IsGrid(g, n)
  {
    forall i, j :: 0 <= i < n && 0 <= j < n && IsTiming(n, i, j) ==> g[i][j] == Some((i + j) % 2 == 0)
  }

  ghost predicate ShowsPatterns(g: Grid, version: nat)
    requires 1 <= version <= 40 && IsGrid(g, SizeOf(version))
  {
    ShowsFinders(g, SizeOf(version)) && ShowsAlignments(g, version) && ShowsTiming(g, SizeOf(version))
  }

  /** Bit k of the format information beside the top left finder pattern. */
  function FirstPlace(k: nat): (p: (int, int))
    requires k < 15
  {
    if k < 6 then (k, 8) else if k < 8 then (k + 1, 8) else if k == 8 then (8, 7) else (8, 14 - k)
  }

  /** The same bit beside the other two finder patterns. */
  function SecondPlace(n: nat, k: nat): (p: (int, int))
    requires k < 15 && n >= 21
  {
    if k < 8 then (8, n - 1 - k) else (n - 15 + k, 8)
  }

  /** Bit k of the version information, above the lower left finder pattern; beside the top right one it is mirrored. */
  function NumberPlace(n: nat, k: nat): (p: (int, int))
    requires k < 18 && n >= 21
  {
    (n - 11 + k % 3, k / 3)
  }

  predicate Shows(g: Grid, n: nat, row: int, col: int, dark: bool)
    requires IsGrid(g, n)
  {
    0 <= row < n && 0 <= col < n && g[row][col] == Some(dark)
  }

  /** Both copies of the format information, and the fixed module. */
  ghost predicate ShowsInfo(g: Grid, n: nat, test: bool, bits: bv32)
    requires IsGrid(g, n) && n >= 21
  {
    && (forall k :: 0 <= k < 15 ==>
      && Shows(g, n, FirstPlace(k).0, FirstPlace(k).1, !test && FormatInfo.Bit(bits, k))
      && Shows(g, n, SecondPlace(n, k).0, SecondPlace(n, k).1, !test && FormatInfo.Bit(bits, k)))
    && Shows(g, n, n - 8, 8, !test)
  }

  ghost predicate ShowsNumber(g: Grid, n: nat, test: bool, bits: bv32)
    requires IsGrid(g, n) && n >= 21
  {
    forall k :: 0 <= k < 18 ==>
      && Shows(g, n, NumberPlace(n, k).0, NumberPlace(n, k).1, !test && FormatInfo.Bit(bits, k))
      && Shows(g, n, NumberPlace(n, k).1, NumberPlace(n, k).0, !test && FormatInfo.Bit(bits, k))
  }

  /** The bits of the two copies as a scanner finds them. */
  ghost function FirstCopy(g: Grid, n: nat): nat -> bool
    requires IsGrid(g, n)
  {
    (k: nat) => k < 15 && Shows(g, n, FirstPlace(k).0, FirstPlace(k).1, true)
  }

  ghost function SecondCopy(g: Grid, n: nat): nat -> bool
    requires IsGrid(g, n) && n >= 21
  {
    (k: nat) => k < 15 && Shows(g, n, SecondPlace(n, k).0, SecondPlace(n, k).1, true)
  }

  // ---- the set-up shows them -----------------------------------------------------------------

  /** Alignment patterns keep away from the other patterns; those on row 6 and column 6 lie across the timing. */
  lemma {:induction false} AlignmentAway(version: nat, a: int, b: int, i: nat, j: nat)
    requires 1 <= version <= 40 && IsAlignmentOf(version, a, b, i, j)
    ensures !InFinder(SizeOf(version), i, j) && !InInfo(SizeOf(version), i, j) && !InNumber(SizeOf(version), i, j)
    ensures i == 6 ==> a == 0
    ensures j == 6 ==> b == 0
  {
    hide PatternPosition, IsRow;
    var pos := PatternPosition(version);
    TableRow(version);
    RowEnds(pos, version);
    if a > 0 {
      RowGrows(pos, version, 0, a);
    }
    if b > 0 {
      RowGrows(pos, version, 0, b);
    }
    if a < |pos| - 1 {
      RowGrows(pos, version, a, |pos| - 1);
    }
    if b < |pos| - 1 {
      RowGrows(pos, version, b, |pos| - 1);
    }
  }

  lemma {:induction false} PositionIsEven(pos: seq<nat>, version: nat, a: nat)
    requires 1 <= version <= 40 && IsRow(pos, version) && a < |pos|
    ensures pos[a] % 2 == 0
    decreases |pos| - a
  {
    hide HalfStep;
    if a == |pos| - 1 {
      EvenParts(pos[a], 2 * version + 5, 0);
    } else if a > 0 {
      PositionIsEven(pos, version, a + 1);
      assert HasStep(pos, a, Step(version));
      EvenParts(pos[a], pos[a + 1] / 2, HalfStep(version));
    }
  }

  lemma {:induction false} EvenParts(x: nat, a: nat, b: nat)
    requires x + 2 * b == 2 * a
    ensures x % 2 == 0
  {
    assert x == 2 * (a - b);
  }

  /** Across the timing an alignment pattern alternates as the timing does. */
  lemma {:induction false} AlignmentAlternates(version: nat, a: int, b: int, i: nat, j: nat)
    requires 1 <= version <= 40 && IsAlignmentOf(version, a, b, i, j) && IsTiming(SizeOf(version), i, j)
    ensures (Ring(i - PatternPosition(version)[a], j - PatternPosition(version)[b]) != 1) == ((i + j) % 2 == 0)
  {
    hide PatternPosition, IsRow;
    var pos := PatternPosition(version);
    TableRow(version);
    RowEnds(pos, version);
    AlignmentAway(version, a, b, i, j);
    PositionIsEven(pos, version, a);
    PositionIsEven(pos, version, b);
  }

  lemma {:induction false} FindersShow(g: Grid, n: nat)
    requires IsGrid(g, n) && n >= 21
    requires forall i, j :: 0 <= i < n && 0 <= j < n && InFinder(n, i, j) ==>
      g[i][j] == Some(ProbeDark(i - (if i < 8 then 0 else n - 7), j - (if j < 8 then 0 else n - 7)))
    ensures ShowsFinders(g, n)
  {
    hide ProbeDark, FinderDark;
    forall i, j | 0 <= i < n && 0 <= j < n && InFinder(n, i, j)
      ensures g[i][j] == Some(FinderDark(i - CornerCentre(n, i), j - CornerCentre(n, j)))
    {
      ProbeIsRings(i - (if i < 8 then 0 else n - 7), j - (if j < 8 then 0 else n - 7));
    }
  }

  lemma {:induction false} AlignedShows(now: Grid, g: Grid, version: nat)
    requires 1 <= version <= 40 && IsGrid(g, SizeOf(version)) && IsSpread(PatternPosition(version), SizeOf(version))
    requires forall i, j :: 0 <= i < SizeOf(version) && 0 <= j < SizeOf(version) ==> (g[i][j].Some? <==> InFinder(SizeOf(version), i, j))
    requires Aligned(now, g, SizeOf(version), PatternPosition(version), |PatternPosition(version)|, 0)
    ensures IsGrid(now, SizeOf(version)) && ShowsAlignments(now, version)
  {
    hide AlignmentDark, FinderDark, Ring, IsNear, PatternPosition, InFinder, SizeOf;
    var n, pos := SizeOf(version), PatternPosition(version);
    forall a, b, i: int, j: int | 0 <= i < n && 0 <= j < n && IsAlignmentOf(version, a, b, i, j)
      ensures now[i][j] == Some(Ring(i - pos[a], j - pos[b]) != 1)
    {
      assert IsAligned(now[i][j], g, n, pos, |pos|, 0, i, j);
      assert IsPattern(g, n, pos, |pos|, 0, a, b, i, j);
      NearOffsets(pos[a], pos[b], i, j);
      AlignmentIsRings(i - pos[a], j - pos[b]);
    }
  }

  lemma {:induction false} FindersStay(now: Grid, g: Grid, version: nat)
    requires 1 <= version <= 40 && IsGrid(g, SizeOf(version)) && IsSpread(PatternPosition(version), SizeOf(version))
    requires forall i, j :: 0 <= i < SizeOf(version) && 0 <= j < SizeOf(version) ==> (g[i][j].Some? <==> InFinder(SizeOf(version), i, j))
    requires ShowsFinders(g, SizeOf(version))
    requires Aligned(now, g, SizeOf(version), PatternPosition(version), |PatternPosition(version)|, 0)
    ensures IsGrid(now, SizeOf(version)) && ShowsFinders(now, SizeOf(version))
  {
    hide AlignmentDark, FinderDark, IsNear, PatternPosition, InFinder, SizeOf;
    var n, pos := SizeOf(version), PatternPosition(version);
    forall i, j | 0 <= i < n && 0 <= j < n && InFinder(n, i, j) ensures now[i][j] == g[i][j] {
      assert IsAligned(now[i][j], g, n, pos, |pos|, 0, i, j);
      forall a, b ensures !IsPattern(g, n, pos, |pos|, 0, a, b, i, j) {
        if IsPattern(g, n, pos, |pos|, 0, a, b, i, j) {
          assert IsAlignmentOf(version, a, b, i, j);
          AlignmentAway(version, a, b, i, j);
        }
      }
    }
  }

  lemma {:induction false} NearOffsets(row: int, col: int, i: int, j: int)
    requires IsNear(row, col, i, j)
    ensures -2 <= i - row <= 2 && -2 <= j - col <= 2
  {}

  /** What was still unset of the timing patterns is drawn; the alignment patterns across them already alternate. */
  lemma {:induction false} TimingShows(now: Grid, g: Grid, version: nat)
    requires 1 <= version <= 40 && IsGrid(g, SizeOf(version)) && IsGrid(now, SizeOf(version))
    requires ShowsFinders(g, SizeOf(version)) && ShowsAlignments(g, version)
    requires forall i, j :: 0 <= i < SizeOf(version) && 0 <= j < SizeOf(version) ==>
      (g[i][j].Some? <==> InFinder(SizeOf(version), i, j) || IsAlignment(version, i, j))
    requires forall i, j :: 0 <= i < SizeOf(version) && 0 <= j < SizeOf(version) ==>
      now[i][j] == if !IsTiming(SizeOf(version), i, j) || g[i][j].Some? then g[i][j] else Some((i + j) % 2 == 0)
    ensures ShowsPatterns(now, version)
  {
    hide PatternPosition, FinderDark, Ring, IsAlignmentOf, SizeOf;
    var n := SizeOf(version);
    forall i, j | 0 <= i < n && 0 <= j < n && IsTiming(n, i, j) ensures now[i][j] == Some((i + j) % 2 == 0) {
      if a, b :| IsAlignmentOf(version, a, b, i, j) {
        AlignmentAlternates(version, a, b, i, j);
      }
    }
    forall a, b, i, j | 0 <= i < n && 0 <= j < n && IsAlignmentOf(version, a, b, i, j) ensures now[i][j] == g[i][j] {
      assert IsAlignment(version, i, j);
    }
  }

  /** What is drawn outside the patterns leaves them as they are. */
  lemma {:induction false} PatternsStay(now: Grid, g: Grid, version: nat)
    requires 1 <= version <= 40 && IsGrid(g, SizeOf(version)) && IsGrid(now, SizeOf(version)) && ShowsPatterns(g, version)
    requires forall i, j :: 0 <= i < SizeOf(version) && 0 <= j < SizeOf(version) ==>
      now[i][j] == g[i][j] || InInfo(SizeOf(version), i, j) || InNumber(SizeOf(version), i, j)
    ensures ShowsPatterns(now, version)
  {
    hide PatternPosition, FinderDark, Ring, IsAlignmentOf;
    forall a, b, i, j | 0 <= i < SizeOf(version) && 0 <= j < SizeOf(version) && IsAlignmentOf(version, a, b, i, j)
      ensures now[i][j] == g[i][j]
    {
      AlignmentAway(version, a, b, i, j);
    }
  }

  lemma {:induction false} InfoShown(now: Grid, n: nat, test: bool, bits: bv32)
    requires IsGrid(now, n) && n >= 21
    requires forall i, j :: 0 <= i < n && 0 <= j < n && InInfo(n, i, j) ==>
      now[i][j] == Some(!test && (InfoBit(n, i, j) == 15 || FormatInfo.Bit(bits, InfoBit(n, i, j))))
    ensures ShowsInfo(now, n, test, bits)
  {
    hide FormatInfo.Bit;
    forall k | 0 <= k < 15
      ensures Shows(now, n, FirstPlace(k).0, FirstPlace(k).1, !test && FormatInfo.Bit(bits, k))
      ensures Shows(now, n, SecondPlace(n, k).0, SecondPlace(n, k).1, !test && FormatInfo.Bit(bits, k))
    {
      assert InInfo(n, FirstPlace(k).0, FirstPlace(k).1) && InfoBit(n, FirstPlace(k).0, FirstPlace(k).1) == k;
      assert InInfo(n, SecondPlace(n, k).0, SecondPlace(n, k).1) && InfoBit(n, SecondPlace(n, k).0, SecondPlace(n, k).1) == k;
    }
    assert InInfo(n, n - 8, 8) && InfoBit(n, n - 8, 8) == 15;
  }

  lemma {:induction false} NumberShown(now: Grid, n: nat, test: bool, bits: bv32)
    requires IsGrid(now, n) && n >= 21
    requires forall i, j :: 0 <= i < n && 0 <= j < n && InNumber(n, i, j) ==>
      now[i][j] == Some(!test && FormatInfo.Bit(bits, NumberBit(n, i, j)))
    ensures ShowsNumber(now, n, test, bits)
  {
    hide FormatInfo.Bit;
    forall k | 0 <= k < 18
      ensures Shows(now, n, NumberPlace(n, k).0, NumberPlace(n, k).1, !test && FormatInfo.Bit(bits, k))
      ensures Shows(now, n, NumberPlace(n, k).1, NumberPlace(n, k).0, !test && FormatInfo.Bit(bits, k))
    {
      var i, j := NumberPlace(n, k).0, NumberPlace(n, k).1;
      assert InNumber(n, i, j) && NumberBit(n, i, j) == k;
      assert InNumber(n, j, i) && NumberBit(n, j, i) == k;
    }
  }

  lemma {:induction false} InfoStays(now: Grid, g: Grid, n: nat, test: bool, bits: bv32)
    requires IsGrid(g, n) && IsGrid(now, n) && n >= 21 && ShowsInfo(g, n, test, bits)
    requires forall i, j :: 0 <= i < n && 0 <= j < n ==> now[i][j] == g[i][j] || InNumber(n, i, j)
    ensures ShowsInfo(now, n, test, bits)
  {
    hide FormatInfo.Bit;
  }

  /** map_data only sets what is unset. */
  lemma {:induction false} ColoursStay(now: Grid, g: Grid, version: nat, test: bool, info: bv32, number: bv32)
    requires 1 <= version <= 40 && IsGrid(g, SizeOf(version)) && IsGrid(now, SizeOf(version))
    requires forall i, j :: 0 <= i < SizeOf(version) && 0 <= j < SizeOf(version) && g[i][j].Some? ==> now[i][j] == g[i][j]
    ensures ShowsPatterns(g, version) ==> ShowsPatterns(now, version)
    ensures ShowsInfo(g, SizeOf(version), test, info) ==> ShowsInfo(now, SizeOf(version), test, info)
    ensures ShowsNumber(g, SizeOf(version), test, number) ==> ShowsNumber(now, SizeOf(version), test, number)
  {
    hide PatternPosition, FinderDark, Ring, IsAlignmentOf, InFinder, FormatInfo.Bit;
  }

  /** A scanner finds the bits that were written, in either copy. */
  lemma {:induction false} CopiesShow(g: Grid, n: nat, bits: bv32)
    requires IsGrid(g, n) && n >= 21 && ShowsInfo(g, n, false, bits)
    ensures forall k :: 0 <= k < 15 ==> FirstCopy(g, n)(k) == FormatInfo.Bit(bits, k)
    ensures forall k :: 0 <= k < 15 ==> SecondCopy(g, n)(k) == FormatInfo.Bit(bits, k)
  {
    hide FormatInfo.Bit;
    forall k | 0 <= k < 15
      ensures FirstCopy(g, n)(k) == FormatInfo.Bit(bits, k) && SecondCopy(g, n)(k) == FormatInfo.Bit(bits, k)
    {
      assert Shows(g, n, FirstPlace(k).0, FirstPlace(k).1, !false && FormatInfo.Bit(bits, k));
    }
  }

  class Symbol {
    var modules: Grid
    const modulesCount: nat

    ghost predicate Valid()
      reads this
    {
      IsSize(modulesCount) && IsGrid(modules, modulesCount)
    }

    /** The empty grid of a version. */
    constructor (version: nat)
      requires version >= 1
      ensures Valid() && modulesCount == SizeOf(version)
      ensures forall r, c :: 0 <= r < modulesCount && 0 <= c < modulesCount ==> modules[r][c] == None
    {
      modulesCount := SizeOf(version);
      modules := seq(SizeOf(version), _ => seq(SizeOf(version), _ => None));
    }

    /** modules[row][col] = dark */
    method Set(row: nat, col: nat, dark: bool)
      requires Valid() && row < modulesCount && col < modulesCount
      modifies `modules
      ensures Valid() && modules == old(modules)[row := old(modules)[row][col := Some(dark)]]
    {
      modules := modules[row := modules[row][col := Some(dark)]];
    }

    /** setup_position_probe_pattern: a finder pattern with its light border, clipped to the grid. */
    method SetupPositionProbePattern(row: int, col: int)
      requires Valid()
      modifies `modules
      ensures Valid()
      ensures forall i, j :: 0 <= i < modulesCount && 0 <= j < modulesCount ==>
        modules[i][j] == if row - 1 <= i <= row + 7 && col - 1 <= j <= col + 7
          then Some(ProbeDark(i - row, j - col)) else old(modules)[i][j]
    {
      hide ProbeDark;
      for r := -1 to 8
        invariant Valid()
        invariant forall i, j :: 0 <= i < modulesCount && 0 <= j < modulesCount ==>
          modules[i][j] == if row - 1 <= i < row + r && col - 1 <= j <= col + 7
            then Some(ProbeDark(i - row, j - col)) else old(modules)[i][j]
      {
        if row + r <= -1 || modulesCount <= row + r {
          continue;
        }
        ghost var before: Grid := modules;
        for c := -1 to 8
          invariant Valid()
          invariant forall i, j :: 0 <= i < modulesCount && 0 <= j < modulesCount ==>
            modules[i][j] == if i == row + r && col - 1 <= j < col + c
              then Some(ProbeDark(r, j - col)) else before[i][j]
        {
          if col + c <= -1 || modulesCount <= col + c {
            continue;
          }
          Set(row + r, col + c, ProbeDark(r, c));
        }
      }
    }

    /** setup_timing_pattern: alternating modules where row 6 and column 6 are still unset. */
    method SetupTimingPattern()
      requires Valid()
      modifies `modules
      ensures Valid()
      ensures forall i, j :: 0 <= i < modulesCount && 0 <= j < modulesCount ==>
        modules[i][j] == if !IsTiming(modulesCount, i, j) || old(modules)[i][j].Some? then old(modules)[i][j]
          else Some((i + j) % 2 == 0)
    {
      for r := 8 to modulesCount - 8
        invariant Valid()
        invariant forall i, j :: 0 <= i < modulesCount && 0 <= j < modulesCount ==>
          modules[i][j] == if 8 <= i < r && j == 6 && old(modules)[i][j].None? then Some(i % 2 == 0) else old(modules)[i][j]
      {
        if modules[r][6].Some? {
          continue;
        }
        Set(r, 6, r % 2 == 0);
      }
      ghost var before: Grid := modules;
      for c := 8 to modulesCount - 8
        invariant Valid()
        invariant forall i, j :: 0 <= i < modulesCount && 0 <= j < modulesCount ==>
          modules[i][j] == if i == 6 && 8 <= j < c && before[i][j].None? then Some(j % 2 == 0) else before[i][j]
      {
        if modules[6][c].Some? {
          continue;
        }
        Set(6, c, c % 2 == 0);
      }
    }

    /** One alignment pattern. */
    method DrawAlignment(row: nat, col: nat)
      requires Valid() && 2 <= row < modulesCount - 2 && 2 <= col < modulesCount - 2
      modifies `modules
      ensures Valid()
      ensures forall i, j :: 0 <= i < modulesCount && 0 <= j < modulesCount ==>
        modules[i][j] == if IsNear(row, col, i, j) then Some(AlignmentDark(i - row, j - col)) else old(modules)[i][j]
    {
      hide AlignmentDark;
      for r := -2 to 3
        invariant Valid()
        invariant forall i, j :: 0 <= i < modulesCount && 0 <= j < modulesCount ==>
          modules[i][j] == if IsNear(row, col, i, j) && i < row + r then Some(AlignmentDark(i - row, j - col)) else old(modules)[i][j]
      {
        ghost var before: Grid := modules;
        for c := -2 to 3
          invariant Valid()
          invariant forall i, j :: 0 <= i < modulesCount && 0 <= j < modulesCount ==>
            modules[i][j] == if i == row + r && col - 2 <= j < col + c then Some(AlignmentDark(r, j - col)) else before[i][j]
        {
          Set(row + r, col + c, AlignmentDark(r, c));
        }
      }
    }

    /** setup_position_adjust_pattern; pos is the version's row of PATTERN_POSITION_TABLE. */
    method SetupPositionAdjustPattern(pos: seq<nat>)
      requires Valid() && IsSpread(pos, modulesCount)
      modifies `modules
      ensures Valid() && Aligned(modules, old(modules), modulesCount, pos, |pos|, 0)
    {
      hide AlignmentDark, IsNear, Aligned;
      assert Aligned(modules, modules, modulesCount, pos, 0, 0) by { NothingAligned(modules, modulesCount, pos); }
      for i := 0 to |pos|
        invariant Valid() && Aligned(modules, old(modules), modulesCount, pos, i, 0)
      {
        for j := 0 to |pos|
          invariant Valid() && Aligned(modules, old(modules), modulesCount, pos, i, j)
        {
          CentreIsFree(modules, old(modules), modulesCount, pos, i, j);
          ghost var before := modules;
          if modules[pos[i]][pos[j]].Some? {
            AlignedNext(before, before, old(modules), modulesCount, pos, i, j);
            continue;
          }
          DrawAlignment(pos[i], pos[j]);
          AlignedNext(before, modules, old(modules), modulesCount, pos, i, j);
        }
        NextRow(modules, old(modules), modulesCount, pos, i);
      }
    }

    /** The blank symbol that makeImpl prepares. */
    method SetupBlank(version: nat)
      requires Valid() && 1 <= version <= 40 && modulesCount == SizeOf(version)
      requires forall r, c :: 0 <= r < modulesCount && 0 <= c < modulesCount ==> modules[r][c] == None
      modifies `modules
      ensures Valid() && IsBlankGrid(modules, version) && ShowsPatterns(modules, version)
    {
      hide ProbeDark, AlignmentDark, PatternPosition, Aligned;
      SetupPositionProbePattern(0, 0);
      SetupPositionProbePattern(modulesCount - 7, 0);
      SetupPositionProbePattern(0, modulesCount - 7);
      ghost var finders := modules;
      FindersShow(finders, modulesCount);
      TableIsSpread(version);
      SetupPositionAdjustPattern(PatternPosition(version));
      ghost var aligned := modules;
      AlignedIsBlank(aligned, finders, version);
      AlignedShows(aligned, finders, version);
      FindersStay(aligned, finders, version);
      SetupTimingPattern();
      TimingShows(modules, aligned, version);
    }

    /** The copy along column 8. */
    method SetupVerticalInfo(test: bool, bits: bv32)
      requires Valid()
      modifies `modules
      ensures Valid()
      ensures forall i, j :: 0 <= i < modulesCount && 0 <= j < modulesCount ==>
        modules[i][j] == if InInfo(modulesCount, i, j) && j == 8 && InfoBit(modulesCount, i, j) < 15
          then Some(!test && FormatInfo.Bit(bits, InfoBit(modulesCount, i, j))) else old(modules)[i][j]
    {
      hide FormatInfo.Bit;
      for k := 0 to 15
        invariant Valid()
        invariant forall i, j :: 0 <= i < modulesCount && 0 <= j < modulesCount ==>
          modules[i][j] == if InInfo(modulesCount, i, j) && j == 8 && InfoBit(modulesCount, i, j) < k
            then Some(!test && FormatInfo.Bit(bits, InfoBit(modulesCount, i, j))) else old(modules)[i][j]
      {
        var mod := !test && FormatInfo.Bit(bits, k);
        if k < 6 {
          Set(k, 8, mod);
        } else if k < 8 {
          Set(k + 1, 8, mod);
        } else {
          Set(modulesCount - 15 + k, 8, mod);
        }
      }
    }

    /** The copy along row 8. */
    method SetupHorizontalInfo(test: bool, bits: bv32)
      requires Valid()
      modifies `modules
      ensures Valid()
      ensures forall i, j :: 0 <= i < modulesCount && 0 <= j < modulesCount ==>
        modules[i][j] == if InInfo(modulesCount, i, j) && j != 8
          then Some(!test && FormatInfo.Bit(bits, InfoBit(modulesCount, i, j))) else old(modules)[i][j]
    {
      hide FormatInfo.Bit;
      for k := 0 to 15
        invariant Valid()
        invariant forall i, j :: 0 <= i < modulesCount && 0 <= j < modulesCount ==>
          modules[i][j] == if InInfo(modulesCount, i, j) && j != 8 && InfoBit(modulesCount, i, j) < k
            then Some(!test && FormatInfo.Bit(bits, InfoBit(modulesCount, i, j))) else old(modules)[i][j]
      {
        var mod := !test && FormatInfo.Bit(bits, k);
        if k < 8 {
          Set(8, modulesCount - k - 1, mod);
        } else if k < 9 {
          Set(8, 15 - k - 1 + 1, mod);
        } else {
          Set(8, 15 - k - 1, mod);
        }
      }
    }

    /** setup_type_info; bits is what BCH_type_info computes. */
    method SetupTypeInfo(test: bool, bits: bv32)
      requires Valid()
      modifies `modules
      ensures Valid()
      ensures forall i, j :: 0 <= i < modulesCount && 0 <= j < modulesCount ==>
        modules[i][j] == if InInfo(modulesCount, i, j)
          then Some(!test && (InfoBit(modulesCount, i, j) == 15 || FormatInfo.Bit(bits, InfoBit(modulesCount, i, j)))) else old(modules)[i][j]
    {
      hide FormatInfo.Bit;
      SetupVerticalInfo(test, bits);
      SetupHorizontalInfo(test, bits);
      Set(modulesCount - 8, 8, !test);
    }

    /** setup_type_number; bits is what BCH_type_number computes. */
    method SetupTypeNumber(test: bool, bits: bv32)
      requires Valid()
      modifies `modules
      ensures Valid()
      ensures forall i, j :: 0 <= i < modulesCount && 0 <= j < modulesCount ==>
        modules[i][j] == if InNumber(modulesCount, i, j) then Some(!test && FormatInfo.Bit(bits, NumberBit(modulesCount, i, j))) else old(modules)[i][j]
    {
      hide FormatInfo.Bit;
      for k := 0 to 18
        invariant Valid()
        invariant forall i, j :: 0 <= i < modulesCount && 0 <= j < modulesCount ==>
          modules[i][j] == if InNumber(modulesCount, i, j) && i < 6 && NumberBit(modulesCount, i, j) < k
            then Some(!test && FormatInfo.Bit(bits, NumberBit(modulesCount, i, j))) else old(modules)[i][j]
      {
        Set(k / 3, k % 3 + modulesCount - 8 - 3, !test && FormatInfo.Bit(bits, k));
      }
      ghost var before: Grid := modules;
      for k := 0 to 18
        invariant Valid()
        invariant forall i, j :: 0 <= i < modulesCount && 0 <= j < modulesCount ==>
          modules[i][j] == if InNumber(modulesCount, i, j) && i >= 6 && NumberBit(modulesCount, i, j) < k
            then Some(!test && FormatInfo.Bit(bits, NumberBit(modulesCount, i, j))) else before[i][j]
      {
        Set(k % 3 + modulesCount - 8 - 3, k / 3, !test && FormatInfo.Bit(bits, k));
      }
    }

    method PlaceBit(row: nat, c: nat, data: Poly, mask: nat, bitIndex: nat, byteIndex: nat)
      returns (nextBit: nat, nextByte: nat)
      requires Valid() && row < modulesCount && c < modulesCount && mask < 8 && bitIndex <= 7
      modifies `modules
      ensures Valid() && nextBit <= 7
      ensures var m := 8 * byteIndex + 7 - bitIndex;
        && (old(modules)[row][c].Some? ==> modules == old(modules) && 8 * nextByte + 7 - nextBit == m)
        && (old(modules)[row][c].None? ==>
              && modules == old(modules)[row := old(modules)[row][c := Some(DataBit(data, m) != MaskAt(mask, row, c))]]
              && 8 * nextByte + 7 - nextBit == m + 1)
    {
      hide MaskAt;
      nextBit, nextByte := bitIndex, byteIndex;
      if modules[row][c].None? {
        var dark := false;
        if byteIndex < |data| {
          dark := (data[byteIndex] >> bitIndex) & 1 == 1;
        }
        if MaskAt(mask, row, c) {
          dark := !dark;
        }
        Set(row, c, dark);
        if nextBit == 0 {
          nextByte, nextBit := nextByte + 1, 7;
        } else {
          nextBit := nextBit - 1;
        }
      }
    }

    /** Both modules of a pair in one row. */
    method PlaceRow(row: nat, right: nat, data: Poly, mask: nat, bitIndex: nat, byteIndex: nat, ghost g: Grid, ghost k: nat, ghost s: nat)
      returns (nextBit: nat, nextByte: nat)
      requires Valid() && mask < 8 && bitIndex <= 7 && IsGrid(g, modulesCount) && OnPath(modulesCount, Place(k, s, 0))
      requires row == Row(modulesCount, k, s) && right == RightColumn(modulesCount, k)
      requires FilledTo(modules, g, modulesCount, data, mask, Place(k, s, 0))
      requires 8 * byteIndex + 7 - bitIndex == Prior(g, modulesCount, Place(k, s, 0))
      modifies `modules
      ensures Valid() && nextBit <= 7 && FilledTo(modules, g, modulesCount, data, mask, Place(k, s + 1, 0))
      ensures 8 * nextByte + 7 - nextBit == Prior(g, modulesCount, Place(k, s + 1, 0))
    {
      hide MaskAt, DataBit, Prior, FilledTo, PlaceOf, Row, RightColumn;
      ghost var now := modules;
      assert Column(modulesCount, Place(k, s, 0)) == right && Column(modulesCount, Place(k, s, 1)) == right - 1;
      nextBit, nextByte := PlaceBit(row, right, data, mask, bitIndex, byteIndex);
      FillOne(now, modules, g, modulesCount, data, mask, Place(k, s, 0));
      now := modules;
      nextBit, nextByte := PlaceBit(row, right - 1, data, mask, nextBit, nextByte);
      FillOne(now, modules, g, modulesCount, data, mask, Place(k, s, 1));
    }

    /** map_data; MappedMeaning says what the final grid is for a scanner. */
    method MapData(data: Poly, mask: nat)
      requires Valid() && mask < 8
      modifies `modules
      ensures Valid() && FilledTo(modules, old(modules), modulesCount, data, mask, Finish(modulesCount))
    {
      hide MaskAt, DataBit, Prior, FilledTo, PlaceOf, IsGrid;
      var inc, row: int, bitIndex, byteIndex := -1, modulesCount - 1, 7, 0;
      var col: int := modulesCount - 1;
      ghost var g, k := modules, 0;
      StartOfPath(g, modulesCount, data, mask);
      while col > 0
        invariant Valid() && k <= modulesCount / 2 && col == modulesCount - 1 - 2 * k && bitIndex <= 7
        invariant inc == (if k % 2 == 0 then -1 else 1) && row == Row(modulesCount, k, 0)
        invariant FilledTo(modules, g, modulesCount, data, mask, Place(k, 0, 0))
        invariant 8 * byteIndex + 7 - bitIndex == Prior(g, modulesCount, Place(k, 0, 0))
      {
        var right := if col <= 6 then col - 1 else col;
        ghost var s := 0;
        while true
          invariant Valid() && s < modulesCount && row == Row(modulesCount, k, s) && bitIndex <= 7
          invariant inc == (if k % 2 == 0 then -1 else 1)
          invariant FilledTo(modules, g, modulesCount, data, mask, Place(k, s, 0))
          invariant 8 * byteIndex + 7 - bitIndex == Prior(g, modulesCount, Place(k, s, 0))
          decreases modulesCount - s
        {
          bitIndex, byteIndex := PlaceRow(row, right, data, mask, bitIndex, byteIndex, g, k, s);
          row := row + inc;
          if row < 0 || modulesCount <= row {
            row := row - inc;
            inc := -inc;
            break;
          }
          s := s + 1;
        }
        EndOfPair(modules, g, modulesCount, data, mask, k);
        k := k + 1;
        col := col - 2;
      }
    }
  }

  /** After the finder patterns, exactly the alignment patterns outside them are drawn. */
  lemma {:induction false} AlignedIsBlank(now: Grid, g: Grid, version: nat)
    requires 1 <= version <= 40 && IsGrid(g, SizeOf(version)) && IsSpread(PatternPosition(version), SizeOf(version))
    requires forall i, j :: 0 <= i < SizeOf(version) && 0 <= j < SizeOf(version) ==> (g[i][j].Some? <==> InFinder(SizeOf(version), i, j))
    requires Aligned(now, g, SizeOf(version), PatternPosition(version), |PatternPosition(version)|, 0)
    ensures IsGrid(now, SizeOf(version))
    ensures forall i, j :: 0 <= i < SizeOf(version) && 0 <= j < SizeOf(version) ==>
      (now[i][j].Some? <==> InFinder(SizeOf(version), i, j) || IsAlignment(version, i, j))
  {
    hide AlignmentDark, IsNear, PatternPosition, InFinder, SizeOf;
    var n, pos := SizeOf(version), PatternPosition(version);
    forall i, j | 0 <= i < n && 0 <= j < n ensures now[i][j].Some? <==> InFinder(n, i, j) || IsAlignment(version, i, j) {
      assert IsAligned(now[i][j], g, n, pos, |pos|, 0, i, j);
      forall a, b ensures IsPattern(g, n, pos, |pos|, 0, a, b, i, j) <==> IsAlignmentOf(version, a, b, i, j) {
      }
      if a, b :| IsPattern(g, n, pos, |pos|, 0, a, b, i, j) {
        assert IsAlignmentOf(version, a, b, i, j);
      }
    }
  }

  lemma {:induction false} StartOfPath(g: Grid, n: nat, data: Poly, mask: nat)
    requires IsSize(n) && IsGrid(g, n) && mask < 8
    ensures FilledTo(g, g, n, data, mask, Place(0, 0, 0)) && Prior(g, n, Place(0, 0, 0)) == 0
  {}
}
