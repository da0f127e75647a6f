/**
 How many modules a symbol leaves for data: the area of the function patterns (makeImpl and the set-up methods,
 qml/utilities/qrcode/main.py:176-199, 404-484) against the codewords of a version (RS_BLOCK_TABLE).
 */
module DataModules {
  import opened Wrappers
  import opened Versions
  import opened Placement

  /** A rectangle of modules. */
  datatype Region = Region(row: int, height: nat, col: int, width: nat)
  {
    predicate Has(i: int, j: int) {
      row <= i < row + height && col <= j < col + width
    }

    ghost function Cells(): set<(int, int)> {
      set i, j | row <= i < row + height && col <= j < col + width :: (i, j)
    }
  }

  lemma {:induction false} CellsOfRow(row: int, col: int, width: nat)
    ensures |Region(row, 1, col, width).Cells()| == width
  {
    var all := Region(row, 1, col, width).Cells();
    if width == 0 {
      assert all == {};
    } else {
      CellsOfRow(row, col, width - 1);
      assert all == Region(row, 1, col, width - 1).Cells() + {(row, col + width - 1)};
    }
  }

  lemma {:induction false} CellsOfRegion(g: Region)
    ensures |g.Cells()| == g.height * g.width
    decreases g.height
  {
    if g.height == 0 {
      assert g.Cells() == {};
    } else {
      var less, last := Region(g.row, g.height - 1, g.col, g.width), Region(g.row + g.height - 1, 1, g.col, g.width);
      CellsOfRegion(less);
      CellsOfRow(g.row + g.height - 1, g.col, g.width);
      LastRow(g);
      SumOfDisjoint(less.Cells(), last.Cells());
      OneRowMore(g.height, g.width);
    }
  }

  lemma {:induction false} OneRowMore(height: nat, width: nat)
    requires height > 0
    ensures height * width == (height - 1) * width + width
  {}

  lemma {:induction false} SumOfDisjoint(a: set<(int, int)>, b: set<(int, int)>)
    requires a !! b
    ensures |a + b| == |a| + |b|
  {}

  lemma {:induction false} LastRow(g: Region)
    requires g.height > 0
    ensures var less, last := Region(g.row, g.height - 1, g.col, g.width), Region(g.row + g.height - 1, 1, g.col, g.width);
      g.Cells() == less.Cells() + last.Cells() && less.Cells() !! last.Cells()
  {}

  function Area(regions: seq<Region>): nat {
    if regions == [] then 0 else Area(regions[..|regions| - 1]) + regions[|regions| - 1].height * regions[|regions| - 1].width
  }

  ghost function Cover(regions: seq<Region>): set<(int, int)> {
    if regions == [] then {} else Cover(regions[..|regions| - 1]) + regions[|regions| - 1].Cells()
  }

  lemma {:induction false} CoverIsSmall(regions: seq<Region>)
    ensures |Cover(regions)| <= Area(regions)
  {
    hide Region.Cells;
    if regions != [] {
      CoverIsSmall(regions[..|regions| - 1]);
      CellsOfRegion(regions[|regions| - 1]);
    }
  }

  lemma {:induction false} InCover(regions: seq<Region>, k: nat, i: int, j: int)
    requires k < |regions| && regions[k].Has(i, j)
    ensures (i, j) in Cover(regions)
  {
    var n := |regions| - 1;
    if k < n {
      InCover(regions[..n], k, i, j);
    }
  }

  lemma {:induction false} CoverOfBoth(a: seq<Region>, b: seq<Region>)
    ensures Cover(a + b) == Cover(a) + Cover(b) && Area(a + b) == Area(a) + Area(b)
  {
    hide Region.Cells;
    if b == [] {
      assert a + b == a;
    } else {
      assert (a + b)[..|a + b| - 1] == a + b[..|b| - 1];
      CoverOfBoth(a, b[..|b| - 1]);
    }
  }

  // ---- the regions of a version --------------------------------------------------------------

  function Finders(n: nat): seq<Region> {
    [Region(0, 8, 0, 8), Region(n - 8, 8, 0, 8), Region(0, 8, n - 8, 8)]
  }

  function Timing(n: nat): seq<Region>
    requires n >= 21
  {
    [Region(8, n - 16, 6, 1), Region(6, 1, 8, n - 16)]
  }

  function Info(n: nat): seq<Region> {
    [Region(0, 6, 8, 1), Region(7, 2, 8, 1), Region(n - 8, 8, 8, 1), Region(8, 1, 0, 6), Region(8, 1, 7, 1), Region(8, 1, n - 8, 8)]
  }

  function Number(version: nat): seq<Region> {
    if version < 7 then [] else [Region(0, 6, SizeOf(version) - 11, 3), Region(SizeOf(version) - 11, 3, 0, 6)]
  }

  /** The first row or column of an alignment pattern. */
  function Top(p: int): int {
    p - 2
  }

  /** The alignment patterns in columns 1 .. b - 1 of the table, beside row position a. */
  function Squares(pos: seq<nat>, a: nat, b: nat): seq<Region>
    requires a < |pos| && b <= |pos|
  {
    if b <= 1 then [] else Squares(pos, a, b - 1) + [Region(Top(pos[a]), 5, Top(pos[b - 1]), 5)]
  }

  function AllSquares(pos: seq<nat>, a: nat): seq<Region>
    requires a <= |pos|
  {
    if a <= 1 then [] else AllSquares(pos, a - 1) + Squares(pos, a - 1, |pos|)
  }

  /** The alignment patterns on row 6 and column 6, without the timing modules. */
  function Strips(pos: seq<nat>, b: nat): seq<Region>
    requires b <= |pos|
  {
    if b <= 1 then []
    else
      var p := Top(pos[b - 1]);
      Strips(pos, b - 1) + [Region(4, 2, p, 5), Region(7, 2, p, 5), Region(p, 5, 4, 2), Region(p, 5, 7, 2)]
  }

  function AlignmentRegions(pos: seq<nat>): seq<Region> {
    if pos == [] then [] else AllSquares(pos, |pos|) + Strips(pos, |pos| - 1)
  }

  function Regions(version: nat): seq<Region>
    requires 1 <= version <= 40
  {
    Finders(SizeOf(version)) + Timing(SizeOf(version)) + Info(SizeOf(version)) + Number(version)
    + AlignmentRegions(PatternPosition(version))
  }

  // ---- they cover what is not data -----------------------------------------------------------

  lemma {:induction false} FinderCovered(n: nat, i: nat, j: nat)
    requires n >= 21 && i < n && j < n && InFinder(n, i, j)
    ensures (i, j) in Cover(Finders(n))
  {
    hide Cover;
    InCover(Finders(n), if i < 8 && j < 8 then 0 else if j < 8 then 1 else 2, i, j);
  }

  lemma {:induction false} TimingCovered(n: nat, i: nat, j: nat)
    requires n >= 21 && IsTiming(n, i, j)
    ensures (i, j) in Cover(Timing(n))
  {
    hide Cover;
    InCover(Timing(n), if j == 6 then 0 else 1, i, j);
  }

  lemma {:induction false} InfoCovered(n: nat, i: nat, j: nat)
    requires n >= 21 && i < n && j < n && InInfo(n, i, j)
    ensures (i, j) in Cover(Info(n))
  {
    hide Cover;
    if j == 8 {
      InCover(Info(n), if i < 6 then 0 else if i < 9 then 1 else 2, i, j);
    } else {
      InCover(Info(n), if j < 6 then 3 else if j < 8 then 4 else 5, i, j);
    }
  }

  lemma {:induction false} NumberCovered(version: nat, i: nat, j: nat)
    requires 7 <= version && InNumber(SizeOf(version), i, j)
    ensures (i, j) in Cover(Number(version))
  {
    hide Cover;
    InCover(Number(version), if i < 6 then 0 else 1, i, j);
  }

  lemma {:induction false} SquareCovered(pos: seq<nat>, a: nat, b: nat, limit: nat, i: int, j: int)
    requires a < |pos| && 1 <= b < limit <= |pos| && IsNear(pos[a], pos[b], i, j)
    ensures (i, j) in Cover(Squares(pos, a, limit))
  {
    hide Cover;
    var last := [Region(Top(pos[a]), 5, Top(pos[limit - 1]), 5)];
    CoverOfBoth(Squares(pos, a, limit - 1), last);
    if b == limit - 1 {
      InCover(last, 0, i, j);
    } else {
      SquareCovered(pos, a, b, limit - 1, i, j);
    }
  }

  lemma {:induction false} SquaresCovered(pos: seq<nat>, a: nat, b: nat, limit: nat, i: int, j: int)
    requires 1 <= a < limit <= |pos| && 1 <= b < |pos| && IsNear(pos[a], pos[b], i, j)
    ensures (i, j) in Cover(AllSquares(pos, limit))
  {
    hide Cover, IsNear;
    CoverOfBoth(AllSquares(pos, limit - 1), Squares(pos, limit - 1, |pos|));
    if a == limit - 1 {
      SquareCovered(pos, a, b, |pos|, i, j);
    } else {
      SquaresCovered(pos, a, b, limit - 1, i, j);
    }
  }

  lemma {:induction false} StripCovered(pos: seq<nat>, b: nat, limit: nat, i: int, j: int)
    requires 1 <= b < limit <= |pos|
    requires (IsNear(6, pos[b], i, j) && i != 6) || (IsNear(pos[b], 6, i, j) && j != 6)
    ensures (i, j) in Cover(Strips(pos, limit))
  {
    hide Cover;
    var p := Top(pos[limit - 1]);
    var last := [Region(4, 2, p, 5), Region(7, 2, p, 5), Region(p, 5, 4, 2), Region(p, 5, 7, 2)];
    CoverOfBoth(Strips(pos, limit - 1), last);
    if b == limit - 1 {
      InCover(last, if IsNear(6, pos[b], i, j) && i != 6 then if i < 6 then 0 else 1 else if j < 6 then 2 else 3, i, j);
    } else {
      StripCovered(pos, b, limit - 1, i, j);
    }
  }

  lemma {:induction false} AlignmentCovered(version: nat, a: int, b: int, i: nat, j: nat)
    requires 1 <= version <= 40 && IsAlignmentOf(version, a, b, i, j)
    ensures IsTiming(SizeOf(version), i, j) || (i, j) in Cover(AlignmentRegions(PatternPosition(version)))
  {
    hide Cover, AllSquares, Strips, PatternPosition, IsRow;
    var n, pos := SizeOf(version), PatternPosition(version);
    TableRow(version);
    RowEnds(pos, version);
    CoverOfBoth(AllSquares(pos, |pos|), Strips(pos, |pos| - 1));
    if a > 0 && b > 0 {
      SquaresCovered(pos, a, b, |pos|, i, j);
    } else {
      var c := if a == 0 then b else a;
      assert 0 < c < |pos| - 1;
      RowGrows(pos, version, 0, c);
      RowGrows(pos, version, c, |pos| - 1);
      if !IsTiming(n, i, j) {
        StripCovered(pos, c, |pos| - 1, i, j);
      }
    }
  }

  lemma {:induction false} FunctionsCovered(version: nat, i: nat, j: nat)
    requires 1 <= version <= 40 && i < SizeOf(version) && j < SizeOf(version) && IsFunction(version, i, j)
    ensures (i, j) in Cover(Regions(version))
  {
    hide Cover, Finders, Timing, Info, Number, AlignmentRegions, PatternPosition, InFinder, IsTiming, InInfo, InNumber, IsAlignmentOf;
    var n := SizeOf(version);
    assert n >= 21;
    CoverOfAll(version);
    if InFinder(n, i, j) {
      FinderCovered(n, i, j);
    } else if IsTiming(n, i, j) {
      TimingCovered(n, i, j);
    } else if InInfo(n, i, j) {
      InfoCovered(n, i, j);
    } else if version >= 7 && InNumber(n, i, j) {
      NumberCovered(version, i, j);
    } else {
      var a, b :| IsAlignmentOf(version, a, b, i, j);
      AlignmentCovered(version, a, b, i, j);
    }
  }

  lemma {:induction false} CoverOfAll(version: nat)
    requires 1 <= version <= 40
    ensures var n := SizeOf(version);
      && Cover(Regions(version)) == Cover(Finders(n)) + Cover(Timing(n)) + Cover(Info(n)) + Cover(Number(version))
           + Cover(AlignmentRegions(PatternPosition(version)))
      && Area(Regions(version)) == Area(Finders(n)) + Area(Timing(n)) + Area(Info(n)) + Area(Number(version))
           + Area(AlignmentRegions(PatternPosition(version)))
  {
    hide Cover, Area, Finders, Timing, Info, Number, AlignmentRegions, PatternPosition;
    var n := SizeOf(version);
    CoverOfBoth(Finders(n), Timing(n));
    CoverOfBoth(Finders(n) + Timing(n), Info(n));
    CoverOfBoth(Finders(n) + Timing(n) + Info(n), Number(version));
    CoverOfBoth(Finders(n) + Timing(n) + Info(n) + Number(version), AlignmentRegions(PatternPosition(version)));
  }

  // ---- their area ----------------------------------------------------------------------------

  lemma {:induction false} AreaOfOne(g: Region)
    ensures Area([g]) == g.height * g.width
  {
    assert [g][..0] == [];
  }

  lemma {:induction false} AreaOfTwo(g: Region, h: Region)
    ensures Area([g, h]) == g.height * g.width + h.height * h.width
  {
    assert [g, h] == [g] + [h];
    CoverOfBoth([g], [h]);
    AreaOfOne(g);
    AreaOfOne(h);
  }

  lemma {:induction false} AreaOfFixed(version: nat)
    requires 1 <= version
    ensures var n := SizeOf(version);
      Area(Finders(n)) + Area(Timing(n)) + Area(Info(n)) + Area(Number(version))
      == 192 + 2 * (4 * version + 1) + 31 + if version < 7 then 0 else 36
  {
    hide Area;
    var n := SizeOf(version);
    var f, t, i := Finders(n), Timing(n), Info(n);
    assert f == [f[0], f[1]] + [f[2]];
    CoverOfBoth([f[0], f[1]], [f[2]]);
    AreaOfTwo(f[0], f[1]);
    AreaOfOne(f[2]);
    AreaOfTwo(t[0], t[1]);
    assert i == [i[0], i[1]] + [i[2], i[3]] + [i[4], i[5]];
    CoverOfBoth([i[0], i[1]] + [i[2], i[3]], [i[4], i[5]]);
    CoverOfBoth([i[0], i[1]], [i[2], i[3]]);
    AreaOfTwo(i[0], i[1]);
    AreaOfTwo(i[2], i[3]);
    AreaOfTwo(i[4], i[5]);
    if version >= 7 {
      AreaOfTwo(Number(version)[0], Number(version)[1]);
    } else {
      AreaOfNone();
    }
  }

  lemma {:induction false} AreaOfNone()
    ensures Area([]) == 0
  {}

  lemma {:induction false} AreaOfSquares(pos: seq<nat>, a: nat, b: nat)
    requires a < |pos| && 1 <= b <= |pos|
    ensures Area(Squares(pos, a, b)) == 25 * (b - 1)
  {
    if b > 1 {
      AreaOfSquares(pos, a, b - 1);
      CoverOfBoth(Squares(pos, a, b - 1), [Region(Top(pos[a]), 5, Top(pos[b - 1]), 5)]);
      AreaOfOne(Region(Top(pos[a]), 5, Top(pos[b - 1]), 5));
    }
  }

  lemma {:induction false} AreaOfAllSquares(pos: seq<nat>, a: nat)
    requires 1 <= a <= |pos|
    ensures Area(AllSquares(pos, a)) == 25 * ((a - 1) * (|pos| - 1))
  {
    if a > 1 {
      AreaOfAllSquares(pos, a - 1);
      CoverOfBoth(AllSquares(pos, a - 1), Squares(pos, a - 1, |pos|));
      AreaOfSquares(pos, a - 1, |pos|);
      assert (a - 1) * (|pos| - 1) == (a - 2) * (|pos| - 1) + (|pos| - 1);
    }
  }

  lemma {:induction false} AreaOfStrips(pos: seq<nat>, b: nat)
    requires 1 <= b <= |pos|
    ensures Area(Strips(pos, b)) == 40 * (b - 1)
  {
    if b > 1 {
      var p := Top(pos[b - 1]);
      AreaOfStrips(pos, b - 1);
      var last := [Region(4, 2, p, 5), Region(7, 2, p, 5), Region(p, 5, 4, 2), Region(p, 5, 7, 2)];
      CoverOfBoth(Strips(pos, b - 1), last);
      assert last == [last[0], last[1]] + [last[2], last[3]];
      CoverOfBoth([last[0], last[1]], [last[2], last[3]]);
      AreaOfTwo(last[0], last[1]);
      AreaOfTwo(last[2], last[3]);
    }
  }

  lemma {:induction false} AreaOfRegions(version: nat)
    requires 1 <= version <= 40
    ensures Area(Regions(version)) == FunctionModules(version)
  {
    hide Area, Cover, Finders, Timing, Info, Number, AllSquares, Strips, PatternPosition, IsRow;
    CoverOfAll(version);
    AreaOfFixed(version);
    var pos := PatternPosition(version);
    TableRow(version);
    RowEnds(pos, version);
    if pos != [] {
      CoverOfBoth(AllSquares(pos, |pos|), Strips(pos, |pos| - 1));
      AreaOfAllSquares(pos, |pos|);
      AreaOfStrips(pos, |pos| - 1);
    } else {
      AreaOfNone();
    }
  }

  // ---- the room for data ---------------------------------------------------------------------

  ghost function Free(g: Grid, n: nat): set<(nat, nat)>
    requires IsGrid(g, n)
  {
    set r: nat, c: nat | r < n && c < n && c != 6 && g[r][c].None? :: (r, c)
  }

  ghost function AsCells(s: set<(nat, nat)>): set<(int, int)> {
    set p | p in s :: (p.0, p.1)
  }

  lemma {:induction false} AsManyCells(s: set<(nat, nat)>)
    ensures |AsCells(s)| == |s|
  {
    if s == {} {
      assert AsCells(s) == {};
    } else {
      var p :| p in s;
      AsManyCells(s - {p});
      assert AsCells(s) == AsCells(s - {p}) + {(p.0, p.1)};
    }
  }

  /** Column 6 holds no data. */
  lemma {:induction false} ColumnSix(version: nat, i: nat)
    requires 1 <= version <= 40 && i < SizeOf(version)
    ensures IsFunction(version, i, 6)
  {}

  /**
   The modules that the set-up and the format areas leave unset are enough for all codewords of the version:
   map_data places every bit.
   */
  lemma {:induction false} RoomForCodewords(g: Grid, version: nat)
    requires 1 <= version <= 40 && IsPrepared(g, version)
    ensures IsSize(SizeOf(version))
    ensures 8 * Capacity(version) <= Prior(g, SizeOf(version), Finish(SizeOf(version)))
  {
    hide Prior, Cover, Regions, FunctionModules, IsFunction, Region.Cells;
    var n := SizeOf(version);
    SizeIsSize(version);
    UnsetIsFree(g, n);
    var all, cover := Region(0, n, 0, n).Cells(), Cover(Regions(version));
    CellsOfRegion(Region(0, n, 0, n));
    CoverIsSmall(Regions(version));
    AreaOfRegions(version);
    AsManyCells(Free(g, n));
    assert all - cover <= AsCells(Free(g, n)) by { RestIsFree(g, version); }
    Sizes(all, cover);
    Subset(all - cover, AsCells(Free(g, n)));
  }

  lemma {:induction false} SizeIsSize(version: nat)
    requires 1 <= version
    ensures IsSize(SizeOf(version))
  {}

  lemma {:induction false} UnsetIsFree(g: Grid, n: nat)
    requires IsSize(n) && IsGrid(g, n)
    ensures Prior(g, n, Finish(n)) == |Free(g, n)|
  {
    hide PlaceOf;
    PriorCountsUnset(g, n, Finish(n));
    assert Unset(g, n, Finish(n)) == Free(g, n);
  }

  lemma {:induction false} RestIsFree(g: Grid, version: nat)
    requires 1 <= version <= 40 && IsPrepared(g, version)
    ensures Region(0, SizeOf(version), 0, SizeOf(version)).Cells() - Cover(Regions(version)) <= AsCells(Free(g, SizeOf(version)))
  {
    hide Cover, Regions, IsFunction;
    var n := SizeOf(version);
    forall i, j | 0 <= i < n && 0 <= j < n && (i, j) !in Cover(Regions(version)) ensures (i, j) in AsCells(Free(g, n)) {
      if IsFunction(version, i, j) {
        FunctionsCovered(version, i, j);
      }
      ColumnSix(version, i);
      var p: (nat, nat) := (i, j);
      assert p in Free(g, n);
    }
  }

  lemma {:induction false} Sizes(a: set<(int, int)>, b: set<(int, int)>)
    ensures |a - b| >= |a| - |b|
  {
    assert a <= (a - b) + b;
    Subset(a, (a - b) + b);
  }

  lemma {:induction false} Subset(a: set<(int, int)>, b: set<(int, int)>)
    requires a <= b
    ensures |a| <= |b|
  {
    assert b == a + (b - a);
  }
}
