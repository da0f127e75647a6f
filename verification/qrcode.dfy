/**
 The version search, the data and the module grid of a symbol (class QRCode, qml/utilities/qrcode/main.py).
 */
module QRCodes {
  import opened GF256
  import opened Wrappers
  import opened Polynomials
  import BitBuffers
  import opened Segments
  import opened Chunks
  import opened ErrorCorrection
  import opened RSBlocks
  import opened CreateData
  import opened Versions
  import DataModules
  import FormatInfo
  import Penalty
  import Placement

  // ---- what best_fit looks for ---------------------------------------------------------------

  /** The segments fit the version, with the count fields of that version. */
  ghost predicate Fits(list: seq<QRData>, version: nat, level: Level)
    requires ValidList(list) && 1 <= version <= 40
  {
    |StreamBits(list, version)| <= BitLimit(version, level)
  }

  ghost predicate NoneFits(list: seq<QRData>, from: nat, to: nat, level: Level)
    requires ValidList(list)
  {
    forall v :: 1 <= from <= v < to && v <= 40 ==> !Fits(list, v, level)
  }

  ghost predicate IsLeastFit(list: seq<QRData>, start: nat, v: nat, level: Level)
    requires ValidList(list)
  {
    1 <= start <= v <= 40 && Fits(list, v, level) && NoneFits(list, start, v, level)
  }

  /** 0, 1 and 2 for the three tables of count widths. */
  function WidthClass(version: nat): nat {
    if version < 10 then 0 else if version < 27 then 1 else 2
  }

  lemma {:induction false} WidthsGrow(mode: Mode, v: nat, w: nat)
    requires v <= w
    ensures CountWidth(mode, v) <= CountWidth(mode, w)
    ensures WidthClass(v) == WidthClass(w) ==> CountWidth(mode, v) == CountWidth(mode, w)
  {}

  /** Later versions need at least as many bits, and the same number within a width class. */
  lemma {:induction false} StreamGrowsWithVersion(list: seq<QRData>, v: nat, w: nat)
    requires ValidList(list) && v <= w
    ensures |StreamBits(list, v)| <= |StreamBits(list, w)|
    ensures WidthClass(v) == WidthClass(w) ==> |StreamBits(list, v)| == |StreamBits(list, w)|
  {
    hide CountWidth, WidthClass, QRData.Valid;
    if list != [] {
      WidthsGrow(list[0].mode, v, w);
      StreamGrowsWithVersion(list[1..], v, w);
    }
  }

  /** bisect_left over the limits of a level, from start on: 41 when every limit is too small. */
  function Bisect(needed: nat, start: nat, level: Level): (v: nat)
    requires start <= 41
    ensures start <= v <= 41
    ensures v <= 40 ==> needed <= BitLimit(v, level)
    ensures forall u :: start <= u < v ==> BitLimit(u, level) < needed
    decreases 41 - start
  {
    if start == 41 || needed <= BitLimit(start, level) then start else Bisect(needed, start + 1, level)
  }

  /** Versions below the bisection's answer are too small with their own widths too. */
  lemma {:induction false} SkippedVersions(list: seq<QRData>, start: nat, v: nat, level: Level)
    requires ValidList(list) && 1 <= start <= v <= 41
    requires forall u :: start <= u < v ==> BitLimit(u, level) < |StreamBits(list, start)|
    ensures NoneFits(list, start, v, level)
  {
    hide StreamBits, BitLimit;
    forall u | 1 <= start <= u < v && u <= 40 ensures !Fits(list, u, level) {
      StreamGrowsWithVersion(list, start, u);
    }
  }

  /** Asking again from the answer gives the answer. */
  lemma {:induction false} LeastFitAgain(list: seq<QRData>, start: nat, v: nat, w: nat, level: Level)
    requires ValidList(list) && IsLeastFit(list, start, v, level)
    ensures IsLeastFit(list, v, w, level) <==> w == v
    ensures IsLeastFit(list, start, w, level) <==> w == v
  {
    hide Fits;
  }

  // ---- what a finished symbol is -------------------------------------------------------------

  /** ERROR_CORRECT_L, _M, _Q and _H. */
  function LevelCode(level: Level): (code: nat)
    ensures code < 4
  {
    match level
    case L => 1
    case M => 0
    case Q => 3
    case H => 2
  }

  /** The level that a scanner makes of the two level bits. */
  function ScannedLevel(code: nat): Level
    requires code < 4
  {
    if code == 0 then M else if code == 1 then L else if code == 2 then H else Q
  }

  /** The grid that map_data leaves on a prepared grid: the codewords in the data modules, masked. */
  ghost predicate IsFilled(now: Placement.Grid, version: nat, codewords: Poly, mask: nat)
    requires 1 <= version <= 40 && mask < 8
  {
    var n := SizeOf(version);
    && Placement.IsSize(n)
    && exists blank :: Placement.IsPrepared(blank, version) && Placement.FilledTo(now, blank, n, codewords, mask, Placement.Finish(n))
  }

  /** Both copies of the format information are those of the level and the mask; all light in a test symbol. */
  ghost predicate ShowsFormat(now: Placement.Grid, version: nat, level: Level, mask: nat, test: bool)
    requires 1 <= version <= 40 && mask < 8 && Placement.IsGrid(now, SizeOf(version))
  {
    exists bits :: FormatInfo.IsTypeInfo(bits, FormatInfo.TypeData(LevelCode(level), mask)) && Placement.ShowsInfo(now, SizeOf(version), test, bits)
  }

  /** Both copies of the version information, from version 7 on. */
  ghost predicate ShowsVersion(now: Placement.Grid, version: nat, test: bool)
    requires 1 <= version <= 40 && Placement.IsGrid(now, SizeOf(version))
  {
    version >= 7 ==> exists bits :: FormatInfo.IsTypeNumber(bits, version as bv32) && Placement.ShowsNumber(now, SizeOf(version), test, bits)
  }

  /** A finished symbol: every pattern in its colours, the format and version information, and the codewords. */
  ghost predicate IsSymbol(now: Placement.Grid, version: nat, level: Level, codewords: Poly, mask: nat, test: bool)
    requires 1 <= version <= 40 && mask < 8
  {
    && Placement.IsGrid(now, SizeOf(version)) && IsFilled(now, version, codewords, mask)
    && Placement.ShowsPatterns(now, version) && ShowsFormat(now, version, level, mask, test) && ShowsVersion(now, version, test)
  }

  /** The codewords that a scanner finds: the data modules in path order, with the mask undone, in bytes. */
  ghost predicate IsScanned(scanned: Poly, now: Placement.Grid, version: nat, level: Level, mask: nat)
    requires 1 <= version <= 40 && mask < 8
  {
    var n := SizeOf(version);
    && Placement.IsSize(n) && Placement.IsGrid(now, n)
    && |scanned| == SumOfTotals(BlockList(version, level))
    && BitBuffers.ByteBits(scanned) <= Placement.Read(now, Placement.Template(version), n, mask, Placement.Finish(n))
  }

  /** The text that a scanner makes of the codewords. */
  function ReadText(codewords: Poly, version: nat, level: Level): Option<seq<byte>>
    requires 1 <= version <= 40
  {
    var list := ReadCodewords(codewords, version, level);
    if list.None? then None else Some(Text(list.value))
  }

  /** A scanner that takes level and mask from a copy of the format information reads the data as this text. */
  ghost predicate ReadsAs(now: Placement.Grid, version: nat, bit: nat -> bool, data: seq<byte>)
    requires 1 <= version <= 40
  {
    var level, mask := ScannedLevel(FormatInfo.ScannedCode(bit)), FormatInfo.ScannedMask(bit);
    && (exists scanned :: IsScanned(scanned, now, version, level, mask))
    && (forall scanned :: IsScanned(scanned, now, version, level, mask) ==> ReadText(scanned, version, level) == Some(data))
  }

  /** From the module grid back to the codewords: every version has room for them, so they are all there. */
  lemma {:induction false} ScanReadsCodewords(now: Placement.Grid, mask: nat, codewords: Poly, scanned: Poly, version: nat, level: Level)
    requires 1 <= version <= 40 && mask < 8 && IsFilled(now, version, codewords, mask)
    requires |codewords| == SumOfTotals(BlockList(version, level))
    ensures IsScanned(scanned, now, version, level, mask) <==> scanned == codewords
  {
    hide Placement.Prior, Placement.Read, Placement.Expected, BitBuffers.ByteBits, Placement.IsFunction, BlockList, SumOfTotals, Capacity;
    hide Placement.Template;
    var n := SizeOf(version);
    var blank :| Placement.IsPrepared(blank, version) && Placement.FilledTo(now, blank, n, codewords, mask, Placement.Finish(n));
    BlockListTotals(version, level);
    DataModules.RoomForCodewords(blank, version);
    Placement.MappedMeaning(now, blank, n, codewords, mask);
    Placement.ReadSame(now, blank, Placement.Template(version), n, mask, Placement.Finish(n));
    var bits := Placement.Read(now, blank, n, mask, Placement.Finish(n));
    if IsScanned(scanned, now, version, level, mask) {
      assert bits[..|BitBuffers.ByteBits(scanned)|] == BitBuffers.ByteBits(scanned);
      SameBytes(scanned, codewords);
    } else {
      assert bits[..8 * |codewords|] <= bits;
    }
  }

  /** The level and the mask that a scanner takes from either copy are those of the symbol. */
  lemma {:induction false} ScanReadsFormat(now: Placement.Grid, version: nat, level: Level, mask: nat)
    requires 1 <= version <= 40 && mask < 8 && Placement.IsGrid(now, SizeOf(version)) && ShowsFormat(now, version, level, mask, false)
    ensures var bit := Placement.FirstCopy(now, SizeOf(version));
      ScannedLevel(FormatInfo.ScannedCode(bit)) == level && FormatInfo.ScannedMask(bit) == mask
    ensures var bit := Placement.SecondCopy(now, SizeOf(version));
      ScannedLevel(FormatInfo.ScannedCode(bit)) == level && FormatInfo.ScannedMask(bit) == mask
  {
    hide FormatInfo.IsTypeInfo, FormatInfo.Bit, FormatInfo.ScannedCode, FormatInfo.ScannedMask, FormatInfo.TypeData, Placement.ShowsInfo;
    hide Placement.FirstCopy, Placement.SecondCopy;
    var n, code := SizeOf(version), LevelCode(level);
    var bits :| FormatInfo.IsTypeInfo(bits, FormatInfo.TypeData(code, mask)) && Placement.ShowsInfo(now, n, false, bits);
    Placement.CopiesShow(now, n, bits);
    FormatInfo.ScansTypeInfo(bits, code, mask, Placement.FirstCopy(now, n));
    FormatInfo.ScansTypeInfo(bits, code, mask, Placement.SecondCopy(now, n));
  }

  /** A row of the grid in two colours, and the grid. */
  function Colours(g: Placement.Grid, n: nat): (m: Penalty.Matrix)
    requires Placement.IsGrid(g, n)
    ensures |m| == n && forall r :: 0 <= r < n ==> |m[r]| == n
    ensures forall r, c :: 0 <= r < n && 0 <= c < n ==> (m[r][c] <==> Placement.Shows(g, n, r, c, true))
  {
    seq(n, r requires 0 <= r < n => seq(n, c requires 0 <= c < n => g[r][c] == Some(true)))
  }

  /** Pattern i has the first least score among the eight test symbols. */
  ghost predicate IsBestMask(grids: seq<Placement.Grid>, n: nat, level4: Penalty.Matrix -> nat, best: nat)
  {
    && best < |grids| && (forall i :: 0 <= i < |grids| ==> Placement.IsGrid(grids[i], n))
    && (forall i :: 0 <= i < |grids| ==> LostPoints(grids[best], n, level4) <= LostPoints(grids[i], n, level4))
    && (forall i :: 0 <= i < best ==> LostPoints(grids[best], n, level4) < LostPoints(grids[i], n, level4))
  }

  ghost function LostPoints(g: Placement.Grid, n: nat, level4: Penalty.Matrix -> nat): nat
    requires Placement.IsGrid(g, n)
  {
    Penalty.Score(Colours(g, n), level4)
  }

  // ---- the class -----------------------------------------------------------------------------

  datatype Made = Made | VersionError | Overflow | DivisionFails

  class QRCode {
    var version: Option<nat>
    const level: Level
    var dataList: seq<QRData>
    var dataCache: Option<Poly>
    var modules: Placement.Grid
    const maskPattern: Option<nat>
    /** _lost_point_level4. */
    const level4: Penalty.Matrix -> nat
    /** The version that the cached codewords were made for. */
    ghost var cachedFor: Option<nat>

    ghost predicate Valid()
      reads this
    {
      && ValidList(dataList)
      && (version.Some? ==> 1 <= version.value <= 40)
      && (maskPattern.Some? ==> maskPattern.value < 8)
      && CacheReads()
    }

    /** The cached codewords are complete, and a scanner reads them as the data that was added, for their own version. */
    ghost predicate CacheReads()
      reads this
      requires ValidList(dataList)
    {
      && cachedFor.Some? == dataCache.Some?
      && (dataCache.Some? ==>
        && 1 <= cachedFor.value <= 40 && Fits(dataList, cachedFor.value, level)
        && |dataCache.value| == SumOfTotals(BlockList(cachedFor.value, level))
        && ReadCodewords(dataCache.value, cachedFor.value, level) == Some(dataList))
    }

    constructor (level: Level, maskPattern: Option<nat>, level4: Penalty.Matrix -> nat)
      requires maskPattern.Some? ==> maskPattern.value < 8
      ensures Valid() && this.level == level && this.maskPattern == maskPattern && Text(dataList) == [] && version == None
      ensures dataCache == None
    {
      version, this.level, dataList, dataCache, modules := None, level, [], None, [];
      this.maskPattern, this.level4 := maskPattern, level4;
      cachedFor := None;
    }

    /** The version setter: ok stands for no ValueError.  The cached codewords stay. */
    method SetVersion(value: Option<int>) returns (ok: bool)
      requires Valid()
      modifies `version
      ensures Valid() && ok == (value.Some? ==> 1 <= value.value <= 40)
      ensures !ok ==> version == old(version)
      ensures ok ==> version.Some? == value.Some? && (value.Some? ==> version.value == value.value)
    {
      ok := value.None? || 1 <= value.value <= 40;
      if ok {
        version := if value.Some? then Some(value.value) else None;
      }
    }

    /** add_data; optimize is 20 unless the caller says otherwise, 0 for a single segment. */
    method AddData(data: seq<byte>, optimize: nat)
      requires Valid()
      modifies `dataList, `dataCache, `cachedFor
      ensures Valid() && dataCache == None
      ensures Text(dataList) == old(Text(dataList)) + data
      ensures old(dataList) <= dataList
      ensures optimize == 0 ==> dataList == old(dataList) + [QRData(OptimalMode(data), data)]
      ensures optimize > 0 ==> Chunked(dataList[|old(dataList)|..], optimize, |data| > optimize)
      ensures 0 < |data| <= optimize ==> dataList == old(dataList) + ShortChunks(data)
    {
      hide Text, QRData.Valid, IsOptimalChunk, ShortChunks;
      var more;
      if optimize != 0 {
        more := OptimalDataChunks(data, optimize);
        TextAppend(dataList, more);
      } else {
        more := [QRData(OptimalMode(data), data)];
        AppendChunk(dataList, more[0]);
      }
      dataList := dataList + more;
      dataCache, cachedFor := None, None;
      assert dataList[|old(dataList)|..] == more;
    }

    /** add_data with a segment that the caller has made. */
    method AddSegment(data: QRData)
      requires Valid() && data.Valid()
      modifies `dataList, `dataCache, `cachedFor
      ensures Valid() && dataCache == None
      ensures dataList == old(dataList) + [data] && Text(dataList) == old(Text(dataList)) + data.data
    {
      hide Text;
      AppendChunk(dataList, data);
      dataList := dataList + [data];
      dataCache, cachedFor := None, None;
    }

    /**
     best_fit: the least version that fits, or None for the ValueError of the version setter; a failed
     search may leave a version that an inner step tried.
     */
    method BestFit(start: Option<int>) returns (r: Option<nat>)
      requires Valid()
      modifies `version
      ensures Valid()
      ensures var s := if start.Some? then start.value else 1;
        match r
        case Some(v) => 1 <= s && version == r && IsLeastFit(dataList, s, v, level)
        case None => s < 1 || s > 40 || NoneFits(dataList, s, 41, level)
      decreases 2 - WidthClass(if start.Some? && start.value > 0 then start.value else 0)
    {
      hide StreamBits, BitLimit, QRData.Valid;
      var s := if start.Some? then start.value else 1;
      if s < 1 || s > 40 {
        return None;
      }
      var needed := NeededBits(dataList, s);
      var found := Bisect(needed, s, level);
      SkippedVersions(dataList, s, found, level);
      var ok := SetVersion(Some(found));
      if !ok {
        return None;
      }
      if version == Some(41) {
        assert false;
      }
      if WidthClass(s) != WidthClass(found) {
        r := BestFit(Some(found));
        if r.Some? {
          NoneFitsJoin(dataList, s, found, r.value, level);
        } else {
          NoneFitsJoin(dataList, s, found, 41, level);
        }
      } else {
        StreamGrowsWithVersion(dataList, s, found);
        r := version;
      }
    }

    /** The version getter. */
    method GetVersion() returns (r: Option<nat>)
      requires Valid()
      modifies `version
      ensures Valid()
      ensures match r
        case Some(v) => version == r && (old(version) == r || (old(version) == None && IsLeastFit(dataList, 1, v, level)))
        case None => old(version) == None && NoneFits(dataList, 1, 41, level)
    {
      r := version;
      if r.None? {
        r := BestFit(None);
      }
    }

    /** The version step of make: the search starts at the version that is set, or at 1. */
    method FitVersion(fit: bool) returns (ok: bool)
      requires Valid()
      modifies `version
      ensures Valid() && (ok ==> version.Some?)
      ensures ok && !fit && old(version).Some? ==> version == old(version)
      ensures ok && (fit || old(version).None?) ==>
        IsLeastFit(dataList, if old(version).Some? then old(version).value else 1, version.value, level)
      ensures !ok ==>
        && (fit || old(version).None?)
        && NoneFits(dataList, if old(version).Some? then old(version).value else 1, 41, level)
    {
      hide Fits, QRData.Valid;
      var v := GetVersion();
      if v.None? {
        return false;
      }
      ok := true;
      if fit {
        var again := BestFit(Some(v.value));
        ok := again.Some?;
        if old(version).None? {
          FoundFits(dataList, 1, v.value, level);
          if again.Some? {
            LeastFitAgain(dataList, 1, v.value, again.value, level);
          }
        }
      }
    }

    /** The codewords of makeImpl: computed once and cached. */
    method MakeCodewords() returns (r: Made)
      requires Valid() && version.Some?
      modifies `dataCache, `cachedFor
      ensures Valid() && !r.VersionError?
      ensures r.Made? <==> dataCache.Some?
      ensures old(dataCache).Some? ==> dataCache == old(dataCache) && cachedFor == old(cachedFor)
      ensures old(dataCache).None? && r.Made? ==> cachedFor == version
      ensures r.Overflow? <==> old(dataCache).None? && !Fits(dataList, version.value, level)
      ensures r.DivisionFails? <==> old(dataCache).None? && HasZeroStretch(dataList, version.value, level)
    {
      hide StreamBits, BitLimit, QRData.Valid, PaddedBits, HasZeroBlock, BlockList, ReadCodewords, Packs, Encodes, SumOfTotals;
      if dataCache.None? {
        var made, packed := CreateData.CreateData(version.value, level, dataList);
        if made.DataOverflow? {
          return Made.Overflow;
        } else if made.DivisionFails? {
          return Made.DivisionFails;
        }
        CodewordsRoundTrip(version.value, level, dataList, packed, made.codewords);
        CodewordCount(made.codewords, packed, BlockList(version.value, level));
        OnePacking(dataList, version.value, level, packed);
        dataCache, cachedFor := Some(made.codewords), version;
      }
      r := Made;
    }

    /** The first half of makeImpl: everything but the data. */
    method Prepare(test: bool, mask: nat) returns (symbol: Placement.Symbol, info: bv32, number: bv32)
      requires Valid() && version.Some? && mask < 8
      ensures fresh(symbol) && symbol.Valid() && symbol.modulesCount == SizeOf(version.value)
      ensures IsReady(symbol.modules, version.value, level, mask, test, info, number)
    {
      hide QRData.Valid, CacheReads, Placement.IsBlank, Placement.ShowsPatterns, Placement.ShowsInfo, Placement.ShowsNumber;
      hide FormatInfo.IsTypeInfo, FormatInfo.IsTypeNumber, FormatInfo.TypeData, FormatInfo.Bit;
      symbol := new Placement.Symbol(version.value);
      symbol.SetupBlank(version.value);
      ghost var plain := symbol.modules;
      FormatInfo.TypeDataFits(LevelCode(level), mask);
      number := 0;
      info := FormatInfo.BchTypeInfo(FormatInfo.TypeData(LevelCode(level), mask));
      symbol.SetupTypeInfo(test, info);
      Placement.PatternsStay(symbol.modules, plain, version.value);
      Placement.InfoShown(symbol.modules, SizeOf(version.value), test, info);
      if version.value >= 7 {
        plain := symbol.modules;
        FormatInfo.VersionFits(version.value);
        number := FormatInfo.BchTypeNumber(version.value as bv32);
        symbol.SetupTypeNumber(test, number);
        Placement.PatternsStay(symbol.modules, plain, version.value);
        Placement.InfoStays(symbol.modules, plain, SizeOf(version.value), test, info);
        Placement.NumberShown(symbol.modules, SizeOf(version.value), test, number);
      }
    }

    /** makeImpl. */
    method MakeImpl(test: bool, mask: nat) returns (r: Made)
      requires Valid() && version.Some? && mask < 8
      modifies `modules, `dataCache, `cachedFor
      ensures Valid() && !r.VersionError?
      ensures r.Made? <==> dataCache.Some?
      ensures old(dataCache).Some? ==> dataCache == old(dataCache) && cachedFor == old(cachedFor)
      ensures old(dataCache).None? && r.Made? ==> cachedFor == version
      ensures r.Overflow? <==> old(dataCache).None? && !Fits(dataList, version.value, level)
      ensures r.DivisionFails? <==> old(dataCache).None? && HasZeroStretch(dataList, version.value, level)
      ensures r.Made? ==> IsSymbol(modules, version.value, level, dataCache.value, mask, test)
      ensures !r.Made? ==> exists info, number :: IsReady(modules, version.value, level, mask, test, info, number)
    {
      hide Fits, QRData.Valid, ReadCodewords, HasZeroStretch, BlockList, SumOfTotals, IsSymbol, IsReady, Placement.FilledTo;
      var symbol, info, number := Prepare(test, mask);
      ghost var plain := symbol.modules;
      modules := symbol.modules;
      r := MakeCodewords();
      assert IsReady(modules, version.value, level, mask, test, info, number);
      if !r.Made? {
        return;
      }
      symbol.MapData(dataCache.value, mask);
      modules := symbol.modules;
      SymbolMade(modules, plain, version.value, level, dataCache.value, mask, test, info, number);
    }

    /** best_mask_pattern: grids are the test symbols of the eight patterns. */
    method BestMaskPattern() returns (r: Made, pattern: nat, ghost grids: seq<Placement.Grid>)
      requires Valid() && version.Some?
      modifies `modules, `dataCache, `cachedFor
      ensures Valid() && !r.VersionError?
      ensures r.Made? <==> dataCache.Some?
      ensures old(dataCache).Some? ==> dataCache == old(dataCache) && cachedFor == old(cachedFor)
      ensures old(dataCache).None? && r.Made? ==> cachedFor == version
      ensures r.Overflow? <==> old(dataCache).None? && !Fits(dataList, version.value, level)
      ensures r.DivisionFails? <==> old(dataCache).None? && HasZeroStretch(dataList, version.value, level)
      ensures r.Made? ==> pattern < 8 && |grids| == 8 && AreTestSymbols(grids, version.value, level, dataCache.value)
      ensures r.Made? ==> IsBestMask(grids, SizeOf(version.value), level4, pattern)
    {
      hide Fits, QRData.Valid, ReadCodewords, HasZeroStretch, BlockList, SumOfTotals, IsSymbol, IsTestSymbol;
      hide LostPoints, AreTestSymbols, IsBestMask, BestPoints, Penalty.IsSquare;
      var minLostPoint := 0;
      pattern, grids := 0, [];
      var n := SizeOf(version.value);
      for i := 0 to 8
        invariant Valid() && |grids| == i && pattern < 8
        invariant i > 0 ==> dataCache.Some? && AreTestSymbols(grids, version.value, level, dataCache.value)
        invariant i == 0 ==> dataCache == old(dataCache) && cachedFor == old(cachedFor)
        invariant old(dataCache).Some? ==> dataCache == old(dataCache) && cachedFor == old(cachedFor)
        invariant old(dataCache).None? && i > 0 ==> cachedFor == version
        invariant old(dataCache).None? && i > 0 ==> Fits(dataList, version.value, level) && !HasZeroStretch(dataList, version.value, level)
        invariant i > 0 ==> IsBestMask(grids, n, level4, pattern) && minLostPoint == BestPoints(grids, n, level4, pattern)
      {
        r := MakeImpl(true, i);
        if !r.Made? {
          return;
        }
        SymbolIsGrid(modules, version.value, level, dataCache.value, i);
        var lostPoint := Penalty.LostPoint(Colours(modules, n), level4);
        ScoreOfGrid(modules, n, level4);
        OneMoreTest(grids, modules, version.value, level, dataCache.value);
        OneMoreScore(grids, modules, n, level4, pattern);
        grids := grids + [modules];
        if i == 0 || minLostPoint > lostPoint {
          minLostPoint := lostPoint;
          pattern := i;
        }
      }
      r := Made;
    }

    /**
     make.  With `fit` the symbol has the least version, from the one that was set on, that the data fits in, and
     the data never overflows it.  The symbol holds the cached codewords; they are those of its version exactly if
     they were made for it, that is, if nothing was cached or the version is still the one of the cache.
     */
    method Make(fit: bool) returns (r: Made, ghost mask: nat, ghost grids: seq<Placement.Grid>)
      requires Valid()
      modifies `version, `modules, `dataCache, `cachedFor
      ensures Valid()
      ensures var s := if old(version).Some? then old(version).value else 1;
        && (r.VersionError? <==> (fit || old(version).None?) && NoneFits(dataList, s, 41, level))
        && (r.Overflow? <==> !fit && old(version).Some? && old(dataCache).None? && !Fits(dataList, s, level))
        && (!r.VersionError? && (fit || old(version).None?) ==> version.Some? && IsLeastFit(dataList, s, version.value, level))
        && (!r.VersionError? && !fit && old(version).Some? ==> version == old(version))
      ensures !r.VersionError? ==>
        (r.DivisionFails? <==> old(dataCache).None? && HasZeroStretch(dataList, version.value, level))
      ensures r.Made? ==> version.Some? && dataCache.Some? && mask < 8
      ensures r.Made? ==> IsSymbol(modules, version.value, level, dataCache.value, mask, false)
      ensures r.Made? && maskPattern.Some? ==> mask == maskPattern.value
      ensures r.Made? && maskPattern.None? ==> |grids| == 8 && AreTestSymbols(grids, version.value, level, dataCache.value)
      ensures r.Made? && maskPattern.None? ==> IsBestMask(grids, SizeOf(version.value), level4, mask)
      ensures old(dataCache).Some? ==> dataCache == old(dataCache) && cachedFor == old(cachedFor)
      ensures r.Made? && old(dataCache).None? ==> cachedFor == version
      ensures r.Made? ==> (|dataCache.value| == SumOfTotals(BlockList(version.value, level)) <==> cachedFor == version)
      ensures r.Made? && cachedFor == version ==>
        forall scanned :: IsScanned(scanned, modules, version.value, level, mask) <==> scanned == dataCache.value
    {
      hide Fits, QRData.Valid, ReadCodewords, HasZeroStretch, BlockList, SumOfTotals, IsBestMask, AreTestSymbols, IsScanned;
      hide IsFilled, ShowsFormat, ShowsVersion, Placement.ShowsPatterns;
      mask, grids := 0, [];
      var ok := FitVersion(fit);
      if !ok {
        return VersionError, mask, grids;
      }
      var pattern;
      if maskPattern.Some? {
        pattern := maskPattern.value;
      } else {
        r, pattern, grids := BestMaskPattern();
        if !r.Made? {
          return;
        }
      }
      mask := pattern;
      r := MakeImpl(false, pattern);
      if r.Made? {
        OwnVersionOnly(cachedFor.value, version.value, level);
        if cachedFor == version {
          forall scanned ensures IsScanned(scanned, modules, version.value, level, mask) <==> scanned == dataCache.value {
            ScanReadsCodewords(modules, mask, dataCache.value, scanned, version.value, level);
          }
        }
      }
    }
  }

  /** The grid before the data is placed. */
  ghost predicate IsReady(g: Placement.Grid, version: nat, level: Level, mask: nat, test: bool, info: bv32, number: bv32)
    requires 1 <= version <= 40 && mask < 8
  {
    && Placement.IsPrepared(g, version)
    && Placement.ShowsPatterns(g, version) && Placement.ShowsInfo(g, SizeOf(version), test, info)
    && FormatInfo.IsTypeInfo(info, FormatInfo.TypeData(LevelCode(level), mask))
    && (version >= 7 ==> FormatInfo.IsTypeNumber(number, version as bv32) && Placement.ShowsNumber(g, SizeOf(version), test, number))
  }

  /** What map_data makes of it. */
  lemma {:induction false} SymbolMade(now: Placement.Grid, g: Placement.Grid, version: nat, level: Level, codewords: Poly, mask: nat, test: bool,
                                      info: bv32, number: bv32)
    requires 1 <= version <= 40 && mask < 8 && Placement.IsSize(SizeOf(version)) && IsReady(g, version, level, mask, test, info, number)
    requires Placement.IsGrid(g, SizeOf(version))
    requires Placement.FilledTo(now, g, SizeOf(version), codewords, mask, Placement.Finish(SizeOf(version)))
    ensures IsSymbol(now, version, level, codewords, mask, test)
  {
    hide Placement.Expected, Placement.ShowsPatterns, Placement.ShowsInfo, Placement.ShowsNumber, Placement.IsFunction, Placement.Read;
    hide FormatInfo.IsTypeInfo, FormatInfo.IsTypeNumber, FormatInfo.TypeData;
    Placement.MappedMeaning(now, g, SizeOf(version), codewords, mask);
    Placement.ColoursStay(now, g, version, test, info, number);
  }

  ghost predicate IsTestSymbol(g: Placement.Grid, version: nat, level: Level, codewords: Poly, mask: nat)
    requires 1 <= version <= 40
  {
    mask < 8 && IsSymbol(g, version, level, codewords, mask, true)
  }

  /** The symbols that best_mask_pattern tries, one for each pattern. */
  ghost predicate AreTestSymbols(grids: seq<Placement.Grid>, version: nat, level: Level, codewords: Poly)
    requires 1 <= version <= 40
  {
    forall i :: 0 <= i < |grids| ==> IsTestSymbol(grids[i], version, level, codewords, i)
  }

  lemma {:induction false} OneMoreTest(grids: seq<Placement.Grid>, g: Placement.Grid, version: nat, level: Level, codewords: Poly)
    requires 1 <= version <= 40 && IsTestSymbol(g, version, level, codewords, |grids|)
    requires grids != [] ==> AreTestSymbols(grids, version, level, codewords)
    ensures AreTestSymbols(grids + [g], version, level, codewords)
  {
    hide IsTestSymbol;
  }

  ghost function BestPoints(grids: seq<Placement.Grid>, n: nat, level4: Penalty.Matrix -> nat, best: nat): nat
  {
    if best < |grids| && Placement.IsGrid(grids[best], n) then LostPoints(grids[best], n, level4) else 0
  }

  /** One more test symbol: it becomes the best if it is the first or has fewer points. */
  lemma {:induction false} OneMoreScore(grids: seq<Placement.Grid>, g: Placement.Grid, n: nat, level4: Penalty.Matrix -> nat, best: nat)
    requires Placement.IsGrid(g, n) && (grids != [] ==> IsBestMask(grids, n, level4, best))
    ensures var all := grids + [g];
      && (grids == [] || LostPoints(grids[best], n, level4) > LostPoints(g, n, level4) ==>
            IsBestMask(all, n, level4, |grids|) && BestPoints(all, n, level4, |grids|) == LostPoints(g, n, level4))
      && (grids != [] ==> BestPoints(grids, n, level4, best) == LostPoints(grids[best], n, level4))
      && (grids != [] && LostPoints(grids[best], n, level4) <= LostPoints(g, n, level4) ==>
            IsBestMask(all, n, level4, best) && BestPoints(all, n, level4, best) == LostPoints(grids[best], n, level4))
  {
    hide LostPoints, Placement.IsGrid;
    var all := grids + [g];
    assert forall i :: 0 <= i < |grids| ==> all[i] == grids[i];
    assert all[|grids|] == g;
  }

  lemma {:induction false} SymbolIsGrid(g: Placement.Grid, version: nat, level: Level, codewords: Poly, mask: nat)
    requires 1 <= version <= 40 && mask < 8 && IsSymbol(g, version, level, codewords, mask, true)
    ensures Placement.IsGrid(g, SizeOf(version)) && IsTestSymbol(g, version, level, codewords, mask)
    ensures Penalty.IsSquare(Colours(g, SizeOf(version)))
  {
    hide IsFilled, ShowsFormat, ShowsVersion, Placement.ShowsPatterns;
  }

  lemma {:induction false} ScoreOfGrid(g: Placement.Grid, n: nat, level4: Penalty.Matrix -> nat)
    requires Placement.IsGrid(g, n)
    ensures LostPoints(g, n, level4) == Penalty.Score(Colours(g, n), level4)
  {}

  /** Codewords that fill one version fill no other. */
  lemma {:induction false} OwnVersionOnly(v: nat, w: nat, level: Level)
    requires 1 <= v <= 40 && 1 <= w <= 40
    ensures SumOfTotals(BlockList(v, level)) == SumOfTotals(BlockList(w, level)) <==> v == w
  {
    hide BlockList, SumOfTotals, Capacity;
    BlockListTotals(v, level);
    BlockListTotals(w, level);
    if v < w {
      CapacityIncreases(v, w);
    } else if w < v {
      CapacityIncreases(w, v);
    }
  }

  /**
   A version set by hand after make: the symbol is made without complaint, but of the codewords of the old
   version, which do not fill it.
   */
  method VersionSetByHand(code: QRCode, w: nat)
    requires code.Valid() && code.dataCache.Some? && 1 <= w <= 40 && code.cachedFor != Some(w)
    modifies code
    ensures code.Valid() && code.version == Some(w) && code.dataCache == old(code.dataCache)
    ensures code.dataCache.Some? && |code.dataCache.value| != SumOfTotals(BlockList(w, code.level))
  {
    hide Fits, QRData.Valid, ReadCodewords, HasZeroStretch, BlockList, SumOfTotals, IsSymbol, IsBestMask, AreTestSymbols, IsScanned;
    var ok := code.SetVersion(Some(w));
    var r, mask, grids := code.Make(false);
  }

  /**
   The whole way: a text is added and a symbol made; a scanner that takes the level and the mask from either copy
   of the format information reads the data modules as the text, whatever version the symbol has.
   */
  method TextToSymbol(data: seq<byte>, optimize: nat, level: Level, maskPattern: Option<nat>, level4: Penalty.Matrix -> nat)
    returns (r: Made, version: nat, modules: Placement.Grid)
    requires maskPattern.Some? ==> maskPattern.value < 8
    ensures !r.Overflow?
    ensures r.Made? ==> 1 <= version <= 40 && Placement.IsGrid(modules, SizeOf(version))
    ensures r.Made? ==>
      && ReadsAs(modules, version, Placement.FirstCopy(modules, SizeOf(version)), data)
      && ReadsAs(modules, version, Placement.SecondCopy(modules, SizeOf(version)), data)
  {
    hide Fits, QRData.Valid, ReadCodewords, HasZeroStretch, BlockList, SumOfTotals, IsBestMask, AreTestSymbols, IsScanned, Text;
    hide IsFilled, ShowsFormat, ShowsVersion, Placement.ShowsPatterns, Placement.FirstCopy, Placement.SecondCopy;
    hide FormatInfo.ScannedCode, FormatInfo.ScannedMask, ScannedLevel;
    var code := new QRCode(level, maskPattern, level4);
    code.AddData(data, optimize);
    assert [] + data == data;
    version := 1;
    ghost var mask, grids;
    r, mask, grids := code.Make(true);
    modules := code.modules;
    if r.Made? {
      version := code.version.value;
      ghost var codewords := code.dataCache.value;
      assert IsScanned(codewords, modules, version, level, mask);
      ScanReadsFormat(modules, version, level, mask);
    }
  }

  lemma {:induction false} NoneFitsJoin(list: seq<QRData>, a: nat, b: nat, c: nat, level: Level)
    requires ValidList(list) && NoneFits(list, a, b, level) && NoneFits(list, b, c, level) && 1 <= a <= b
    ensures NoneFits(list, a, c, level)
  {
    hide Fits;
  }

  /** The length of the buffer with the count widths of a version. */
  method NeededBits(list: seq<QRData>, version: nat) returns (n: nat)
    requires ValidList(list)
    ensures n == |StreamBits(list, version)|
  {
    hide StreamBits;
    var buffer := new BitBuffers.BitBuffer();
    WriteSegments(version, list, buffer);
    n := buffer.length;
  }

  lemma {:induction false} FoundFits(list: seq<QRData>, start: nat, v: nat, level: Level)
    requires ValidList(list) && IsLeastFit(list, start, v, level)
    ensures !NoneFits(list, v, 41, level)
  {}

  /** The padded bit stream leaves some block without a set bit. */
  ghost predicate HasZeroStretch(list: seq<QRData>, version: nat, level: Level)
    requires ValidList(list) && 1 <= version <= 40
  {
    && Fits(list, version, level)
    && exists packed: Poly :: Packs(packed, PaddedBits(list, version, level)) && HasZeroBlock(packed, BlockList(version, level))
  }

  lemma {:induction false} CodewordCount(codewords: Poly, packed: Poly, blocks: seq<RSBlock>)
    requires Encodes(codewords, packed, blocks)
    ensures |codewords| == SumOfTotals(blocks)
  {
    TotalLength(blocks);
  }

  lemma {:induction false} SameBytes(a: Poly, b: Poly)
    requires BitBuffers.ByteBits(a) == BitBuffers.ByteBits(b)
    ensures a == b
  {
    hide BitBuffers.BitAt;
    assert |a| == |b|;
    forall i | 0 <= i < |a| ensures a[i] == b[i] {
      forall k | 0 <= k < 8 ensures BitBuffers.BitAt(a[i], k) == BitBuffers.BitAt(b[i], k) {
        ByteBitsAt(a, i, k);
        ByteBitsAt(b, i, k);
      }
      SameBits(a[i], b[i]);
    }
  }

  lemma {:induction false} SameBits(a: bv8, b: bv8)
    requires forall k :: 0 <= k < 8 ==> BitBuffers.BitAt(a, k) == BitBuffers.BitAt(b, k)
    ensures a == b
  {
    hide BitBuffers.BitAt;
    forall k | 0 <= k < 8 ensures (a & BitBuffers.Mask(k) == 0) == (b & BitBuffers.Mask(k) == 0) {
      BitBuffers.ByMask(a, k);
      BitBuffers.ByMask(b, k);
    }
    SameMasks(a, b);
  }

  lemma {:induction false} SameMasks(a: bv8, b: bv8)
    requires forall k :: 0 <= k < 8 ==> (a & BitBuffers.Mask(k) == 0) == (b & BitBuffers.Mask(k) == 0)
    ensures a == b
  {
    assert (a & BitBuffers.Mask(0) == 0) == (b & BitBuffers.Mask(0) == 0);
    assert (a & BitBuffers.Mask(1) == 0) == (b & BitBuffers.Mask(1) == 0);
    assert (a & BitBuffers.Mask(2) == 0) == (b & BitBuffers.Mask(2) == 0);
    assert (a & BitBuffers.Mask(3) == 0) == (b & BitBuffers.Mask(3) == 0);
    assert (a & BitBuffers.Mask(4) == 0) == (b & BitBuffers.Mask(4) == 0);
    assert (a & BitBuffers.Mask(5) == 0) == (b & BitBuffers.Mask(5) == 0);
    assert (a & BitBuffers.Mask(6) == 0) == (b & BitBuffers.Mask(6) == 0);
    assert (a & BitBuffers.Mask(7) == 0) == (b & BitBuffers.Mask(7) == 0);
  }

  /** The bytes of a bit string are determined by it. */
  lemma {:induction false} OnePacking(list: seq<QRData>, version: nat, level: Level, packed: Poly)
    requires ValidList(list) && 1 <= version <= 40 && Fits(list, version, level)
    requires Packs(packed, PaddedBits(list, version, level)) && !HasZeroBlock(packed, BlockList(version, level))
    ensures !HasZeroStretch(list, version, level)
  {
    hide StreamBits, BitLimit, PaddedBits, HasZeroBlock, BlockList, BitBuffers.ByteBits;
    forall p: Poly | Packs(p, PaddedBits(list, version, level)) ensures p == packed {
      SameBytes(p, packed);
    }
  }
}
