/**
 Block structure per version and error correction level (RS_BLOCK_TABLE, rs_blocks and
 BIT_LIMIT_TABLE; qml/utilities/qrcode/base.py:26-231 and 297-313, util.py:105-112).
 */
module RSBlocks {
  import opened Wrappers
  import opened Polynomials
  import opened GeneratorTable
  import opened Interleaving
  import opened ErrorCorrection
  import opened Versions

  /** The four levels, in the order in which a version's rows appear in the table. */
  datatype Level = L | M | Q | H

  /** n added up count times. */
  function Times(count: nat, n: nat): nat {
    if count == 0 then 0 else Times(count - 1, n) + n
  }

  lemma {:induction false} TimesIsProduct(count: nat, n: nat)
    ensures Times(count, n) == count * n
  {
    if count > 0 {
      TimesIsProduct(count - 1, n);
    }
  }

  /** A row of the table: one or two groups of equal blocks (an absent group has count 0), and their codewords together. */
  datatype BlockRow = BlockRow(count: nat, total: nat, data: nat, count2: nat, total2: nat, data2: nat,
                               codewords: nat, totals: nat)
  {
    predicate Consistent() {
      && codewords == Times(count, data) + Times(count2, data2)
      && totals == Times(count, total) + Times(count2, total2)
    }

    /** What the table promises about a row; `next` is the number of data codewords one version up. */
    predicate Good(version: nat, next: int) {
      && count > 0 && data > 0 && total > data && IsKey(total - data)
      && (count2 > 0 ==> data2 > 0 && total2 - data2 == total - data)
      && codewords <= (if version < 10 then 232 else if version < 27 then 1370 else 2956)
      && 0 < codewords < next
      && totals == Capacity(version)
    }
  }

  function One(count: nat, total: nat, data: nat): BlockRow {
    BlockRow(count, total, data, 0, 0, 0, count * data, count * total)
  }

  function Two(count: nat, total: nat, data: nat, count2: nat, total2: nat, data2: nat): BlockRow {
    BlockRow(count, total, data, count2, total2, data2, count * data + count2 * data2, count * total + count2 * total2)
  }

  lemma {:induction false} OneIsConsistent(count: nat, total: nat, data: nat)
    ensures One(count, total, data).Consistent()
  {
    TimesIsProduct(count, data);
    TimesIsProduct(count, total);
  }

  lemma {:induction false} TwoIsConsistent(count: nat, total: nat, data: nat, count2: nat, total2: nat, data2: nat)
    ensures Two(count, total, data, count2, total2, data2).Consistent()
  {
    TimesIsProduct(count, data);
    TimesIsProduct(count2, data2);
    TimesIsProduct(count, total);
    TimesIsProduct(count2, total2);
  }

  /** Ten consecutive versions of one level. */
  datatype Ten = Ten(a: BlockRow, b: BlockRow, c: BlockRow, d: BlockRow, e: BlockRow,
                     f: BlockRow, g: BlockRow, h: BlockRow, i: BlockRow, j: BlockRow)
  {
    function At(k: nat): BlockRow
      requires k < 10
    {
      if k == 0 then a else if k == 1 then b else if k == 2 then c else if k == 3 then d else if k == 4 then e
      else if k == 5 then f else if k == 6 then g else if k == 7 then h else if k == 8 then i else j
    }

    predicate Consistent() {
      && a.Consistent() && b.Consistent() && c.Consistent() && d.Consistent() && e.Consistent()
      && f.Consistent() && g.Consistent() && h.Consistent() && i.Consistent() && j.Consistent()
    }

    predicate Good(version: nat, next: int) {
      && a.Good(version, b.codewords) && b.Good(version + 1, c.codewords)
      && c.Good(version + 2, d.codewords) && d.Good(version + 3, e.codewords)
      && e.Good(version + 4, f.codewords) && f.Good(version + 5, g.codewords)
      && g.Good(version + 6, h.codewords) && h.Good(version + 7, i.codewords)
      && i.Good(version + 8, j.codewords) && j.Good(version + 9, next)
    }
  }

  function L0(): Ten {
    Ten(One(1, 26, 19), One(1, 44, 34),
        One(1, 70, 55), One(1, 100, 80),
        One(1, 134, 108), One(2, 86, 68),
        One(2, 98, 78), One(2, 121, 97),
        One(2, 146, 116), Two(2, 86, 68, 2, 87, 69))
  }

  function L1(): Ten {
    Ten(One(4, 101, 81), Two(2, 116, 92, 2, 117, 93),
        One(4, 133, 107), Two(3, 145, 115, 1, 146, 116),
        Two(5, 109, 87, 1, 110, 88), Two(5, 122, 98, 1, 123, 99),
        Two(1, 135, 107, 5, 136, 108), Two(5, 150, 120, 1, 151, 121),
        Two(3, 141, 113, 4, 142, 114), Two(3, 135, 107, 5, 136, 108))
  }

  function L2(): Ten {
    Ten(Two(4, 144, 116, 4, 145, 117), Two(2, 139, 111, 7, 140, 112),
        Two(4, 151, 121, 5, 152, 122), Two(6, 147, 117, 4, 148, 118),
        Two(8, 132, 106, 4, 133, 107), Two(10, 142, 114, 2, 143, 115),
        Two(8, 152, 122, 4, 153, 123), Two(3, 147, 117, 10, 148, 118),
        Two(7, 146, 116, 7, 147, 117), Two(5, 145, 115, 10, 146, 116))
  }

  function L3(): Ten {
    Ten(Two(13, 145, 115, 3, 146, 116), One(17, 145, 115),
        Two(17, 145, 115, 1, 146, 116), Two(13, 145, 115, 6, 146, 116),
        Two(12, 151, 121, 7, 152, 122), Two(6, 151, 121, 14, 152, 122),
        Two(17, 152, 122, 4, 153, 123), Two(4, 152, 122, 18, 153, 123),
        Two(20, 147, 117, 4, 148, 118), Two(19, 148, 118, 6, 149, 119))
  }

  function M0(): Ten {
    Ten(One(1, 26, 16), One(1, 44, 28),
        One(1, 70, 44), One(2, 50, 32),
        One(2, 67, 43), One(4, 43, 27),
        One(4, 49, 31), Two(2, 60, 38, 2, 61, 39),
        Two(3, 58, 36, 2, 59, 37), Two(4, 69, 43, 1, 70, 44))
  }

  function M1(): Ten {
    Ten(Two(1, 80, 50, 4, 81, 51), Two(6, 58, 36, 2, 59, 37),
        Two(8, 59, 37, 1, 60, 38), Two(4, 64, 40, 5, 65, 41),
        Two(5, 65, 41, 5, 66, 42), Two(7, 73, 45, 3, 74, 46),
        Two(10, 74, 46, 1, 75, 47), Two(9, 69, 43, 4, 70, 44),
        Two(3, 70, 44, 11, 71, 45), Two(3, 67, 41, 13, 68, 42))
  }

  function M2(): Ten {
    Ten(One(17, 68, 42), One(17, 74, 46),
        Two(4, 75, 47, 14, 76, 48), Two(6, 73, 45, 14, 74, 46),
        Two(8, 75, 47, 13, 76, 48), Two(19, 74, 46, 4, 75, 47),
        Two(22, 73, 45, 3, 74, 46), Two(3, 73, 45, 23, 74, 46),
        Two(21, 73, 45, 7, 74, 46), Two(19, 75, 47, 10, 76, 48))
  }

  function M3(): Ten {
    Ten(Two(2, 74, 46, 29, 75, 47), Two(10, 74, 46, 23, 75, 47),
        Two(14, 74, 46, 21, 75, 47), Two(14, 74, 46, 23, 75, 47),
        Two(12, 75, 47, 26, 76, 48), Two(6, 75, 47, 34, 76, 48),
        Two(29, 74, 46, 14, 75, 47), Two(13, 74, 46, 32, 75, 47),
        Two(40, 75, 47, 7, 76, 48), Two(18, 75, 47, 31, 76, 48))
  }

  function Q0(): Ten {
    Ten(One(1, 26, 13), One(1, 44, 22),
        One(2, 35, 17), One(2, 50, 24),
        Two(2, 33, 15, 2, 34, 16), One(4, 43, 19),
        Two(2, 32, 14, 4, 33, 15), Two(4, 40, 18, 2, 41, 19),
        Two(4, 36, 16, 4, 37, 17), Two(6, 43, 19, 2, 44, 20))
  }

  function Q1(): Ten {
    Ten(Two(4, 50, 22, 4, 51, 23), Two(4, 46, 20, 6, 47, 21),
        Two(8, 44, 20, 4, 45, 21), Two(11, 36, 16, 5, 37, 17),
        Two(5, 54, 24, 7, 55, 25), Two(15, 43, 19, 2, 44, 20),
        Two(1, 50, 22, 15, 51, 23), Two(17, 50, 22, 1, 51, 23),
        Two(17, 47, 21, 4, 48, 22), Two(15, 54, 24, 5, 55, 25))
  }

  function Q2(): Ten {
    Ten(Two(17, 50, 22, 6, 51, 23), Two(7, 54, 24, 16, 55, 25),
        Two(11, 54, 24, 14, 55, 25), Two(11, 54, 24, 16, 55, 25),
        Two(7, 54, 24, 22, 55, 25), Two(28, 50, 22, 6, 51, 23),
        Two(8, 53, 23, 26, 54, 24), Two(4, 54, 24, 31, 55, 25),
        Two(1, 53, 23, 37, 54, 24), Two(15, 54, 24, 25, 55, 25))
  }

  function Q3(): Ten {
    Ten(Two(42, 54, 24, 1, 55, 25), Two(10, 54, 24, 35, 55, 25),
        Two(29, 54, 24, 19, 55, 25), Two(44, 54, 24, 7, 55, 25),
        Two(39, 54, 24, 14, 55, 25), Two(46, 54, 24, 10, 55, 25),
        Two(49, 54, 24, 10, 55, 25), Two(48, 54, 24, 14, 55, 25),
        Two(43, 54, 24, 22, 55, 25), Two(34, 54, 24, 34, 55, 25))
  }

  function H0(): Ten {
    Ten(One(1, 26, 9), One(1, 44, 16),
        One(2, 35, 13), One(4, 25, 9),
        Two(2, 33, 11, 2, 34, 12), One(4, 43, 15),
        Two(4, 39, 13, 1, 40, 14), Two(4, 40, 14, 2, 41, 15),
        Two(4, 36, 12, 4, 37, 13), Two(6, 43, 15, 2, 44, 16))
  }

  function H1(): Ten {
    Ten(Two(3, 36, 12, 8, 37, 13), Two(7, 42, 14, 4, 43, 15),
        Two(12, 33, 11, 4, 34, 12), Two(11, 36, 12, 5, 37, 13),
        Two(11, 36, 12, 7, 37, 13), Two(3, 45, 15, 13, 46, 16),
        Two(2, 42, 14, 17, 43, 15), Two(2, 42, 14, 19, 43, 15),
        Two(9, 39, 13, 16, 40, 14), Two(15, 43, 15, 10, 44, 16))
  }

  function H2(): Ten {
    Ten(Two(19, 46, 16, 6, 47, 17), One(34, 37, 13),
        Two(16, 45, 15, 14, 46, 16), Two(30, 46, 16, 2, 47, 17),
        Two(22, 45, 15, 13, 46, 16), Two(33, 46, 16, 4, 47, 17),
        Two(12, 45, 15, 28, 46, 16), Two(11, 45, 15, 31, 46, 16),
        Two(19, 45, 15, 26, 46, 16), Two(23, 45, 15, 25, 46, 16))
  }

  function H3(): Ten {
    Ten(Two(23, 45, 15, 28, 46, 16), Two(19, 45, 15, 35, 46, 16),
        Two(11, 45, 15, 46, 46, 16), Two(59, 46, 16, 1, 47, 17),
        Two(22, 45, 15, 41, 46, 16), Two(2, 45, 15, 64, 46, 16),
        Two(24, 45, 15, 46, 46, 16), Two(42, 45, 15, 32, 46, 16),
        Two(10, 45, 15, 67, 46, 16), Two(20, 45, 15, 61, 46, 16))
  }

  function Decade(level: Level, t: nat): Ten
    requires t < 4
  {
    match level
    case L => if t == 0 then L0() else if t == 1 then L1() else if t == 2 then L2() else L3()
    case M => if t == 0 then M0() else if t == 1 then M1() else if t == 2 then M2() else M3()
    case Q => if t == 0 then Q0() else if t == 1 then Q1() else if t == 2 then Q2() else Q3()
    case H => if t == 0 then H0() else if t == 1 then H1() else if t == 2 then H2() else H3()
  }

  /** RS_BLOCK_TABLE[(version - 1) * 4 + offset]. */
  function TableRow(version: nat, level: Level): BlockRow
    requires 1 <= version <= 40
  {
    Decade(level, (version - 1) / 10).At((version - 1) % 10)
  }

  lemma {:induction false} Capacities0a()
    ensures Capacity(1) == 26
    ensures Capacity(2) == 44
    ensures Capacity(3) == 70
    ensures Capacity(4) == 100
    ensures Capacity(5) == 134
  {
    hide Capacity;
    CapacityIs(1, 26);
    CapacityIs(2, 44);
    CapacityIs(3, 70);
    CapacityIs(4, 100);
    CapacityIs(5, 134);
  }

  lemma {:induction false} Capacities0b()
    ensures Capacity(6) == 172
    ensures Capacity(7) == 196
    ensures Capacity(8) == 242
    ensures Capacity(9) == 292
    ensures Capacity(10) == 346
  {
    hide Capacity;
    CapacityIs(6, 172);
    CapacityIs(7, 196);
    CapacityIs(8, 242);
    CapacityIs(9, 292);
    CapacityIs(10, 346);
  }

  lemma {:induction false} Capacities1a()
    ensures Capacity(11) == 404
    ensures Capacity(12) == 466
    ensures Capacity(13) == 532
    ensures Capacity(14) == 581
    ensures Capacity(15) == 655
  {
    hide Capacity;
    CapacityIs(11, 404);
    CapacityIs(12, 466);
    CapacityIs(13, 532);
    CapacityIs(14, 581);
    CapacityIs(15, 655);
  }

  lemma {:induction false} Capacities1b()
    ensures Capacity(16) == 733
    ensures Capacity(17) == 815
    ensures Capacity(18) == 901
    ensures Capacity(19) == 991
    ensures Capacity(20) == 1085
  {
    hide Capacity;
    CapacityIs(16, 733);
    CapacityIs(17, 815);
    CapacityIs(18, 901);
    CapacityIs(19, 991);
    CapacityIs(20, 1085);
  }

  lemma {:induction false} Capacities2a()
    ensures Capacity(21) == 1156
    ensures Capacity(22) == 1258
    ensures Capacity(23) == 1364
    ensures Capacity(24) == 1474
    ensures Capacity(25) == 1588
  {
    hide Capacity;
    CapacityIs(21, 1156);
    CapacityIs(22, 1258);
    CapacityIs(23, 1364);
    CapacityIs(24, 1474);
    CapacityIs(25, 1588);
  }

  lemma {:induction false} Capacities2b()
    ensures Capacity(26) == 1706
    ensures Capacity(27) == 1828
    ensures Capacity(28) == 1921
    ensures Capacity(29) == 2051
    ensures Capacity(30) == 2185
  {
    hide Capacity;
    CapacityIs(26, 1706);
    CapacityIs(27, 1828);
    CapacityIs(28, 1921);
    CapacityIs(29, 2051);
    CapacityIs(30, 2185);
  }

  lemma {:induction false} Capacities3a()
    ensures Capacity(31) == 2323
    ensures Capacity(32) == 2465
    ensures Capacity(33) == 2611
    ensures Capacity(34) == 2761
    ensures Capacity(35) == 2876
  {
    hide Capacity;
    CapacityIs(31, 2323);
    CapacityIs(32, 2465);
    CapacityIs(33, 2611);
    CapacityIs(34, 2761);
    CapacityIs(35, 2876);
  }

  lemma {:induction false} Capacities3b()
    ensures Capacity(36) == 3034
    ensures Capacity(37) == 3196
    ensures Capacity(38) == 3362
    ensures Capacity(39) == 3532
    ensures Capacity(40) == 3706
  {
    hide Capacity;
    CapacityIs(36, 3034);
    CapacityIs(37, 3196);
    CapacityIs(38, 3362);
    CapacityIs(39, 3532);
    CapacityIs(40, 3706);
  }

  lemma {:induction false} GoodL0()
    ensures L0().Good(1, L1().a.codewords) && L0().Consistent()
  {
    hide BlockRow.Consistent, Times, Capacity;
    Capacities0a();
    Capacities0b();
    OneIsConsistent(1, 26, 19);
    OneIsConsistent(1, 44, 34);
    OneIsConsistent(1, 70, 55);
    OneIsConsistent(1, 100, 80);
    OneIsConsistent(1, 134, 108);
    OneIsConsistent(2, 86, 68);
    OneIsConsistent(2, 98, 78);
    OneIsConsistent(2, 121, 97);
    OneIsConsistent(2, 146, 116);
    TwoIsConsistent(2, 86, 68, 2, 87, 69);
  }

  lemma {:induction false} GoodL1()
    ensures L1().Good(11, L2().a.codewords) && L1().Consistent()
  {
    hide BlockRow.Consistent, Times, Capacity;
    Capacities1a();
    Capacities1b();
    OneIsConsistent(4, 101, 81);
    TwoIsConsistent(2, 116, 92, 2, 117, 93);
    OneIsConsistent(4, 133, 107);
    TwoIsConsistent(3, 145, 115, 1, 146, 116);
    TwoIsConsistent(5, 109, 87, 1, 110, 88);
    TwoIsConsistent(5, 122, 98, 1, 123, 99);
    TwoIsConsistent(1, 135, 107, 5, 136, 108);
    TwoIsConsistent(5, 150, 120, 1, 151, 121);
    TwoIsConsistent(3, 141, 113, 4, 142, 114);
    TwoIsConsistent(3, 135, 107, 5, 136, 108);
  }

  lemma {:induction false} GoodL2()
    ensures L2().Good(21, L3().a.codewords) && L2().Consistent()
  {
    hide BlockRow.Consistent, Times, Capacity;
    Capacities2a();
    Capacities2b();
    TwoIsConsistent(4, 144, 116, 4, 145, 117);
    TwoIsConsistent(2, 139, 111, 7, 140, 112);
    TwoIsConsistent(4, 151, 121, 5, 152, 122);
    TwoIsConsistent(6, 147, 117, 4, 148, 118);
    TwoIsConsistent(8, 132, 106, 4, 133, 107);
    TwoIsConsistent(10, 142, 114, 2, 143, 115);
    TwoIsConsistent(8, 152, 122, 4, 153, 123);
    TwoIsConsistent(3, 147, 117, 10, 148, 118);
    TwoIsConsistent(7, 146, 116, 7, 147, 117);
    TwoIsConsistent(5, 145, 115, 10, 146, 116);
  }

  lemma {:induction false} GoodL3()
    ensures L3().Good(31, 3000) && L3().Consistent()
  {
    hide BlockRow.Consistent, Times, Capacity;
    Capacities3a();
    Capacities3b();
    TwoIsConsistent(13, 145, 115, 3, 146, 116);
    OneIsConsistent(17, 145, 115);
    TwoIsConsistent(17, 145, 115, 1, 146, 116);
    TwoIsConsistent(13, 145, 115, 6, 146, 116);
    TwoIsConsistent(12, 151, 121, 7, 152, 122);
    TwoIsConsistent(6, 151, 121, 14, 152, 122);
    TwoIsConsistent(17, 152, 122, 4, 153, 123);
    TwoIsConsistent(4, 152, 122, 18, 153, 123);
    TwoIsConsistent(20, 147, 117, 4, 148, 118);
    TwoIsConsistent(19, 148, 118, 6, 149, 119);
  }

  lemma {:induction false} GoodM0()
    ensures M0().Good(1, M1().a.codewords) && M0().Consistent()
  {
    hide BlockRow.Consistent, Times, Capacity;
    Capacities0a();
    Capacities0b();
    OneIsConsistent(1, 26, 16);
    OneIsConsistent(1, 44, 28);
    OneIsConsistent(1, 70, 44);
    OneIsConsistent(2, 50, 32);
    OneIsConsistent(2, 67, 43);
    OneIsConsistent(4, 43, 27);
    OneIsConsistent(4, 49, 31);
    TwoIsConsistent(2, 60, 38, 2, 61, 39);
    TwoIsConsistent(3, 58, 36, 2, 59, 37);
    TwoIsConsistent(4, 69, 43, 1, 70, 44);
  }

  lemma {:induction false} GoodM1()
    ensures M1().Good(11, M2().a.codewords) && M1().Consistent()
  {
    hide BlockRow.Consistent, Times, Capacity;
    Capacities1a();
    Capacities1b();
    TwoIsConsistent(1, 80, 50, 4, 81, 51);
    TwoIsConsistent(6, 58, 36, 2, 59, 37);
    TwoIsConsistent(8, 59, 37, 1, 60, 38);
    TwoIsConsistent(4, 64, 40, 5, 65, 41);
    TwoIsConsistent(5, 65, 41, 5, 66, 42);
    TwoIsConsistent(7, 73, 45, 3, 74, 46);
    TwoIsConsistent(10, 74, 46, 1, 75, 47);
    TwoIsConsistent(9, 69, 43, 4, 70, 44);
    TwoIsConsistent(3, 70, 44, 11, 71, 45);
    TwoIsConsistent(3, 67, 41, 13, 68, 42);
  }

  lemma {:induction false} GoodM2()
    ensures M2().Good(21, M3().a.codewords) && M2().Consistent()
  {
    hide BlockRow.Consistent, Times, Capacity;
    Capacities2a();
    Capacities2b();
    OneIsConsistent(17, 68, 42);
    OneIsConsistent(17, 74, 46);
    TwoIsConsistent(4, 75, 47, 14, 76, 48);
    TwoIsConsistent(6, 73, 45, 14, 74, 46);
    TwoIsConsistent(8, 75, 47, 13, 76, 48);
    TwoIsConsistent(19, 74, 46, 4, 75, 47);
    TwoIsConsistent(22, 73, 45, 3, 74, 46);
    TwoIsConsistent(3, 73, 45, 23, 74, 46);
    TwoIsConsistent(21, 73, 45, 7, 74, 46);
    TwoIsConsistent(19, 75, 47, 10, 76, 48);
  }

  lemma {:induction false} GoodM3()
    ensures M3().Good(31, 3000) && M3().Consistent()
  {
    hide BlockRow.Consistent, Times, Capacity;
    Capacities3a();
    Capacities3b();
    TwoIsConsistent(2, 74, 46, 29, 75, 47);
    TwoIsConsistent(10, 74, 46, 23, 75, 47);
    TwoIsConsistent(14, 74, 46, 21, 75, 47);
    TwoIsConsistent(14, 74, 46, 23, 75, 47);
    TwoIsConsistent(12, 75, 47, 26, 76, 48);
    TwoIsConsistent(6, 75, 47, 34, 76, 48);
    TwoIsConsistent(29, 74, 46, 14, 75, 47);
    TwoIsConsistent(13, 74, 46, 32, 75, 47);
    TwoIsConsistent(40, 75, 47, 7, 76, 48);
    TwoIsConsistent(18, 75, 47, 31, 76, 48);
  }

  lemma {:induction false} GoodQ0()
    ensures Q0().Good(1, Q1().a.codewords) && Q0().Consistent()
  {
    hide BlockRow.Consistent, Times, Capacity;
    Capacities0a();
    Capacities0b();
    OneIsConsistent(1, 26, 13);
    OneIsConsistent(1, 44, 22);
    OneIsConsistent(2, 35, 17);
    OneIsConsistent(2, 50, 24);
    TwoIsConsistent(2, 33, 15, 2, 34, 16);
    OneIsConsistent(4, 43, 19);
    TwoIsConsistent(2, 32, 14, 4, 33, 15);
    TwoIsConsistent(4, 40, 18, 2, 41, 19);
    TwoIsConsistent(4, 36, 16, 4, 37, 17);
    TwoIsConsistent(6, 43, 19, 2, 44, 20);
  }

  lemma {:induction false} GoodQ1()
    ensures Q1().Good(11, Q2().a.codewords) && Q1().Consistent()
  {
    hide BlockRow.Consistent, Times, Capacity;
    Capacities1a();
    Capacities1b();
    TwoIsConsistent(4, 50, 22, 4, 51, 23);
    TwoIsConsistent(4, 46, 20, 6, 47, 21);
    TwoIsConsistent(8, 44, 20, 4, 45, 21);
    TwoIsConsistent(11, 36, 16, 5, 37, 17);
    TwoIsConsistent(5, 54, 24, 7, 55, 25);
    TwoIsConsistent(15, 43, 19, 2, 44, 20);
    TwoIsConsistent(1, 50, 22, 15, 51, 23);
    TwoIsConsistent(17, 50, 22, 1, 51, 23);
    TwoIsConsistent(17, 47, 21, 4, 48, 22);
    TwoIsConsistent(15, 54, 24, 5, 55, 25);
  }

  lemma {:induction false} GoodQ2()
    ensures Q2().Good(21, Q3().a.codewords) && Q2().Consistent()
  {
    hide BlockRow.Consistent, Times, Capacity;
    Capacities2a();
    Capacities2b();
    TwoIsConsistent(17, 50, 22, 6, 51, 23);
    TwoIsConsistent(7, 54, 24, 16, 55, 25);
    TwoIsConsistent(11, 54, 24, 14, 55, 25);
    TwoIsConsistent(11, 54, 24, 16, 55, 25);
    TwoIsConsistent(7, 54, 24, 22, 55, 25);
    TwoIsConsistent(28, 50, 22, 6, 51, 23);
    TwoIsConsistent(8, 53, 23, 26, 54, 24);
    TwoIsConsistent(4, 54, 24, 31, 55, 25);
    TwoIsConsistent(1, 53, 23, 37, 54, 24);
    TwoIsConsistent(15, 54, 24, 25, 55, 25);
  }

  lemma {:induction false} GoodQ3()
    ensures Q3().Good(31, 3000) && Q3().Consistent()
  {
    hide BlockRow.Consistent, Times, Capacity;
    Capacities3a();
    Capacities3b();
    TwoIsConsistent(42, 54, 24, 1, 55, 25);
    TwoIsConsistent(10, 54, 24, 35, 55, 25);
    TwoIsConsistent(29, 54, 24, 19, 55, 25);
    TwoIsConsistent(44, 54, 24, 7, 55, 25);
    TwoIsConsistent(39, 54, 24, 14, 55, 25);
    TwoIsConsistent(46, 54, 24, 10, 55, 25);
    TwoIsConsistent(49, 54, 24, 10, 55, 25);
    TwoIsConsistent(48, 54, 24, 14, 55, 25);
    TwoIsConsistent(43, 54, 24, 22, 55, 25);
    TwoIsConsistent(34, 54, 24, 34, 55, 25);
  }

  lemma {:induction false} GoodH0()
    ensures H0().Good(1, H1().a.codewords) && H0().Consistent()
  {
    hide BlockRow.Consistent, Times, Capacity;
    Capacities0a();
    Capacities0b();
    OneIsConsistent(1, 26, 9);
    OneIsConsistent(1, 44, 16);
    OneIsConsistent(2, 35, 13);
    OneIsConsistent(4, 25, 9);
    TwoIsConsistent(2, 33, 11, 2, 34, 12);
    OneIsConsistent(4, 43, 15);
    TwoIsConsistent(4, 39, 13, 1, 40, 14);
    TwoIsConsistent(4, 40, 14, 2, 41, 15);
    TwoIsConsistent(4, 36, 12, 4, 37, 13);
    TwoIsConsistent(6, 43, 15, 2, 44, 16);
  }

  lemma {:induction false} GoodH1()
    ensures H1().Good(11, H2().a.codewords) && H1().Consistent()
  {
    hide BlockRow.Consistent, Times, Capacity;
    Capacities1a();
    Capacities1b();
    TwoIsConsistent(3, 36, 12, 8, 37, 13);
    TwoIsConsistent(7, 42, 14, 4, 43, 15);
    TwoIsConsistent(12, 33, 11, 4, 34, 12);
    TwoIsConsistent(11, 36, 12, 5, 37, 13);
    TwoIsConsistent(11, 36, 12, 7, 37, 13);
    TwoIsConsistent(3, 45, 15, 13, 46, 16);
    TwoIsConsistent(2, 42, 14, 17, 43, 15);
    TwoIsConsistent(2, 42, 14, 19, 43, 15);
    TwoIsConsistent(9, 39, 13, 16, 40, 14);
    TwoIsConsistent(15, 43, 15, 10, 44, 16);
  }

  lemma {:induction false} GoodH2()
    ensures H2().Good(21, H3().a.codewords) && H2().Consistent()
  {
    hide BlockRow.Consistent, Times, Capacity;
    Capacities2a();
    Capacities2b();
    TwoIsConsistent(19, 46, 16, 6, 47, 17);
    OneIsConsistent(34, 37, 13);
    TwoIsConsistent(16, 45, 15, 14, 46, 16);
    TwoIsConsistent(30, 46, 16, 2, 47, 17);
    TwoIsConsistent(22, 45, 15, 13, 46, 16);
    TwoIsConsistent(33, 46, 16, 4, 47, 17);
    TwoIsConsistent(12, 45, 15, 28, 46, 16);
    TwoIsConsistent(11, 45, 15, 31, 46, 16);
    TwoIsConsistent(19, 45, 15, 26, 46, 16);
    TwoIsConsistent(23, 45, 15, 25, 46, 16);
  }

  lemma {:induction false} GoodH3()
    ensures H3().Good(31, 3000) && H3().Consistent()
  {
    hide BlockRow.Consistent, Times, Capacity;
    Capacities3a();
    Capacities3b();
    TwoIsConsistent(23, 45, 15, 28, 46, 16);
    TwoIsConsistent(19, 45, 15, 35, 46, 16);
    TwoIsConsistent(11, 45, 15, 46, 46, 16);
    TwoIsConsistent(59, 46, 16, 1, 47, 17);
    TwoIsConsistent(22, 45, 15, 41, 46, 16);
    TwoIsConsistent(2, 45, 15, 64, 46, 16);
    TwoIsConsistent(24, 45, 15, 46, 46, 16);
    TwoIsConsistent(42, 45, 15, 32, 46, 16);
    TwoIsConsistent(10, 45, 15, 67, 46, 16);
    TwoIsConsistent(20, 45, 15, 61, 46, 16);
  }

  /** The number of data codewords of the version after a decade's last; no version follows 40. */
  function After(level: Level, t: nat): int
    requires t < 4
  {
    if t < 3 then Decade(level, t + 1).a.codewords else 3000
  }

  lemma {:induction false} DecadeIsGood(level: Level, t: nat)
    requires t < 4
    ensures Decade(level, t).Good(10 * t + 1, After(level, t)) && Decade(level, t).Consistent()
  {
    hide Ten.Good, Ten.Consistent, L0, L1, L2, L3, M0, M1, M2, M3, Q0, Q1, Q2, Q3, H0, H1, H2, H3;
    match level
    case L =>
      GoodL0();
      GoodL1();
      GoodL2();
      GoodL3();
    case M =>
      GoodM0();
      GoodM1();
      GoodM2();
      GoodM3();
    case Q =>
      GoodQ0();
      GoodQ1();
      GoodQ2();
      GoodQ3();
    case H =>
      GoodH0();
      GoodH1();
      GoodH2();
      GoodH3();
  }

  lemma {:induction false} TenAt(t: Ten, version: nat, next: int, k: nat)
    requires t.Good(version, next) && k < 10
    ensures t.At(k).Good(version + k, if k < 9 then t.At(k + 1).codewords else next)
  {
    hide BlockRow.Good;
  }

  /** Every row is well formed, within its width class's bound and smaller than the next version's. */
  lemma {:induction false} RowIsGood(version: nat, level: Level)
    requires 1 <= version <= 40
    ensures TableRow(version, level).Good(version,
              if version < 40 then TableRow(version + 1, level).codewords else 3000)
  {
    hide BlockRow.Good, Ten.Good, Decade, Ten.At;
    var t, k := (version - 1) / 10, (version - 1) % 10;
    DecadeIsGood(level, t);
    TenAt(Decade(level, t), 10 * t + 1, After(level, t), k);
    assert version == 10 * t + 1 + k;
    if version < 40 {
      var t', k' := version / 10, version % 10;
      if k < 9 {
        assert t' == t && k' == k + 1;
      } else {
        assert t' == t + 1 && k' == 0;
        FirstOfTen(Decade(level, t + 1));
      }
    }
  }

  lemma {:induction false} FirstOfTen(t: Ten)
    ensures t.At(0) == t.a
  {}

  lemma {:induction false} RowIsConsistent(version: nat, level: Level)
    requires 1 <= version <= 40
    ensures TableRow(version, level).Consistent()
  {
    hide BlockRow.Consistent, Decade;
    DecadeIsGood(level, (version - 1) / 10);
  }

  // ---- rs_blocks -----------------------------------------------------------------------------

  function Repeat(count: nat, block: RSBlock): (r: seq<RSBlock>)
    ensures |r| == count
  {
    seq(count, _ => block)
  }

  /** The blocks of a version and level, in table order. */
  function BlockList(version: nat, level: Level): seq<RSBlock>
    requires 1 <= version <= 40
  {
    var r := TableRow(version, level);
    Repeat(r.count, RSBlock(r.total, r.data)) + Repeat(r.count2, RSBlock(r.total2, r.data2))
  }

  /** The row as the flat tuple that the program stores: three numbers per group. */
  function Flat(r: BlockRow): seq<nat> {
    [r.count, r.total, r.data] + if r.count2 == 0 then [] else [r.count2, r.total2, r.data2]
  }

  method RsBlocks(version: nat, level: Level) returns (blocks: seq<RSBlock>)
    requires 1 <= version <= 40
    ensures blocks == BlockList(version, level)
  {
    hide TableRow;
    var row := Flat(TableRow(version, level));
    blocks := [];
    var i := 0;
    while i < |row|
      invariant i == 0 || i == 3 || i == 6 == |row|
      invariant i == 0 ==> blocks == []
      invariant i == 3 ==> blocks == Repeat(row[0], RSBlock(row[1], row[2]))
      invariant i == 6 ==> blocks == Repeat(row[0], RSBlock(row[1], row[2])) + Repeat(row[3], RSBlock(row[4], row[5]))
    {
      var count, totalCount, dataCount := row[i], row[i + 1], row[i + 2];
      ghost var before := blocks;
      for k := 0 to count
        invariant blocks == before + Repeat(k, RSBlock(totalCount, dataCount))
      {
        blocks := blocks + [RSBlock(totalCount, dataCount)];
      }
      i := i + 3;
    }
  }

  lemma {:induction false} SumOfRepeated(sizes: seq<nat>, count: nat, n: nat)
    ensures Sum(sizes + seq(count, _ => n)) == Sum(sizes) + Times(count, n)
  {
    if count == 0 {
      assert sizes + seq(count, _ => n) == sizes;
    } else {
      var s := sizes + seq(count, _ => n);
      assert s[..|s| - 1] == sizes + seq(count - 1, _ => n);
      SumOfRepeated(sizes, count - 1, n);
    }
  }

  /** The blocks together hold the row's data codewords. */
  lemma {:induction false} BlockListSize(version: nat, level: Level)
    requires 1 <= version <= 40
    ensures Sum(DataSizes(BlockList(version, level))) == TableRow(version, level).codewords
  {
    hide TableRow;
    RowIsConsistent(version, level);
    var r := TableRow(version, level);
    SumOfRepeated([], r.count, r.data);
    SumOfRepeated(seq(r.count, _ => r.data), r.count2, r.data2);
    assert [] + seq(r.count, _ => r.data) == seq(r.count, _ => r.data);
    assert DataSizes(BlockList(version, level)) == seq(r.count, _ => r.data) + seq(r.count2, _ => r.data2);
  }

  /** The blocks together fill the modules that the function patterns leave. */
  lemma {:induction false} BlockListTotals(version: nat, level: Level)
    requires 1 <= version <= 40
    ensures SumOfTotals(BlockList(version, level)) == Capacity(version)
  {
    hide TableRow, Capacity;
    RowIsConsistent(version, level);
    RowIsGood(version, level);
    var r := TableRow(version, level);
    TotalsOfRepeated([], r.count, RSBlock(r.total, r.data));
    TotalsOfRepeated(Repeat(r.count, RSBlock(r.total, r.data)), r.count2, RSBlock(r.total2, r.data2));
    assert [] + Repeat(r.count, RSBlock(r.total, r.data)) == Repeat(r.count, RSBlock(r.total, r.data));
  }

  lemma {:induction false} TotalsOfRepeated(blocks: seq<RSBlock>, count: nat, block: RSBlock)
    ensures SumOfTotals(blocks + Repeat(count, block)) == SumOfTotals(blocks) + Times(count, block.totalCount)
  {
    var s := blocks + Repeat(count, block);
    if count == 0 {
      assert s == blocks;
    } else {
      assert s[..|s| - 1] == blocks + Repeat(count - 1, block);
      TotalsOfRepeated(blocks, count - 1, block);
    }
  }

  /** create_bytes has a generator for every block, and every block has data. */
  lemma {:induction false} BlockListFacts(version: nat, level: Level)
    requires 1 <= version <= 40
    ensures InTable(BlockList(version, level))
    ensures forall b :: 0 <= b < |BlockList(version, level)| ==> BlockList(version, level)[b].dataCount > 0
  {
    hide TableRow, Lut;
    RowIsGood(version, level);
    var r := TableRow(version, level);
    EcCountInTable(r.total - r.data);
  }

  lemma {:induction false} EcCountInTable(n: nat)
    requires IsKey(n)
    ensures Lut(n).Some?
  {}

  // ---- bit limits ----------------------------------------------------------------------------

  /** BIT_LIMIT_TABLE[level][version]; entry 0 is 0. */
  function BitLimit(version: nat, level: Level): nat
    requires version <= 40
  {
    if version == 0 then 0 else 8 * TableRow(version, level).codewords
  }

  lemma {:induction false} BitLimitIncreases(v: nat, w: nat, level: Level)
    requires v < w <= 40
    ensures BitLimit(v, level) < BitLimit(w, level)
    decreases w
  {
    hide TableRow;
    if v + 1 < w {
      BitLimitIncreases(v, w - 1, level);
    }
    RowIsGood(w, level);
    if w > 1 {
      RowIsGood(w - 1, level);
    }
  }

  /** The largest capacity of each width class of the count fields. */
  lemma {:induction false} BitLimitBounds(version: nat, level: Level)
    requires 1 <= version <= 40
    ensures BitLimit(version, level) <= (if version < 10 then 1856 else if version < 27 then 10960 else 23648)
  {
    hide TableRow;
    RowIsGood(version, level);
  }
}
