/**
 Arithmetic of the field GF(256) that the QR code's error correction works in
 (qml/utilities/qrcode/base.py).

 The reference is polynomial arithmetic over GF(2) modulo x^8 + x^4 + x^3 + x^2 + 1: `Xor` adds,
 `XTime` multiplies by x, `Mul` multiplies bit by bit.  The program never multiplies like that; it
 adds exponents through two tables.  The lemmas below connect the two.
 */
module GF256 {

  function Xor(a: bv8, b: bv8): bv8 {
    a ^ b
  }

  /** Multiplication by x. */
  function XTime(a: bv8): bv8 {
    if a & 0x80 != 0 then Xor(a << 1, 0x1D) else a << 1
  }

  function Select(c: bool, a: bv8): bv8 {
    if c then a else 0
  }

  /** Polynomial multiplication: one shifted copy of a for each of the k low bits set in b. */
  function MulBits(a: bv8, b: bv8, k: nat): bv8
    decreases k
  {
    if k == 0 then 0 else Xor(Select(b & 1 != 0, a), MulBits(XTime(a), b >> 1, k - 1))
  }

  function Mul(a: bv8, b: bv8): bv8 {
    MulBits(a, b, 8)
  }

  /** The n-th power of the generator x. */
  function Pow(n: nat): bv8 {
    if n == 0 then 1 else XTime(Pow(n - 1))
  }

  // ---- Xor and XTime -------------------------------------------------------------------------

  lemma {:induction false} XorComm(a: bv8, b: bv8)
    ensures Xor(a, b) == Xor(b, a)
  {}

  lemma {:induction false} XorAssoc(a: bv8, b: bv8, c: bv8)
    ensures Xor(Xor(a, b), c) == Xor(a, Xor(b, c))
  {}

  lemma {:induction false} XorSelf(a: bv8)
    ensures Xor(a, a) == 0
    ensures Xor(a, 0) == a == Xor(0, a)
  {}

  lemma {:induction false} XorSwap(a: bv8, b: bv8, c: bv8, d: bv8)
    ensures Xor(Xor(a, b), Xor(c, d)) == Xor(Xor(a, c), Xor(b, d))
  {
    hide Xor;
    XorAssoc(a, b, Xor(c, d));
    XorAssoc(b, c, d);
    XorComm(b, c);
    XorAssoc(c, b, d);
    XorAssoc(a, c, Xor(b, d));
  }

  lemma {:induction false} TopBitXor(a: bv8, b: bv8)
    ensures Xor(a, b) & 0x80 != 0 <==> (a & 0x80 != 0) != (b & 0x80 != 0)
    ensures Xor(a, b) << 1 == Xor(a << 1, b << 1)
  {}

  lemma {:induction false} XTimeXor(a: bv8, b: bv8)
    ensures XTime(Xor(a, b)) == Xor(XTime(a), XTime(b))
  {
    hide Xor;
    TopBitXor(a, b);
    var x, y := a << 1, b << 1;
    XorSwap(x, 0x1D, y, 0x1D);
    XorSelf(0x1D);
    XorSelf(Xor(x, y));
    XorAssoc(x, y, 0x1D);
    XorAssoc(x, 0x1D, y);
    XorComm(0x1D, y);
  }

  lemma {:induction false} XTimeZero(a: bv8)
    ensures XTime(a) == 0 <==> a == 0
  {}

  // ---- Mul is linear and respects x ----------------------------------------------------------

  lemma {:induction false} SelectXor(c: bool, a: bv8, b: bv8)
    ensures Select(c, Xor(a, b)) == Xor(Select(c, a), Select(c, b))
    ensures Select(c, XTime(a)) == XTime(Select(c, a))
  {
    hide Xor, XTime;
    XorSelf(0);
    XTimeZero(0);
  }

  lemma {:induction false} SelectStep(c: bool, x: bv8, y: bv8, r: bv8, s: bv8)
    ensures Xor(Select(c, Xor(x, y)), Xor(r, s)) == Xor(Xor(Select(c, x), r), Xor(Select(c, y), s))
  {
    hide Xor, Select;
    SelectXor(c, x, y);
    XorSwap(Select(c, x), Select(c, y), r, s);
  }

  lemma {:induction false} MulBitsXor(a: bv8, b: bv8, c: bv8, k: nat)
    ensures MulBits(Xor(a, b), c, k) == Xor(MulBits(a, c, k), MulBits(b, c, k))
    decreases k
  {
    hide Xor, XTime, Select;
    if k == 0 {
      XorSelf(0);
    } else {
      XTimeXor(a, b);
      MulBitsXor(XTime(a), XTime(b), c >> 1, k - 1);
      SelectStep(c & 1 != 0, a, b, MulBits(XTime(a), c >> 1, k - 1), MulBits(XTime(b), c >> 1, k - 1));
    }
  }

  lemma {:induction false} MulBitsXTime(a: bv8, b: bv8, k: nat)
    ensures MulBits(XTime(a), b, k) == XTime(MulBits(a, b, k))
    decreases k
  {
    hide Xor, XTime, Select;
    if k == 0 {
      XTimeZero(0);
    } else {
      MulBitsXTime(XTime(a), b >> 1, k - 1);
      SelectXor(b & 1 != 0, a, a);
      XTimeXor(Select(b & 1 != 0, a), MulBits(XTime(a), b >> 1, k - 1));
    }
  }

  lemma {:induction false} MulBitsZero(b: bv8, k: nat)
    ensures MulBits(0, b, k) == 0 == MulBits(b, 0, k)
    decreases k
  {
    hide Xor, XTime;
    if k > 0 {
      XTimeZero(0);
      XorSelf(0);
      MulBitsZero(b >> 1, k - 1);
      MulBitsZero(XTime(b), k - 1);
    }
  }

  lemma {:induction false} SelectedBits(a: bv8)
    ensures Select(a & 1 != 0, 0x01) == a & 0x01
    ensures Select((a >> 1) & 1 != 0, 0x02) == a & 0x02
    ensures Select((a >> 2) & 1 != 0, 0x04) == a & 0x04
    ensures Select((a >> 3) & 1 != 0, 0x08) == a & 0x08
    ensures Select((a >> 4) & 1 != 0, 0x10) == a & 0x10
    ensures Select((a >> 5) & 1 != 0, 0x20) == a & 0x20
    ensures Select((a >> 6) & 1 != 0, 0x40) == a & 0x40
    ensures Select((a >> 7) & 1 != 0, 0x80) == a & 0x80
  {}

  lemma {:induction false} SplitByte(a: bv8)
    ensures Xor(a & 0x01, Xor(a & 0x02, Xor(a & 0x04, Xor(a & 0x08,
            Xor(a & 0x10, Xor(a & 0x20, Xor(a & 0x40, Xor(a & 0x80, 0)))))))) == a
  {}

  lemma {:induction false} ShiftDown(a: bv8)
    ensures (a >> 1) >> 1 == a >> 2 && (a >> 2) >> 1 == a >> 3 && (a >> 3) >> 1 == a >> 4
    ensures (a >> 4) >> 1 == a >> 5 && (a >> 5) >> 1 == a >> 6 && (a >> 6) >> 1 == a >> 7
  {}

  lemma {:induction false} PowersOfTwo()
    ensures XTime(0x01) == 0x02 && XTime(0x02) == 0x04 && XTime(0x04) == 0x08 && XTime(0x08) == 0x10
    ensures XTime(0x10) == 0x20 && XTime(0x20) == 0x40 && XTime(0x40) == 0x80
  {}

  lemma {:induction false} OneMul(a: bv8)
    ensures Mul(1, a) == a
  {
    hide Xor, XTime, Select;
    PowersOfTwo();
    SelectedBits(a);
    ShiftDown(a);
    SplitByte(a);
    assert MulBits(0x80, a >> 7, 1) == Xor(a & 0x80, MulBits(XTime(0x80), (a >> 7) >> 1, 0));
    assert MulBits(0x40, a >> 6, 2) == Xor(a & 0x40, MulBits(0x80, a >> 7, 1));
    assert MulBits(0x20, a >> 5, 3) == Xor(a & 0x20, MulBits(0x40, a >> 6, 2));
    assert MulBits(0x10, a >> 4, 4) == Xor(a & 0x10, MulBits(0x20, a >> 5, 3));
    assert MulBits(0x08, a >> 3, 5) == Xor(a & 0x08, MulBits(0x10, a >> 4, 4));
    assert MulBits(0x04, a >> 2, 6) == Xor(a & 0x04, MulBits(0x08, a >> 3, 5));
    assert MulBits(0x02, a >> 1, 7) == Xor(a & 0x02, MulBits(0x04, a >> 2, 6));
  }

  // ---- powers of x ---------------------------------------------------------------------------

  lemma {:induction false} MulPow(i: nat, j: nat)
    ensures Mul(Pow(i), Pow(j)) == Pow(i + j)
  {
    hide Xor, XTime, Select, MulBits;
    if i == 0 {
      OneMul(Pow(j));
    } else {
      MulPow(i - 1, j);
      MulBitsXTime(Pow(i - 1), Pow(j), 8);
    }
  }

  lemma {:induction false} PowNonZero(n: nat)
    ensures Pow(n) != 0
  {
    hide XTime;
    if n > 0 {
      PowNonZero(n - 1);
      XTimeZero(Pow(n - 1));
    }
  }

  lemma {:induction false} SmallPowers()
    ensures Pow(1) == 2 && Pow(3) == 8 && Pow(5) == 0x20 && Pow(8) == 0x1D && Pow(15) == 38 && Pow(17) == 152
  {
    assert Pow(4) == 0x10;
    assert Pow(8) == 0x1D;
    assert Pow(12) == 205;
    assert Pow(15) == 38;
  }

  lemma {:induction false} Squares()
    ensures Mul(152, 152) == 78 && Mul(78, 152) == 10 && Mul(10, 78) == 214
    ensures Mul(214, 214) == 215 && Mul(215, 214) == 1
  {}

  lemma {:induction false} LargePowers()
    ensures Pow(51) == 10 && Pow(85) == 214 && Pow(255) == 1
  {
    hide XTime, MulBits, Mul, Pow;
    SmallPowers();
    Squares();
    MulPow(17, 17);
    MulPow(34, 17);
    MulPow(51, 34);
    MulPow(85, 85);
    MulPow(170, 85);
  }

  /** x has order 255: were d < 255 the least exponent with Pow(d) == 1, it would divide 255. */
  lemma {:induction false} Order(d: nat)
    requires 0 < d < 255
    ensures Pow(d) != 1
    decreases d
  {
    hide XTime, Pow, MulBits, Mul;
    if Pow(d) == 1 {
      LargePowers();
      var q, r := 255 / d, 255 % d;
      PowPeriod(d, q);
      MulPow(q * d, r);
      OneMul(Pow(r));
      if r != 0 {
        Order(r);
      } else {
        SmallPowers();
        Divisors(d);
      }
    }
  }

  lemma {:induction false} Divisors(d: nat)
    requires 0 < d < 255 && 255 % d == 0
    ensures d in {1, 3, 5, 15, 17, 51, 85}
  {
    var q := 255 / d;
    assert q * d == 255;
    if 15 < d <= 85 {
      assert q <= 15;
    }
  }

  lemma {:induction false} PowPeriod(d: nat, q: nat)
    requires Pow(d) == 1
    ensures Pow(q * d) == 1
    decreases q
  {
    hide XTime, MulBits, Mul;
    if q > 0 {
      PowPeriod(d, q - 1);
      assert q * d == (q - 1) * d + d;
      MulPow((q - 1) * d, d);
      OneMul(1);
    }
  }

  lemma {:induction false} PowDistinct(i: nat, j: nat)
    requires i < j < 255
    ensures Pow(i) != Pow(j)
  {
    hide XTime, Pow, MulBits, Mul;
    if Pow(i) == Pow(j) {
      LargePowers();
      MulPow(i, 255 - j);
      MulPow(j, 255 - j);
      Order(i + 255 - j);
    }
  }

  // ---- logarithms and the two tables ---------------------------------------------------------

  function LogFrom(a: bv8, i: nat): (r: nat)
    requires i < 255
    ensures i <= r < 255
    ensures (exists j: nat :: i <= j < 255 && Pow(j) == a) ==> Pow(r) == a
    decreases 255 - i
  {
    if i == 254 || Pow(i) == a then i else LogFrom(a, i + 1)
  }

  function UpTo(n: nat): (s: set<int>)
    ensures forall x :: x in s <==> 1 <= x <= n
    ensures |s| == n
  {
    if n == 0 then {} else UpTo(n - 1) + {n}
  }

  lemma {:induction false} DistinctSize(s: seq<int>, values: set<int>)
    requires forall i, j :: 0 <= i < j < |s| ==> s[i] != s[j]
    requires forall x :: x in values <==> x in s
    ensures |values| == |s|
  {
    if |s| == 0 {
      assert forall x :: x in values ==> x in s;
      assert values == {};
    } else {
      var n := |s| - 1;
      assert s == s[..n] + [s[n]];
      DistinctSize(s[..n], values - {s[n]});
    }
  }

  lemma {:induction false} Pigeonhole(s: seq<int>, v: int)
    requires forall i, j :: 0 <= i < j < |s| ==> s[i] != s[j]
    requires forall i :: 0 <= i < |s| ==> 1 <= s[i] <= |s|
    requires 1 <= v <= |s|
    ensures v in s
  {
    var values := set x | x in s;
    var all := UpTo(|s|);
    DistinctSize(s, values);
    if v !in s {
      assert values <= all - {v};
      SubsetSize(values, all - {v});
    }
  }

  lemma {:induction false} SubsetSize(a: set<int>, b: set<int>)
    requires a <= b
    ensures |a| <= |b|
  {
    assert b == a + (b - a);
  }

  /** The number a byte stands for when it indexes a table. */
  function Index(a: bv8): (r: nat)
    ensures r < 256
  {
    a as int
  }

  lemma {:induction false} IndexIsInjective(a: bv8, b: bv8)
    ensures Index(a) == Index(b) ==> a == b
    ensures a != 0 ==> Index(a) > 0
  {}

  /** Every non-zero byte is a power of x: 255 distinct powers fill the 255 non-zero bytes. */
  lemma {:induction false} EveryByteIsAPower(a: bv8)
    requires a != 0
    ensures exists j: nat :: j < 255 && Pow(j) == a
  {
    hide Pow, Index;
    var s := seq(255, i requires 0 <= i < 255 => Index(Pow(i)));
    forall i, j | 0 <= i < j < 255 ensures s[i] != s[j] {
      PowDistinct(i, j);
      IndexIsInjective(Pow(i), Pow(j));
    }
    forall i | 0 <= i < 255 ensures 1 <= s[i] <= 255 {
      PowNonZero(i);
      IndexIsInjective(Pow(i), 0);
    }
    IndexIsInjective(a, 0);
    Pigeonhole(s, Index(a));
    var j :| 0 <= j < 255 && s[j] == Index(a);
    IndexIsInjective(Pow(j), a);
  }

  function GLog(a: bv8): (r: nat)
    requires a != 0
    ensures r < 255 && Pow(r) == a
  {
    EveryByteIsAPower(a);
    LogFrom(a, 0)
  }

  function GExp(n: int): bv8 {
    Pow(n % 255)
  }

  lemma {:induction false} PowMod(n: nat)
    ensures Pow(n) == Pow(n % 255)
    decreases n
  {
    hide XTime, Pow, MulBits, Mul;
    if n >= 255 {
      PowMod(n - 255);
      LargePowers();
      MulPow(255, n - 255);
      OneMul(Pow(n - 255));
    }
  }

  /** Adding exponents multiplies: what every use of the tables relies on. */
  lemma {:induction false} GExpSum(i: int, j: int)
    ensures GExp(i + j) == Mul(GExp(i), GExp(j))
  {
    hide XTime, Pow, MulBits, Mul;
    MulPow(i % 255, j % 255);
    PowMod(i % 255 + j % 255);
  }

  lemma {:induction false} GExpNonZero(i: int)
    ensures GExp(i) != 0
  {
    PowNonZero(i % 255);
  }

  lemma {:induction false} LogExp(a: bv8)
    requires a != 0
    ensures GExp(GLog(a)) == a
  {
    hide Pow;
  }

  /** The program's product of two non-zero bytes is the field product. */
  lemma {:induction false} LogProduct(a: bv8, b: bv8)
    requires a != 0 && b != 0
    ensures GExp(GLog(a) + GLog(b)) == Mul(a, b)
  {
    hide Pow, MulBits, Mul;
    GExpSum(GLog(a), GLog(b));
    LogExp(a);
    LogExp(b);
  }

  // ---- field laws ----------------------------------------------------------------------------

  lemma {:induction false} MulZero(a: bv8)
    ensures Mul(a, 0) == 0 == Mul(0, a)
  {
    hide XTime, Xor, Select;
    MulBitsZero(a, 8);
  }

  lemma {:induction false} MulNonZero(a: bv8, b: bv8)
    ensures Mul(a, b) == 0 <==> a == 0 || b == 0
  {
    hide Pow, MulBits, Mul, GExp;
    MulZero(a);
    MulZero(b);
    if a != 0 && b != 0 {
      LogProduct(a, b);
      GExpNonZero(GLog(a) + GLog(b));
    }
  }

  lemma {:induction false} MulComm(a: bv8, b: bv8)
    ensures Mul(a, b) == Mul(b, a)
  {
    hide Pow, MulBits, Mul, GExp;
    MulZero(a);
    MulZero(b);
    if a != 0 && b != 0 {
      LogProduct(a, b);
      LogProduct(b, a);
    }
  }

  lemma {:induction false} MulAssoc(a: bv8, b: bv8, c: bv8)
    ensures Mul(Mul(a, b), c) == Mul(a, Mul(b, c))
  {
    hide Pow, MulBits, Mul, GExp;
    if a == 0 || b == 0 || c == 0 {
      MulZero(a);
      MulZero(b);
      MulZero(c);
      MulZero(Mul(a, b));
      MulZero(Mul(b, c));
    } else {
      var i, j, k := GLog(a), GLog(b), GLog(c);
      LogExp(a);
      LogExp(b);
      LogExp(c);
      GExpSum(i, j);
      GExpSum(i + j, k);
      GExpSum(j, k);
      GExpSum(i, j + k);
    }
  }

  lemma {:induction false} MulXor(a: bv8, b: bv8, c: bv8)
    ensures Mul(Xor(a, b), c) == Xor(Mul(a, c), Mul(b, c))
    ensures Mul(c, Xor(a, b)) == Xor(Mul(c, a), Mul(c, b))
  {
    hide Xor, XTime, Select;
    MulBitsXor(a, b, c, 8);
    MulComm(a, c);
    MulComm(b, c);
    MulComm(Xor(a, b), c);
  }

  // ---- the tables as the program fills them --------------------------------------------------

  /** One step of the recurrence that fills EXP_TABLE from its eighth entry on. */
  lemma {:induction false} Recurrence(i: nat)
    requires i >= 8
    ensures Pow(i) == Xor(Xor(Xor(Pow(i - 4), Pow(i - 5)), Pow(i - 6)), Pow(i - 8))
  {
    hide Xor, XTime, MulBits, Mul, Pow;
    var n := i - 8;
    assert Pow(8) == Xor(Xor(Xor(Pow(4), Pow(3)), Pow(2)), Pow(0)) by { EighthPower(); }
    MulPow(8, n);
    MulPow(4, n);
    MulPow(3, n);
    MulPow(2, n);
    MulPow(0, n);
    MulXor(Xor(Xor(Pow(4), Pow(3)), Pow(2)), Pow(0), Pow(n));
    MulXor(Xor(Pow(4), Pow(3)), Pow(2), Pow(n));
    MulXor(Pow(4), Pow(3), Pow(n));
  }

  lemma {:induction false} EighthPower()
    ensures Pow(8) == Xor(Xor(Xor(Pow(4), Pow(3)), Pow(2)), Pow(0))
  {
    SmallPowers();
    assert Pow(2) == 4 && Pow(4) == 0x10;
  }

  lemma {:induction false} FirstPowers(i: nat)
    requires i < 8
    ensures Pow(i) == (1 as bv8) << i
  {
    assert Pow(4) == 0x10;
    assert Pow(5) == 0x20 && Pow(6) == 0x40 && Pow(7) == 0x80;
    assert Pow(0) == 1 && Pow(1) == 2 && Pow(2) == 4 && Pow(3) == 8;
  }

  /** EXP_TABLE: starts as 0..255 and is overwritten in two loops. */
  method BuildExp() returns (exp: seq<bv8>)
    ensures |exp| == 256 && forall i :: 0 <= i < 256 ==> exp[i] == GExp(i)
  {
    hide Pow, Xor, XTime;
    exp := seq(256, i requires 0 <= i < 256 => i as bv8);
    for i := 0 to 8
      invariant |exp| == 256
      invariant forall j :: 0 <= j < i ==> exp[j] == Pow(j)
    {
      exp := exp[i := 1 << i];
      FirstPowers(i);
    }
    for i := 8 to 256
      invariant |exp| == 256
      invariant forall j :: 0 <= j < i ==> exp[j] == Pow(j)
    {
      exp := exp[i := Xor(Xor(Xor(exp[i - 4], exp[i - 5]), exp[i - 6]), exp[i - 8])];
      Recurrence(i);
    }
    PowMod(255);
  }

  lemma {:induction false} LogPow(i: nat)
    requires i < 255
    ensures Pow(i) != 0 && GLog(Pow(i)) == i
  {
    hide Pow;
    PowNonZero(i);
    var j := GLog(Pow(i));
    if i < j {
      PowDistinct(i, j);
    } else if j < i {
      PowDistinct(j, i);
    }
  }

  /** glog and gexp undo each other: on non-zero bytes, and on exponents modulo 255. */
  lemma {:induction false} TablesInvert(a: bv8, i: int)
    ensures a != 0 ==> GExp(GLog(a)) == a
    ensures GExp(i) != 0 && GLog(GExp(i)) == i % 255
  {
    hide Pow;
    if a != 0 {
      LogExp(a);
    }
    LogPow(i % 255);
  }

  /** The powers of alpha: 255 different ones, and then the first again. */
  lemma {:induction false} GeneratorOrder()
    ensures Pow(255) == 1
    ensures forall d :: 0 < d < 255 ==> Pow(d) != 1
    ensures forall i, j :: 0 <= i < j < 255 ==> Pow(i) != Pow(j)
  {
    hide Pow;
    LargePowers();
    forall d | 0 < d < 255 ensures Pow(d) != 1 {
      Order(d);
    }
    forall i, j | 0 <= i < j < 255 ensures Pow(i) != Pow(j) {
      PowDistinct(i, j);
    }
  }

  /** LOG_TABLE: starts as 0..255; the entry of the i-th power becomes i. */
  method BuildLog(exp: seq<bv8>) returns (log: seq<int>)
    requires |exp| == 256 && forall i :: 0 <= i < 256 ==> exp[i] == GExp(i)
    ensures |log| == 256 && log[0] == 0
    ensures forall a: bv8 :: a != 0 ==> log[Index(a)] == GLog(a)
  {
    hide Pow, GLog, LogFrom, Index;
    log := seq(256, i => i);
    for i := 0 to 255
      invariant |log| == 256 && log[0] == 0
      invariant forall j :: 0 <= j < i ==> log[Index(exp[j])] == j
    {
      PowNonZero(i);
      IndexIsInjective(exp[i], 0);
      forall j | 0 <= j < i ensures Index(exp[j]) != Index(exp[i]) {
        PowDistinct(j, i);
        IndexIsInjective(exp[j], exp[i]);
      }
      log := log[Index(exp[i]) := i];
    }
    forall a: bv8 | a != 0 ensures log[Index(a)] == GLog(a) {
      assert exp[GLog(a)] == a;
    }
  }
}
