/**
 The format and version information (BCH_type_info, BCH_type_number and BCH_digit,
 qml/utilities/qrcode/util.py:115-137) and what a scanner reads from it (ISO/IEC 18004:2015, sections 7.9 and 7.10).
 */
module FormatInfo {
  // ---- polynomials over the field of two elements --------------------------------------------

  const G15: bv32 := 0x537
  const G18: bv32 := 0x1F25
  const G15_MASK: bv32 := 0x5412

  function Xor(a: bv32, b: bv32): bv32 {
    a ^ b
  }

  function Half(x: bv32): bv32 {
    x >> 1
  }

  /** x < 1 << k */
  predicate IsBelow(x: bv32, k: nat)
    requires k <= 18
  {
    match k
    case 0 => x < 0x1 case 1 => x < 0x2 case 2 => x < 0x4 case 3 => x < 0x8 case 4 => x < 0x10 case 5 => x < 0x20
    case 6 => x < 0x40 case 7 => x < 0x80 case 8 => x < 0x100 case 9 => x < 0x200 case 10 => x < 0x400
    case 11 => x < 0x800 case 12 => x < 0x1000 case 13 => x < 0x2000 case 14 => x < 0x4000 case 15 => x < 0x8000
    case 16 => x < 0x10000 case 17 => x < 0x20000 case _ => x < 0x40000
  }

  /** g << k */
  function Shifted(g: bv32, k: nat): bv32
    requires k <= 5
  {
    match k
    case 0 => g
    case 1 => g << 1
    case 2 => g << 2
    case 3 => g << 3
    case 4 => g << 4
    case _ => g << 5
  }

  /** A multiple of g: a sum of shifted copies. */
  function SumOf(shifts: seq<nat>, g: bv32): bv32
    requires forall i :: 0 <= i < |shifts| ==> shifts[i] <= 5
  {
    if shifts == [] then 0 else Xor(SumOf(shifts[..|shifts| - 1], g), Shifted(g, shifts[|shifts| - 1]))
  }

  ghost predicate IsMultiple(x: bv32, g: bv32) {
    exists shifts: seq<nat> :: (forall i :: 0 <= i < |shifts| ==> shifts[i] <= 5) && x == SumOf(shifts, g)
  }

  lemma {:induction false} XorTwice(d: bv32, p: bv32, s: bv32)
    ensures Xor(d, p) == Xor(Xor(d, s), Xor(p, s))
    ensures Xor(Xor(d, p), d) == p
    ensures Xor(d, 0) == d
  {}

  // ---- the number of digits ------------------------------------------------------------------

  function Digits(x: bv32): nat
    decreases x
  {
    if x == 0 then 0
    else
      HalfIsLess(x);
      1 + Digits(Half(x))
  }

  lemma {:induction false} HalfIsLess(x: bv32)
    requires x != 0
    ensures Half(x) < x
  {}

  /** BCH_digit */
  method BchDigit(data: bv32) returns (digit: nat)
    ensures digit == Digits(data)
  {
    digit := 0;
    var rest := data;
    while rest != 0
      invariant digit + Digits(rest) == Digits(data)
      decreases rest
    {
      HalfIsLess(rest);
      digit := digit + 1;
      rest := Half(rest);
    }
  }

  lemma {:induction false} HalfBelow(x: bv32, k: nat)
    requires k < 18
    ensures IsBelow(x, k + 1) <==> IsBelow(Half(x), k)
  {
    if k == 0 {} else if k == 1 {} else if k == 2 {} else if k == 3 {} else if k == 4 {} else if k == 5 {}
    else if k == 6 {} else if k == 7 {} else if k == 8 {} else if k == 9 {} else if k == 10 {} else if k == 11 {}
    else if k == 12 {} else if k == 13 {} else if k == 14 {} else if k == 15 {} else if k == 16 {} else {}
  }

  lemma {:induction false} OnlyZeroIsBelow(x: bv32, k: nat)
    requires k <= 18
    ensures x == 0 ==> IsBelow(x, k)
    ensures IsBelow(x, 0) ==> x == 0
  {}

  lemma {:induction false} DigitsBound(x: bv32, k: nat)
    requires k <= 18
    ensures IsBelow(x, k) <==> Digits(x) <= k
    decreases k
  {
    hide IsBelow, Half;
    OnlyZeroIsBelow(x, k);
    if x != 0 && k > 0 {
      HalfIsLess(x);
      HalfBelow(x, k - 1);
      DigitsBound(Half(x), k - 1);
    }
  }

  /** Subtracting the divisor, shifted to the leading digit, takes the leading digit away. */
  lemma {:induction false} LeadingDigit(d: bv32, g: bv32, n: nat, k: nat)
    requires (n == 11 && g == G15) || (n == 13 && g == G18)
    requires k <= 5 && !IsBelow(d, n + k - 1) && IsBelow(d, n + k)
    ensures IsBelow(Xor(d, Shifted(g, k)), n + k - 1)
  {
    if k == 0 {} else if k == 1 {} else if k == 2 {} else if k == 3 {} else if k == 4 {} else {}
  }

  /** The division loop: what is left has fewer digits than the divisor and differs from d by a multiple of it. */
  method Remainder(start: bv32, g: bv32, n: nat) returns (d: bv32)
    requires (n == 11 && g == G15) || (n == 13 && g == G18)
    requires IsBelow(start, n + 5)
    ensures IsBelow(d, n - 1) && IsMultiple(Xor(start, d), g)
  {
    hide Digits, IsBelow, Shifted, Xor, Half;
    d := start;
    ghost var shifts: seq<nat> := [];
    XorTwice(start, start, start);
    var digits := BchDigit(d);
    DigitsBound(d, n + 5);
    while digits >= n
      invariant digits == Digits(d) <= n + 5
      invariant forall i :: 0 <= i < |shifts| ==> shifts[i] <= 5
      invariant start == Xor(d, SumOf(shifts, g))
      decreases digits
    {
      ghost var k := digits - n;
      DigitsBound(d, digits);
      DigitsBound(d, digits - 1);
      LeadingDigit(d, g, n, k);
      assert (shifts + [k])[..|shifts|] == shifts;
      XorTwice(d, SumOf(shifts, g), Shifted(g, k));
      d := Xor(d, Shifted(g, digits - n));
      DigitsBound(d, digits - 1);
      shifts := shifts + [k];
      digits := BchDigit(d);
    }
    DigitsBound(d, n - 1);
    XorTwice(d, SumOf(shifts, g), d);
  }

  // ---- the two codes -------------------------------------------------------------------------

  /** The five data bits, then ten check bits that make the whole a multiple of the generator; all masked. */
  ghost predicate IsTypeInfo(bits: bv32, data: bv32) {
    (bits ^ G15_MASK) >> 10 == data && IsMultiple(bits ^ G15_MASK, G15)
  }

  /** The six bits of the version, then twelve check bits that make the whole a multiple of the generator. */
  ghost predicate IsTypeNumber(bits: bv32, version: bv32) {
    bits >> 12 == version && IsMultiple(bits, G18)
  }

  method BchTypeInfo(data: bv32) returns (bits: bv32)
    requires data < 32
    ensures IsTypeInfo(bits, data)
  {
    hide IsMultiple;
    Room10(data);
    var d := Remainder(data << 10, G15, 11);
    Joined10(data, d);
    bits := ((data << 10) | d) ^ G15_MASK;
    assert bits ^ G15_MASK == (data << 10) | d;
  }

  method BchTypeNumber(version: bv32) returns (bits: bv32)
    requires version < 64
    ensures IsTypeNumber(bits, version)
  {
    hide IsMultiple;
    Room12(version);
    var d := Remainder(version << 12, G18, 13);
    Joined12(version, d);
    bits := (version << 12) | d;
  }

  lemma {:induction false} Room10(data: bv32)
    requires data < 32
    ensures IsBelow(data << 10, 16)
  {}

  lemma {:induction false} Room12(version: bv32)
    requires version < 64
    ensures IsBelow(version << 12, 18)
  {}

  lemma {:induction false} Joined10(data: bv32, d: bv32)
    requires data < 32 && IsBelow(d, 10)
    ensures (data << 10) | d == Xor(data << 10, d) && ((data << 10) | d) >> 10 == data
  {}

  lemma {:induction false} Joined12(data: bv32, d: bv32)
    requires data < 64 && IsBelow(d, 12)
    ensures (data << 12) | d == Xor(data << 12, d) && ((data << 12) | d) >> 12 == data
  {}

  /** The examples of the standard: level M with mask 101, and version 7. */
  lemma {:induction false} Examples()
    ensures IsTypeInfo(0x40CE, 5) && IsTypeNumber(0x07C94, 7)
  {
    OneShift(G15, 2);
    OneShift(G18, 2);
  }

  lemma {:induction false} OneShift(g: bv32, k: nat)
    requires k <= 5
    ensures IsMultiple(Shifted(g, k), g)
  {
    hide Shifted, Xor;
    assert [k][..0] == [];
    ZeroFirst(Shifted(g, k));
    assert SumOf([k], g) == Shifted(g, k);
  }

  lemma {:induction false} ZeroFirst(x: bv32)
    ensures Xor(0, x) == x
  {}

  // ---- what a scanner reads ------------------------------------------------------------------

  predicate Bit(bits: bv32, k: nat)
    requires k < 32
  {
    (bits >> k) & 1 == 1
  }

  /** The level indicator and the mask pattern, as set_type_info joins them. */
  function TypeData(code: nat, mask: nat): bv32
    requires code < 4 && mask < 8
  {
    ((code as bv32) << 3) | (mask as bv32)
  }

  /** The mask pattern from the bits 12 to 10, of which 12 and 10 are inverted. */
  function ScannedMask(bit: nat -> bool): (mask: nat)
    ensures mask < 8
  {
    (if bit(12) then 0 else 4) + (if bit(11) then 2 else 0) + (if bit(10) then 0 else 1)
  }

  /** The level indicator from the bits 14 and 13, of which 14 is inverted. */
  function ScannedCode(bit: nat -> bool): (code: nat)
    ensures code < 4
  {
    (if bit(14) then 0 else 2) + (if bit(13) then 1 else 0)
  }

  lemma {:induction false} DataBits(bits: bv32, data: bv32)
    requires (bits ^ G15_MASK) >> 10 == data
    ensures Bit(bits, 10) <==> data & 1 == 0
    ensures Bit(bits, 11) <==> data & 2 != 0
    ensures Bit(bits, 12) <==> data & 4 == 0
    ensures Bit(bits, 13) <==> data & 8 != 0
    ensures Bit(bits, 14) <==> data & 16 == 0
  {}

  lemma {:induction false} MaskBits(mask: nat)
    requires mask < 8
    ensures mask as bv32 < 8
    ensures var m := mask as bv32;
      mask == (if m & 4 != 0 then 4 else 0) + (if m & 2 != 0 then 2 else 0) + (if m & 1 != 0 then 1 else 0)
  {
    if mask == 0 {} else if mask == 1 {} else if mask == 2 {} else if mask == 3 {}
    else if mask == 4 {} else if mask == 5 {} else if mask == 6 {} else {}
  }

  lemma {:induction false} JoinBits(c: bv32, m: bv32)
    requires c < 4 && m < 8
    ensures var d := (c << 3) | m;
      && d < 32 && (d & 1 == m & 1) && (d & 2 == m & 2) && (d & 4 == m & 4)
      && (d & 8 == 0 <==> c & 1 == 0) && (d & 16 == 0 <==> c & 2 == 0)
  {}

  lemma {:induction false} TypeDataFits(code: nat, mask: nat)
    requires code < 4 && mask < 8
    ensures TypeData(code, mask) < 32
  {
    MaskBits(code);
    MaskBits(mask);
    CodeFits(code);
    JoinBits(code as bv32, mask as bv32);
  }

  lemma {:induction false} CodeFits(code: nat)
    requires code < 4
    ensures code as bv32 < 4
  {
    if code == 0 {} else if code == 1 {} else if code == 2 {} else {}
  }

  lemma {:induction false} VersionFits(version: nat)
    requires version < 64
    ensures version as bv32 < 64
  {}

  /** The scanner finds the level and the mask pattern that were written. */
  lemma {:induction false} ScansTypeInfo(bits: bv32, code: nat, mask: nat, bit: nat -> bool)
    requires code < 4 && mask < 8 && IsTypeInfo(bits, TypeData(code, mask))
    requires forall k :: 0 <= k < 15 ==> bit(k) == Bit(bits, k)
    ensures ScannedMask(bit) == mask && ScannedCode(bit) == code
  {
    hide Bit;
    DataBits(bits, TypeData(code, mask));
    MaskBits(code);
    MaskBits(mask);
    JoinBits(code as bv32, mask as bv32);
  }
}
