/** Bit strings and the byte list they are packed into (class BitBuffer, qml/utilities/qrcode/util.py:470-496). */
module BitBuffers {

  // ---- numbers as bit strings, most significant bit first ------------------------------------

  function Pow2(n: nat): (r: nat)
    ensures r > 0
  {
    if n == 0 then 1 else 2 * Pow2(n - 1)
  }

  /** The low n bits of num. */
  function NumBits(num: nat, n: nat): (r: seq<bool>)
    ensures |r| == n
  {
    if n == 0 then [] else NumBits(num / 2, n - 1) + [num % 2 == 1]
  }

  function Value(bits: seq<bool>): (r: nat)
    ensures r < Pow2(|bits|)
  {
    if bits == [] then 0
    else 2 * Value(bits[..|bits| - 1]) + if bits[|bits| - 1] then 1 else 0
  }

  /** A number survives the bit string if it fits. */
  lemma {:induction false} ValueOfNumBits(num: nat, n: nat)
    requires num < Pow2(n)
    ensures Value(NumBits(num, n)) == num
  {
    if n > 0 {
      ValueOfNumBits(num / 2, n - 1);
      assert NumBits(num, n)[..n - 1] == NumBits(num / 2, n - 1);
    }
  }

  lemma {:induction false} NumBitsAt(num: nat, n: nat, i: nat)
    requires i < n
    ensures NumBits(num, n)[i] == (num / Pow2(n - 1 - i) % 2 == 1)
  {
    if i < n - 1 {
      NumBitsAt(num / 2, n - 1, i);
      HalveFirst(num, n - 2 - i);
    }
  }

  lemma {:induction false} HalveFirst(num: nat, k: nat)
    ensures num / 2 / Pow2(k) == num / Pow2(k + 1)
  {
    var p, q := Pow2(k), num / 2 / Pow2(k);
    var r := num / 2 - q * p;
    assert 0 <= r < p;
    assert num == 2 * p * q + (2 * r + num % 2);
    Quotient(num, 2 * p, q, 2 * r + num % 2);
  }

  lemma {:induction false} Quotient(a: nat, b: nat, q: nat, r: nat)
    requires b > 0 && a == b * q + r && r < b
    ensures a / b == q
  {
    var q' := a / b;
    assert a == b * q' + a % b;
    ProductGap(b, q, q');
    ProductGap(b, q', q);
  }

  lemma {:induction false} ProductGap(b: nat, x: nat, y: nat)
    ensures x < y ==> b * x + b <= b * y
  {
    if x < y {
      assert b * y == b * x + b * (y - x);
      assert b * (y - x) == b + b * (y - x - 1);
    }
  }

  // ---- bits of a byte ------------------------------------------------------------------------

  /** Bit k of a byte, counted from the most significant one. */
  predicate BitAt(b: bv8, k: nat)
    requires k < 8
  {
    (b >> (7 - k)) & 1 == 1
  }

  function WithBit(b: bv8, k: nat): bv8
    requires k < 8
  {
    b | ((0x80 as bv8) >> k)
  }

  lemma {:induction false} WithBitAt(b: bv8, k: nat, j: nat)
    requires k < 8 && j < 8
    ensures BitAt(WithBit(b, k), j) == (j == k || BitAt(b, j))
    ensures !BitAt(0, j)
  {
    hide BitAt, Mask;
    ByMask(b, j);
    ByMask(0, j);
    ByMask(WithBit(b, k), j);
    MaskIsShift(k);
    OrMask(b, k, j);
  }

  lemma {:induction false} OrMask(b: bv8, k: nat, j: nat)
    requires k < 8 && j < 8
    ensures (b | Mask(k)) & Mask(j) != 0 <==> j == k || b & Mask(j) != 0
    ensures 0 & Mask(j) == 0
  {
    if k == 0 {} else if k == 1 {} else if k == 2 {} else if k == 3 {}
    else if k == 4 {} else if k == 5 {} else if k == 6 {} else {}
  }

  function Mask(k: nat): bv8
    requires k < 8
  {
    if k == 0 then 0x80 else if k == 1 then 0x40 else if k == 2 then 0x20 else if k == 3 then 0x10
    else if k == 4 then 0x08 else if k == 5 then 0x04 else if k == 6 then 0x02 else 0x01
  }

  lemma {:induction false} MaskIsShift(k: nat)
    requires k < 8
    ensures (0x80 as bv8) >> k == Mask(k)
  {
    if k == 0 {} else if k == 1 {} else if k == 2 {} else if k == 3 {}
    else if k == 4 {} else if k == 5 {} else if k == 6 {} else {}
  }

  lemma {:induction false} ByMask(b: bv8, k: nat)
    requires k < 8
    ensures BitAt(b, k) == (b & Mask(k) != 0)
  {
    if k == 0 {} else if k == 1 {} else if k == 2 {} else if k == 3 {}
    else if k == 4 {} else if k == 5 {} else if k == 6 {} else {}
  }

  /** The bits of a byte list, most significant bit of the first byte first. */
  function ByteBits(bytes: seq<bv8>): (r: seq<bool>)
    ensures |r| == 8 * |bytes|
  {
    seq(8 * |bytes|, i requires 0 <= i < 8 * |bytes| => BitAt(bytes[i / 8], i % 8))
  }

  lemma {:induction false} AppendZeroByte(bytes: seq<bv8>)
    ensures ByteBits(bytes + [0]) == ByteBits(bytes) + seq(8, _ => false)
  {
    hide BitAt;
    forall j | 0 <= j < 8 ensures !BitAt(0, j) {
      WithBitAt(0, 0, j);
    }
  }

  lemma {:induction false} SetOneBit(bytes: seq<bv8>, n: nat)
    requires n < 8 * |bytes|
    ensures ByteBits(bytes[n / 8 := WithBit(bytes[n / 8], n % 8)]) == ByteBits(bytes)[n := true]
  {
    hide BitAt, WithBit;
    var after := bytes[n / 8 := WithBit(bytes[n / 8], n % 8)];
    forall i | 0 <= i < 8 * |bytes| ensures ByteBits(after)[i] == ByteBits(bytes)[n := true][i] {
      WithBitAt(bytes[n / 8], n % 8, i % 8);
    }
  }

  // ---- the buffer ----------------------------------------------------------------------------

  class BitBuffer {
    var buffer: seq<bv8>
    var length: nat

    ghost predicate Valid()
      reads this
    {
      && |buffer| == (length + 7) / 8
      && forall i :: length <= i < 8 * |buffer| ==> !ByteBits(buffer)[i]
    }

    function Bits(): (r: seq<bool>)
      reads this
      requires Valid()
      ensures |r| == length
    {
      ByteBits(buffer)[..length]
    }

    constructor ()
      ensures Valid() && Bits() == []
    {
      buffer, length := [], 0;
    }

    method Get(index: nat) returns (bit: bool)
      requires Valid() && index < length
      ensures bit == Bits()[index]
    {
      bit := (buffer[index / 8] >> (7 - index % 8)) & 1 == 1;
    }

    method PutBit(bit: bool)
      requires Valid()
      modifies this
      ensures Valid() && Bits() == old(Bits()) + [bit]
    {
      hide ByteBits, WithBit;
      var index := length / 8;
      if |buffer| <= index {
        AppendZeroByte(buffer);
        buffer := buffer + [0];
      }
      if bit {
        SetOneBit(buffer, length);
        buffer := buffer[index := WithBit(buffer[index], length % 8)];
      }
      length := length + 1;
    }

    method Put(num: nat, bits: nat)
      requires Valid()
      modifies this
      ensures Valid() && Bits() == old(Bits()) + NumBits(num, bits)
    {
      for i := 0 to bits
        invariant Valid() && Bits() == old(Bits()) + NumBits(num, bits)[..i]
      {
        NumBitsAt(num, bits, i);
        PutBit(num / Pow2(bits - i - 1) % 2 == 1);
      }
    }
  }
}
