/**
 Data segments and their bit encoding (class QRData and create_data, qml/utilities/qrcode/util.py), and
 a decoder for the encoding of ISO/IEC 18004:2015, section 7.4.
 */
module Segments {
  import opened Wrappers
  import opened BitBuffers

  datatype Mode = Number | AlphaNum | Byte
  {
    /** The mode indicator. */
    function Indicator(): nat {
      match this
      case Number => 1
      case AlphaNum => 2
      case Byte => 4
    }
  }

  predicate IsDigit(c: byte) {
    48 <= c <= 57
  }

  /** Position in 0123456789ABCDEFGHIJKLMNOPQRSTUVWXYZ $%*+-./: or -1. */
  function AlphaValue(c: byte): (r: int)
    ensures -1 <= r < 45
  {
    if IsDigit(c) then c - 48
    else if 65 <= c <= 90 then c - 55
    else if c == 32 then 36
    else if 36 <= c <= 37 then c + 1
    else if 42 <= c <= 43 then c - 3
    else if 45 <= c <= 47 then c - 4
    else if c == 58 then 44
    else -1
  }

  function AlphaChar(v: nat): (c: byte)
    requires v < 45
    ensures AlphaValue(c) == v
  {
    if v < 10 then v + 48
    else if v < 36 then v + 55
    else if v == 36 then 32
    else if v < 39 then v - 1
    else if v < 41 then v + 3
    else if v < 44 then v + 4
    else 58
  }

  lemma {:induction false} AlphaRoundTrip(c: byte)
    requires AlphaValue(c) >= 0
    ensures AlphaChar(AlphaValue(c)) == c
  {}

  /** A segment; its bytes belong to the character set of its mode. */
  datatype QRData = QRData(mode: Mode, data: seq<byte>)
  {
    ghost predicate Valid() {
      match mode
      case Number => forall i :: 0 <= i < |data| ==> IsDigit(data[i])
      case AlphaNum => forall i :: 0 <= i < |data| ==> AlphaValue(data[i]) >= 0
      case Byte => true
    }
  }

  // ---- payloads ------------------------------------------------------------------------------

  function DigitValue(c: byte): nat
    requires IsDigit(c)
  {
    c as int - 48
  }

  /** The decimal number that the digits spell. */
  function Decimal(digits: seq<byte>): nat
    requires forall i :: 0 <= i < |digits| ==> IsDigit(digits[i])
  {
    if digits == [] then 0 else 10 * Decimal(digits[..|digits| - 1]) + DigitValue(digits[|digits| - 1])
  }

  /** Bits for a group of digits. */
  function NumberLength(count: nat): nat {
    if count == 3 then 10 else if count == 2 then 7 else 4
  }

  function Min(a: nat, b: nat): nat {
    if a < b then a else b
  }

  function NumberBits(data: seq<byte>): seq<bool>
    requires forall i :: 0 <= i < |data| ==> IsDigit(data[i])
  {
    if data == [] then []
    else
      var k := Min(3, |data|);
      NumBits(Decimal(data[..k]), NumberLength(k)) + NumberBits(data[k..])
  }

  function AlphaBits(data: seq<byte>): seq<bool>
    requires forall i :: 0 <= i < |data| ==> AlphaValue(data[i]) >= 0
  {
    if data == [] then []
    else if |data| == 1 then NumBits(AlphaValue(data[0]), 6)
    else NumBits(AlphaValue(data[0]) * 45 + AlphaValue(data[1]), 11) + AlphaBits(data[2..])
  }

  function BytesBits(data: seq<byte>): seq<bool> {
    if data == [] then [] else NumBits(data[0], 8) + BytesBits(data[1..])
  }

  function Payload(s: QRData): seq<bool>
    requires s.Valid()
  {
    match s.mode
    case Number => NumberBits(s.data)
    case AlphaNum => AlphaBits(s.data)
    case Byte => BytesBits(s.data)
  }

  /** QRData.write, numeric mode: groups of three digits. */
  method WriteNumber(data: seq<byte>, buffer: BitBuffer)
    requires (forall i :: 0 <= i < |data| ==> IsDigit(data[i])) && buffer.Valid()
    modifies buffer
    ensures buffer.Valid() && buffer.Bits() == old(buffer.Bits()) + NumberBits(data)
  {
    hide BitBuffer.Bits, BitBuffer.Valid, NumBits;
    ghost var before := buffer.Bits();
    var i := 0;
    while i < |data|
      invariant i <= |data| && buffer.Valid()
      invariant buffer.Bits() + NumberBits(data[i..]) == before + NumberBits(data)
    {
      var k := Min(3, |data| - i);
      var chars := data[i..i + k];
      assert data[i..][..k] == chars && data[i..][k..] == data[i + k..];
      var value := ParseDecimal(chars);
      Regroup(buffer.Bits(), NumBits(value, NumberLength(k)), NumberBits(data[i + k..]));
      buffer.Put(value, NumberLength(k));
      i := i + k;
    }
  }

  /** QRData.write, alphanumeric mode: pairs of characters. */
  method WriteAlpha(data: seq<byte>, buffer: BitBuffer)
    requires (forall i :: 0 <= i < |data| ==> AlphaValue(data[i]) >= 0) && buffer.Valid()
    modifies buffer
    ensures buffer.Valid() && buffer.Bits() == old(buffer.Bits()) + AlphaBits(data)
  {
    hide BitBuffer.Bits, BitBuffer.Valid, NumBits, AlphaValue;
    ghost var before := buffer.Bits();
    var i := 0;
    while i < |data|
      invariant i <= |data| && buffer.Valid()
      invariant buffer.Bits() + AlphaBits(data[i..]) == before + AlphaBits(data)
    {
      if i + 1 < |data| {
        var value := AlphaValue(data[i]) * 45 + AlphaValue(data[i + 1]);
        assert data[i..][2..] == data[i + 2..];
        Regroup(buffer.Bits(), NumBits(value, 11), AlphaBits(data[i + 2..]));
        buffer.Put(value, 11);
        i := i + 2;
      } else {
        buffer.Put(AlphaValue(data[i]), 6);
        i := i + 1;
      }
    }
  }

  /** QRData.write, byte mode. */
  method WriteBytes(data: seq<byte>, buffer: BitBuffer)
    requires buffer.Valid()
    modifies buffer
    ensures buffer.Valid() && buffer.Bits() == old(buffer.Bits()) + BytesBits(data)
  {
    hide BitBuffer.Bits, BitBuffer.Valid, NumBits;
    ghost var before := buffer.Bits();
    for i := 0 to |data|
      invariant buffer.Valid()
      invariant buffer.Bits() + BytesBits(data[i..]) == before + BytesBits(data)
    {
      assert data[i..][1..] == data[i + 1..];
      Regroup(buffer.Bits(), NumBits(data[i], 8), BytesBits(data[i + 1..]));
      buffer.Put(data[i], 8);
    }
  }

  lemma {:induction false} Regroup(a: seq<bool>, b: seq<bool>, c: seq<bool>)
    ensures (a + b) + c == a + (b + c)
  {}

  /** QRData.write. */
  method Write(s: QRData, buffer: BitBuffer)
    requires s.Valid() && buffer.Valid()
    modifies buffer
    ensures buffer.Valid() && buffer.Bits() == old(buffer.Bits()) + Payload(s)
  {
    match s.mode
    case Number => WriteNumber(s.data, buffer);
    case AlphaNum => WriteAlpha(s.data, buffer);
    case Byte => WriteBytes(s.data, buffer);
  }

  /** int(chars) on a string of digits. */
  method ParseDecimal(chars: seq<byte>) returns (value: nat)
    requires forall i :: 0 <= i < |chars| ==> IsDigit(chars[i])
    ensures value == Decimal(chars)
  {
    value := 0;
    for i := 0 to |chars|
      invariant value == Decimal(chars[..i])
    {
      assert chars[..i + 1][..i] == chars[..i];
      value := 10 * value + DigitValue(chars[i]);
    }
    assert chars[..|chars|] == chars;
  }

  // ---- reading payloads back -----------------------------------------------------------------

  /** The k digits of n, most significant first. */
  function Digits(n: nat, k: nat): (r: seq<byte>)
    ensures |r| == k
  {
    if k == 0 then [] else Digits(n / 10, k - 1) + [48 + n % 10]
  }

  function Pow10(k: nat): nat {
    if k == 0 then 1 else 10 * Pow10(k - 1)
  }

  lemma {:induction false} DigitsOfDecimal(digits: seq<byte>)
    requires forall i :: 0 <= i < |digits| ==> IsDigit(digits[i])
    ensures Digits(Decimal(digits), |digits|) == digits
    ensures Decimal(digits) < Pow10(|digits|)
  {
    if digits != [] {
      var n := |digits| - 1;
      DigitsOfDecimal(digits[..n]);
      assert digits == digits[..n] + [digits[n]];
    }
  }

  function ReadNumber(bits: seq<bool>, count: nat): (r: Option<(seq<byte>, seq<bool>)>)
    ensures r.Some? ==> |r.value.0| == count && |r.value.1| <= |bits|
    decreases count
  {
    if count == 0 then Some(([], bits))
    else
      var k := Min(3, count);
      // three bits and a third for each digit, rounded up
      var n := 3 * k + 1;
      if |bits| < n || Value(bits[..n]) >= Pow10(k) then None
      else
        match ReadNumber(bits[n..], count - k)
        case None => None
        case Some((data, rest)) => Some((Digits(Value(bits[..n]), k) + data, rest))
  }

  function ReadAlpha(bits: seq<bool>, count: nat): (r: Option<(seq<byte>, seq<bool>)>)
    ensures r.Some? ==> |r.value.0| == count && |r.value.1| <= |bits|
    decreases count
  {
    if count == 0 then Some(([], bits))
    else if count == 1 then
      if |bits| < 6 || Value(bits[..6]) >= 45 then None
      else Some(([AlphaChar(Value(bits[..6]))], bits[6..]))
    else if |bits| < 11 || Value(bits[..11]) >= 45 * 45 then None
    else
      match ReadAlpha(bits[11..], count - 2)
      case None => None
      case Some((data, rest)) =>
        Some(([AlphaChar(Value(bits[..11]) / 45), AlphaChar(Value(bits[..11]) % 45)] + data, rest))
  }

  function ReadBytes(bits: seq<bool>, count: nat): (r: Option<(seq<byte>, seq<bool>)>)
    ensures r.Some? ==> |r.value.0| == count && |r.value.1| <= |bits|
    decreases count
  {
    if count == 0 then Some(([], bits))
    else if |bits| < 8 then None
    else
      assert Pow2(8) == 256 by { SmallPowersOfTwo(); }
      match ReadBytes(bits[8..], count - 1)
      case None => None
      case Some((data, rest)) => Some(([Value(bits[..8])] + data, rest))
  }

  lemma {:induction false} SmallPowersOfTwo()
    ensures Pow2(4) == 16 && Pow2(6) == 64 && Pow2(7) == 128 && Pow2(8) == 256 && Pow2(9) == 512
    ensures Pow2(10) == 1024 && Pow2(11) == 2048 && Pow2(12) == 4096 && Pow2(13) == 8192
    ensures Pow2(14) == 16384 && Pow2(16) == 65536
  {
    assert Pow2(4) == 16;
    assert Pow2(8) == 256;
    assert Pow2(12) == 4096;
  }

  function ReadPayload(mode: Mode, bits: seq<bool>, count: nat): (r: Option<(seq<byte>, seq<bool>)>)
    ensures r.Some? ==> |r.value.0| == count && |r.value.1| <= |bits|
  {
    match mode
    case Number => ReadNumber(bits, count)
    case AlphaNum => ReadAlpha(bits, count)
    case Byte => ReadBytes(bits, count)
  }

  lemma {:induction false} FirstPart(a: seq<bool>, b: seq<bool>, c: seq<bool>, n: nat)
    requires |a| == n
    ensures ((a + b) + c)[..n] == a && ((a + b) + c)[n..] == b + c
  {}

  lemma {:induction false} NumberRoundTrip(data: seq<byte>, rest: seq<bool>)
    requires forall i :: 0 <= i < |data| ==> IsDigit(data[i])
    ensures ReadNumber(NumberBits(data) + rest, |data|) == Some((data, rest))
    decreases |data|
  {
    if data == [] {
      assert [] + rest == rest;
    } else {
      var k := Min(3, |data|);
      var value, n := Decimal(data[..k]), NumberLength(k);
      DigitsOfDecimal(data[..k]);
      SmallPowersOfTwo();
      assert Pow10(1) == 10 && Pow10(2) == 100 && Pow10(3) == 1000;
      ValueOfNumBits(value, n);
      FirstPart(NumBits(value, n), NumberBits(data[k..]), rest, n);
      NumberRoundTrip(data[k..], rest);
      TwoParts(data, k);
    }
  }

  lemma {:induction false} TwoParts<T>(s: seq<T>, k: nat)
    requires k <= |s|
    ensures s == s[..k] + s[k..]
  {}

  lemma {:induction false} AlphaRoundTrips(data: seq<byte>, rest: seq<bool>)
    requires forall i :: 0 <= i < |data| ==> AlphaValue(data[i]) >= 0
    ensures ReadAlpha(AlphaBits(data) + rest, |data|) == Some((data, rest))
    decreases |data|
  {
    hide NumBits, Value, AlphaValue, AlphaChar;
    if data == [] {
      assert [] + rest == rest;
    } else if |data| == 1 {
      assert data == [data[0]];
      LoneCharacter(data[0]);
      FirstPart(NumBits(AlphaValue(data[0]), 6), [], rest, 6);
      assert NumBits(AlphaValue(data[0]), 6) + [] == NumBits(AlphaValue(data[0]), 6);
      assert [] + rest == rest;
    } else {
      var v := AlphaValue(data[0]) * 45 + AlphaValue(data[1]);
      CharacterPair(data[0], data[1]);
      FirstPart(NumBits(v, 11), AlphaBits(data[2..]), rest, 11);
      AlphaRoundTrips(data[2..], rest);
      assert data == [data[0], data[1]] + data[2..];
    }
  }

  lemma {:induction false} LoneCharacter(c: byte)
    requires AlphaValue(c) >= 0
    ensures Value(NumBits(AlphaValue(c), 6)) == AlphaValue(c) < 45 && AlphaChar(AlphaValue(c)) == c
  {
    hide NumBits, Value;
    SmallPowersOfTwo();
    ValueOfNumBits(AlphaValue(c), 6);
    AlphaRoundTrip(c);
  }

  lemma {:induction false} CharacterPair(c: byte, d: byte)
    requires AlphaValue(c) >= 0 && AlphaValue(d) >= 0
    ensures var v := AlphaValue(c) * 45 + AlphaValue(d);
      Value(NumBits(v, 11)) == v < 45 * 45 && AlphaChar(v / 45) == c && AlphaChar(v % 45) == d
  {
    hide NumBits, Value;
    SmallPowersOfTwo();
    ValueOfNumBits(AlphaValue(c) * 45 + AlphaValue(d), 11);
    AlphaRoundTrip(c);
    AlphaRoundTrip(d);
  }

  lemma {:induction false} BytesRoundTrip(data: seq<byte>, rest: seq<bool>)
    ensures ReadBytes(BytesBits(data) + rest, |data|) == Some((data, rest))
    decreases |data|
  {
    SmallPowersOfTwo();
    if data == [] {
      assert [] + rest == rest;
    } else {
      ValueOfNumBits(data[0], 8);
      FirstPart(NumBits(data[0], 8), BytesBits(data[1..]), rest, 8);
      BytesRoundTrip(data[1..], rest);
      assert data == [data[0]] + data[1..];
    }
  }

  /** A segment's payload, followed by anything, reads back as its bytes. */
  lemma {:induction false} PayloadRoundTrip(s: QRData, rest: seq<bool>)
    requires s.Valid()
    ensures ReadPayload(s.mode, Payload(s) + rest, |s.data|) == Some((s.data, rest))
  {
    match s.mode
    case Number => NumberRoundTrip(s.data, rest);
    case AlphaNum => AlphaRoundTrips(s.data, rest);
    case Byte => BytesRoundTrip(s.data, rest);
  }
}
