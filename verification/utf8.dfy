/** UTF-8 (RFC 3629), as far as readUTF and writeUTF in qml/utilities/paho/mqtt/properties.py rely on it. */
module Utf8 {
  import opened Wrappers

  /** A Unicode scalar value. */
  predicate IsScalar(c: nat) {
    c <= 0x10FFFF && !(0xD800 <= c <= 0xDFFF)
  }

  type Text = seq<nat>

  predicate IsText(s: Text) {
    forall i :: 0 <= i < |s| ==> IsScalar(s[i])
  }

  function EncodeChar(c: nat): (r: seq<byte>)
    requires IsScalar(c)
    ensures 1 <= |r| <= 4
  {
    if c < 0x80 then [c]
    else if c < 0x800 then [0xC0 + c / 64, 0x80 + c % 64]
    else if c < 0x10000 then [0xE0 + c / 4096, 0x80 + c / 64 % 64, 0x80 + c % 64]
    else [0xF0 + c / 262144, 0x80 + c / 4096 % 64, 0x80 + c / 64 % 64, 0x80 + c % 64]
  }

  function Encode(s: Text): seq<byte>
    requires IsText(s)
  {
    if s == [] then [] else EncodeChar(s[0]) + Encode(s[1..])
  }

  predicate IsTail(b: byte) {
    0x80 <= b < 0xC0
  }

  /** The first character and the number of its bytes; overlong forms and surrogates are refused. */
  function DecodeChar(b: seq<byte>): (r: Option<(nat, nat)>)
    requires b != []
    ensures r.Some? ==> 1 <= r.value.1 <= |b| && IsScalar(r.value.0)
  {
    if b[0] < 0x80 then Some((b[0], 1))
    else if 0xC0 <= b[0] < 0xE0 && |b| >= 2 && IsTail(b[1]) then
      var c := (b[0] as int - 0xC0) * 64 + (b[1] as int - 0x80);
      if c >= 0x80 then Some((c, 2)) else None
    else if 0xE0 <= b[0] < 0xF0 && |b| >= 3 && IsTail(b[1]) && IsTail(b[2]) then
      var c := (b[0] as int - 0xE0) * 4096 + (b[1] as int - 0x80) * 64 + (b[2] as int - 0x80);
      if c >= 0x800 && IsScalar(c) then Some((c, 3)) else None
    else if 0xF0 <= b[0] < 0xF8 && |b| >= 4 && IsTail(b[1]) && IsTail(b[2]) && IsTail(b[3]) then
      var c := (b[0] as int - 0xF0) * 262144 + (b[1] as int - 0x80) * 4096 + (b[2] as int - 0x80) * 64 + (b[3] as int - 0x80);
      if c >= 0x10000 && IsScalar(c) then Some((c, 4)) else None
    else None
  }

  function Decode(b: seq<byte>): (r: Option<Text>)
    ensures r.Some? ==> IsText(r.value)
  {
    if b == [] then Some([])
    else
      match DecodeChar(b)
      case None => None
      case Some((c, n)) =>
        match Decode(b[n..])
        case None => None
        case Some(more) => Some([c] + more)
  }

  lemma {:induction false} TwoDigits(c: nat)
    ensures c / 4096 == c / 64 / 64
  {}

  lemma {:induction false} ThreeDigits(c: nat)
    ensures c / 262144 == c / 4096 / 64
  {}

  lemma {:induction false} Digits(c: nat)
    ensures c == c / 64 * 64 + c % 64
    ensures c == c / 4096 * 4096 + c / 64 % 64 * 64 + c % 64
    ensures c == c / 262144 * 262144 + c / 4096 % 64 * 4096 + c / 64 % 64 * 64 + c % 64
  {
    TwoDigits(c);
    ThreeDigits(c);
    var x, y := c / 64, c / 4096;
    assert c == x * 64 + c % 64;
    assert x == y * 64 + x % 64;
    assert y == c / 262144 * 64 + y % 64;
  }

  lemma {:induction false} CharRoundTrip(c: nat, tail: seq<byte>)
    requires IsScalar(c)
    ensures DecodeChar(EncodeChar(c) + tail) == Some((c, |EncodeChar(c)|))
  {
    var e := EncodeChar(c);
    var b := e + tail;
    assert |b| >= |e| && forall i :: 0 <= i < |e| ==> b[i] == e[i];
    Digits(c);
    if c < 0x80 {
    } else if c < 0x800 {
    } else if c < 0x10000 {
    } else {
    }
  }

  lemma {:induction false} JoinDigits(high: nat, low: nat)
    requires low < 64
    ensures (high * 64 + low) / 64 == high && (high * 64 + low) % 64 == low
  {}

  /** What is decoded is the only form: overlong forms and surrogates are refused, and nothing else. */
  lemma {:induction false} CharIsEncoded(b: seq<byte>)
    requires b != [] && DecodeChar(b).Some?
    ensures var (c, n) := DecodeChar(b).value; b[..n] == EncodeChar(c)
  {
    if b[0] < 0x80 {
    } else {
      JoinDigits(b[0] as int - 0xC0, b[1] as int - 0x80);
      if b[0] >= 0xE0 {
        LongIsEncoded(b);
      }
    }
  }

  lemma {:induction false} LongIsEncoded(b: seq<byte>)
    requires b != [] && b[0] >= 0xE0 && DecodeChar(b).Some?
    ensures var (c, n) := DecodeChar(b).value; b[..n] == EncodeChar(c)
  {
    var (c, n) := DecodeChar(b).value;
    TwoDigits(c);
    ThreeDigits(c);
    var x := b[1] as int - 0x80;
    if b[0] < 0xF0 {
      var high := (b[0] as int - 0xE0) * 64 + x;
      JoinDigits(b[0] as int - 0xE0, x);
      JoinDigits(high, b[2] as int - 0x80);
    } else {
      var top := (b[0] as int - 0xF0) * 64 + x;
      var high := top * 64 + (b[2] as int - 0x80);
      JoinDigits(b[0] as int - 0xF0, x);
      JoinDigits(top, b[2] as int - 0x80);
      JoinDigits(high, b[3] as int - 0x80);
    }
  }

  /** Decoding succeeds exactly on encoded texts. */
  lemma {:induction false} DecodesExactly(b: seq<byte>, s: Text)
    ensures Decode(b) == Some(s) <==> IsText(s) && Encode(s) == b
    decreases |b|
  {
    if IsText(s) && Encode(s) == b {
      TextRoundTrip(s);
    }
    if Decode(b) == Some(s) {
      hide EncodeChar, DecodeChar, IsScalar;
      if b != [] {
        var (c, n) := DecodeChar(b).value;
        CharIsEncoded(b);
        DecodesExactly(b[n..], s[1..]);
        assert b == b[..n] + b[n..];
      }
    }
  }

  /** Seventeen planes of 65536 without the twenty-eighth block of 2048, the surrogates. */
  lemma {:induction false} ScalarsByBlocks(c: nat)
    ensures IsScalar(c) <==> c / 0x10000 < 17 && c / 2048 != 27
  {}

  lemma {:induction false} TextRoundTrip(s: Text)
    requires IsText(s)
    ensures Decode(Encode(s)) == Some(s)
  {
    hide EncodeChar, DecodeChar, IsScalar;
    if s != [] {
      CharRoundTrip(s[0], Encode(s[1..]));
      TextRoundTrip(s[1..]);
      assert Encode(s)[|EncodeChar(s[0])|..] == Encode(s[1..]);
      assert s == [s[0]] + s[1..];
    }
  }
}
