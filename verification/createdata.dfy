/**
 The codewords of a symbol (create_data, qml/utilities/qrcode/util.py:551-584), and a reader that takes
 them back to segments as ISO/IEC 18004:2015, sections 7.4 and 7.6, tells a scanner to.
 */
module CreateData {
  import opened GF256
  import opened Wrappers
  import opened Polynomials
  import opened Generators
  import opened BitBuffers
  import opened Segments
  import opened Interleaving
  import opened ErrorCorrection
  import opened RSBlocks

  // ---- the bit stream ------------------------------------------------------------------------

  /** Width of the count field (mode_sizes_for_version). */
  function CountWidth(mode: Mode, version: nat): nat {
    if version < 10 then match mode case Number => 10 case AlphaNum => 9 case Byte => 8
    else if version < 27 then match mode case Number => 12 case AlphaNum => 11 case Byte => 16
    else match mode case Number => 14 case AlphaNum => 13 case Byte => 16
  }

  ghost predicate ValidList(list: seq<QRData>) {
    forall i :: 0 <= i < |list| ==> list[i].Valid()
  }

  function SegmentBits(s: QRData, version: nat): (r: seq<bool>)
    requires s.Valid()
    ensures |r| >= 4
  {
    NumBits(s.mode.Indicator(), 4) + NumBits(|s.data|, CountWidth(s.mode, version)) + Payload(s)
  }

  function StreamBits(list: seq<QRData>, version: nat): seq<bool>
    requires ValidList(list)
  {
    if list == [] then [] else SegmentBits(list[0], version) + StreamBits(list[1..], version)
  }

  // ---- reading the stream --------------------------------------------------------------------

  function ModeOf(indicator: nat): Option<Mode> {
    if indicator == 1 then Some(Number) else if indicator == 2 then Some(AlphaNum)
    else if indicator == 4 then Some(Byte) else None
  }

  /** The count fields of Table 3 in section 7.4.1: for versions 1 to 9, 10 to 26 and 27 to 40. */
  function FieldWidths(mode: Mode): seq<nat> {
    match mode
    case Number => [10, 12, 14]
    case AlphaNum => [9, 11, 13]
    case Byte => [8, 16, 16]
  }

  function FieldWidth(mode: Mode, version: nat): nat {
    FieldWidths(mode)[if version <= 9 then 0 else if version <= 26 then 1 else 2]
  }

  lemma {:induction false} WidthsAgree(mode: Mode, version: nat)
    ensures CountWidth(mode, version) == FieldWidth(mode, version)
  {}

  /** One segment from the front of the bits. */
  function ReadSegment(bits: seq<bool>, version: nat): (r: Option<(QRData, seq<bool>)>)
    requires |bits| >= 4
    ensures r.Some? ==> |r.value.1| < |bits|
  {
    match ModeOf(Value(bits[..4]))
    case None => None
    case Some(mode) =>
      var w := 4 + FieldWidth(mode, version);
      if |bits| < w then None
      else
        match ReadPayload(mode, bits[w..], Value(bits[4..w]))
        case None => None
        case Some((data, rest)) => Some((QRData(mode, data), rest))
  }

  /** Segments up to the terminator, or up to the end when fewer than four bits are left. */
  function Decode(bits: seq<bool>, version: nat): Option<seq<QRData>>
    decreases |bits|
  {
    if |bits| < 4 || Value(bits[..4]) == 0 then Some([])
    else
      match ReadSegment(bits, version)
      case None => None
      case Some((s, rest)) =>
        match Decode(rest, version)
        case None => None
        case Some(more) => Some([s] + more)
  }

  predicate CountFits(s: QRData, version: nat) {
    |s.data| < Pow2(CountWidth(s.mode, version))
  }

  predicate Ends(bits: seq<bool>) {
    |bits| < 4 || Value(bits[..4]) == 0
  }

  lemma {:induction false} SegmentRoundTrip(s: QRData, version: nat, rest: seq<bool>)
    requires s.Valid() && CountFits(s, version)
    ensures ReadSegment(SegmentBits(s, version) + rest, version) == Some((s, rest))
    ensures Value((SegmentBits(s, version) + rest)[..4]) == s.mode.Indicator()
  {
    hide Payload, NumBits, Value, CountWidth, FieldWidth, QRData.Valid, ReadPayload;
    WidthsAgree(s.mode, version);
    var a, b, c := NumBits(s.mode.Indicator(), 4), NumBits(|s.data|, CountWidth(s.mode, version)), Payload(s);
    var bits, w := SegmentBits(s, version) + rest, 4 + |b|;
    assert bits[..4] == a && bits[4..w] == b && bits[w..] == c + rest;
    IndicatorRoundTrip(s.mode);
    ValueOfNumBits(|s.data|, CountWidth(s.mode, version));
    PayloadRoundTrip(s, rest);
  }

  lemma {:induction false} IndicatorRoundTrip(mode: Mode)
    ensures Value(NumBits(mode.Indicator(), 4)) == mode.Indicator() && ModeOf(mode.Indicator()) == Some(mode)
  {
    hide NumBits, Value;
    SmallPowersOfTwo();
    ValueOfNumBits(mode.Indicator(), 4);
  }

  /** A stream of segments whose counts fit, however it ends, reads back as those segments. */
  lemma {:induction false} StreamRoundTrip(list: seq<QRData>, version: nat, tail: seq<bool>)
    requires ValidList(list) && (forall i :: 0 <= i < |list| ==> CountFits(list[i], version)) && Ends(tail)
    ensures Decode(StreamBits(list, version) + tail, version) == Some(list)
  {
    hide ReadSegment, SegmentBits, CountFits, Value, QRData.Valid;
    if list == [] {
      assert [] + tail == tail;
    } else {
      var rest := StreamBits(list[1..], version) + tail;
      assert StreamBits(list, version) + tail == SegmentBits(list[0], version) + rest;
      SegmentRoundTrip(list[0], version, rest);
      StreamRoundTrip(list[1..], version, tail);
      assert list == [list[0]] + list[1..];
    }
  }

  // ---- no count is truncated -----------------------------------------------------------------

  lemma {:induction false} NumberCost(data: seq<byte>)
    requires forall i :: 0 <= i < |data| ==> IsDigit(data[i])
    ensures 3 * |NumberBits(data)| >= 10 * |data|
    decreases |data|
  {
    if data != [] {
      NumberCost(data[Segments.Min(3, |data|)..]);
    }
  }

  lemma {:induction false} AlphaCost(data: seq<byte>)
    requires forall i :: 0 <= i < |data| ==> AlphaValue(data[i]) >= 0
    ensures 2 * |AlphaBits(data)| >= 11 * |data|
    decreases |data|
  {
    hide AlphaValue;
    if |data| >= 2 {
      AlphaCost(data[2..]);
    }
  }

  lemma {:induction false} BytesCost(data: seq<byte>)
    ensures |BytesBits(data)| == 8 * |data|
  {
    if data != [] {
      BytesCost(data[1..]);
    }
  }

  lemma {:induction false} SegmentFits(s: QRData, version: nat, level: Level)
    requires s.Valid() && 1 <= version <= 40 && |Payload(s)| <= BitLimit(version, level)
    ensures CountFits(s, version)
  {
    hide BitLimit, NumberBits, AlphaBits, BytesBits, Pow2;
    BitLimitBounds(version, level);
    SmallPowersOfTwo();
    match s.mode
    case Number => NumberCost(s.data);
    case AlphaNum => AlphaCost(s.data);
    case Byte => BytesCost(s.data);
  }

  /** Passing the overflow check means that every count fits its field. */
  lemma {:induction false} NoCountTruncated(list: seq<QRData>, version: nat, level: Level, i: nat)
    requires ValidList(list) && 1 <= version <= 40 && i < |list|
    requires |StreamBits(list, version)| <= BitLimit(version, level)
    ensures CountFits(list[i], version)
  {
    hide Payload, QRData.Valid, BitLimit, CountFits;
    if i == 0 {
      SegmentFits(list[0], version, level);
    } else {
      NoCountTruncated(list[1..], version, level, i - 1);
    }
  }

  // ---- padding -------------------------------------------------------------------------------

  function Falses(n: nat): (r: seq<bool>)
    ensures |r| == n
  {
    seq(n, _ => false)
  }

  /** n pad bytes, alternately 11101100 and 00010001. */
  function PadBits(n: nat): (r: seq<bool>)
    ensures |r| == 8 * n
  {
    if n == 0 then [] else PadBits(n - 1) + NumBits(if n % 2 == 1 then 0xEC else 0x11, 8)
  }

  /** Terminator, bits up to a byte boundary, pad bytes. */
  function Padding(length: nat, limit: nat): (r: seq<bool>)
    requires length <= limit && limit % 8 == 0
    ensures |r| == limit - length && Ends(r)
  {
    var terminator := Segments.Min(limit - length, 4);
    var delimit := (length + terminator) % 8;
    var fill := if delimit == 0 then 0 else 8 - delimit;
    var bytes := (limit - length - terminator - fill) / 8;
    var r := Falses(terminator) + (Falses(fill) + PadBits(bytes));
    assert |r| >= 4 ==> r[..4] == Falses(4);
    assert Value(Falses(4)) == 0 by { ValueOfFalses(4); }
    r
  }

  lemma {:induction false} PaddingParts(length: nat, limit: nat, fill: nat)
    requires length <= limit && limit % 8 == 0 && fill < 8
    requires (length + Segments.Min(limit - length, 4) + fill) % 8 == 0
    ensures var n := Segments.Min(limit - length, 4);
      length + n + fill <= limit
      && Padding(length, limit) == Falses(n) + (Falses(fill) + PadBits((limit - length - n - fill) / 8))
  {
    hide PadBits, Falses, Ends;
    FillOf(length + Segments.Min(limit - length, 4), fill, limit);
  }

  lemma {:induction false} FillOf(n: nat, fill: nat, limit: nat)
    requires fill < 8 && (n + fill) % 8 == 0 && n <= limit && limit % 8 == 0
    ensures fill == (if n % 8 == 0 then 0 else 8 - n % 8) && n + fill <= limit
  {
    var q := (n + fill) / 8;
    assert n == 8 * q - fill;
    assert limit == 8 * (limit / 8);
  }

  /** The pad bytes of section 7.4.10, first to last. */
  lemma {:induction false} PadBytesAlternate(n: nat, k: nat)
    requires k < n
    ensures Value(PadBits(n)[8 * k..8 * k + 8]) == if k % 2 == 0 then 236 else 17
  {
    hide NumBits, Value;
    if k == n - 1 {
      var pad := if n % 2 == 1 then 0xEC else 0x11;
      SmallPowersOfTwo();
      ValueOfNumBits(pad, 8);
      assert PadBits(n)[8 * k..8 * k + 8] == NumBits(pad, 8);
    } else {
      PadBytesAlternate(n - 1, k);
      assert PadBits(n)[8 * k..8 * k + 8] == PadBits(n - 1)[8 * k..8 * k + 8];
    }
  }

  lemma {:induction false} ValueOfFalses(n: nat)
    ensures Value(Falses(n)) == 0
  {
    if n > 0 {
      assert Falses(n)[..n - 1] == Falses(n - 1);
      ValueOfFalses(n - 1);
    }
  }

  lemma {:induction false} LimitIsBytes(version: nat, level: Level)
    requires 1 <= version <= 40
    ensures BitLimit(version, level) % 8 == 0
  {
    hide TableRow;
  }

  /** The full bit stream of a symbol. */
  function PaddedBits(list: seq<QRData>, version: nat, level: Level): (r: seq<bool>)
    requires ValidList(list) && 1 <= version <= 40
    requires |StreamBits(list, version)| <= BitLimit(version, level)
    ensures |r| == BitLimit(version, level)
  {
    LimitIsBytes(version, level);
    StreamBits(list, version) + Padding(|StreamBits(list, version)|, BitLimit(version, level))
  }

  lemma {:induction false} PaddedRoundTrip(list: seq<QRData>, version: nat, level: Level)
    requires ValidList(list) && 1 <= version <= 40
    requires |StreamBits(list, version)| <= BitLimit(version, level)
    ensures Decode(PaddedBits(list, version, level), version) == Some(list)
  {
    hide StreamBits, CountFits, BitLimit, Decode, QRData.Valid, Padding, Ends;
    forall i | 0 <= i < |list| ensures CountFits(list[i], version) {
      NoCountTruncated(list, version, level, i);
    }
    LimitIsBytes(version, level);
    StreamRoundTrip(list, version, Padding(|StreamBits(list, version)|, BitLimit(version, level)));
  }

  // ---- create_data ---------------------------------------------------------------------------

  datatype Outcome = Codewords(codewords: Poly) | DataOverflow | DivisionFails

  lemma {:induction false} StreamGrows(list: seq<QRData>, version: nat, i: nat)
    requires ValidList(list) && i < |list|
    ensures ValidList(list[..i]) && ValidList(list[..i + 1])
    ensures StreamBits(list[..i + 1], version) == StreamBits(list[..i], version) + SegmentBits(list[i], version)
  {
    hide SegmentBits, QRData.Valid;
    if i == 0 {
      assert list[..1][1..] == [];
      assert SegmentBits(list[0], version) + [] == SegmentBits(list[0], version);
      assert [] + SegmentBits(list[0], version) == SegmentBits(list[0], version);
    } else {
      assert list[..i + 1][1..] == list[1..][..i] && list[..i][1..] == list[1..][..i - 1];
      StreamGrows(list[1..], version, i - 1);
      Regroup(SegmentBits(list[0], version), StreamBits(list[1..][..i - 1], version), SegmentBits(list[i], version));
    }
  }

  method WriteSegments(version: nat, list: seq<QRData>, buffer: BitBuffer)
    requires ValidList(list) && buffer.Valid()
    modifies buffer
    ensures buffer.Valid() && buffer.Bits() == old(buffer.Bits()) + StreamBits(list, version)
  {
    hide BitBuffer.Bits, BitBuffer.Valid, NumBits, Payload, StreamBits, QRData.Valid;
    ghost var before := buffer.Bits();
    assert before + StreamBits(list[..0], version) == before by { NoSegments(list[..0], version, before); }
    for i := 0 to |list|
      invariant buffer.Valid() && ValidList(list[..i])
      invariant buffer.Bits() == before + StreamBits(list[..i], version)
    {
      StreamGrows(list, version, i);
      var s := list[i];
      ghost var now := buffer.Bits();
      buffer.Put(s.mode.Indicator(), 4);
      buffer.Put(|s.data|, CountWidth(s.mode, version));
      Write(s, buffer);
      assert buffer.Bits() == now + SegmentBits(s, version);
      Regroup(before, StreamBits(list[..i], version), SegmentBits(s, version));
    }
    assert list[..|list|] == list;
  }

  lemma {:induction false} NoSegments(list: seq<QRData>, version: nat, before: seq<bool>)
    requires list == []
    ensures before + StreamBits(list, version) == before
  {}

  /** Put n false bits. */
  method PutFalses(buffer: BitBuffer, n: nat)
    requires buffer.Valid()
    modifies buffer
    ensures buffer.Valid() && buffer.Bits() == old(buffer.Bits()) + Falses(n)
  {
    hide BitBuffer.Bits, BitBuffer.Valid;
    for i := 0 to n
      invariant buffer.Valid() && buffer.Bits() == old(buffer.Bits()) + Falses(i)
    {
      buffer.PutBit(false);
    }
  }

  /** Up to four terminator bits, then the rest of the last byte. */
  method PadToByte(buffer: BitBuffer, limit: nat)
    requires buffer.Valid() && buffer.length <= limit && limit % 8 == 0
    modifies buffer
    ensures buffer.Valid() && old(buffer.length) <= buffer.length <= limit && buffer.length % 8 == 0
    ensures var n := Segments.Min(limit - old(buffer.length), 4);
      var fill := buffer.length - old(buffer.length) - n;
      0 <= fill < 8 && buffer.Bits() == old(buffer.Bits()) + Falses(n) + Falses(fill)
  {
    hide BitBuffer.Bits, BitBuffer.Valid;
    PutFalses(buffer, Segments.Min(limit - buffer.length, 4));
    var delimit := buffer.length % 8;
    if delimit != 0 {
      PutFalses(buffer, 8 - delimit);
    } else {
      assert Falses(0) == [] && buffer.Bits() + [] == buffer.Bits();
    }
  }

  method PadWithBytes(buffer: BitBuffer, bytesToFill: nat)
    requires buffer.Valid()
    modifies buffer
    ensures buffer.Valid() && buffer.Bits() == old(buffer.Bits()) + PadBits(bytesToFill)
  {
    hide BitBuffer.Bits, BitBuffer.Valid, NumBits;
    assert buffer.Bits() + [] == buffer.Bits();
    for i := 0 to bytesToFill
      invariant buffer.Valid() && buffer.Bits() == old(buffer.Bits()) + PadBits(i)
    {
      Regroup(old(buffer.Bits()), PadBits(i), NumBits(if i % 2 == 0 then 0xEC else 0x11, 8));
      buffer.Put(if i % 2 == 0 then 0xEC else 0x11, 8);
    }
  }

  /** The terminator, the rest of its byte and the pad bytes. */
  method Pad(buffer: BitBuffer, limit: nat)
    requires buffer.Valid() && buffer.length <= limit && limit % 8 == 0
    modifies buffer
    ensures buffer.Valid() && buffer.length == limit
    ensures buffer.Bits() == old(buffer.Bits()) + Padding(old(buffer.length), limit)
  {
    hide BitBuffer.Bits, BitBuffer.Valid, PadBits, Falses, Padding;
    PadToByte(buffer, limit);
    var bytesToFill := (limit - buffer.length) / 8;
    ghost var n := Segments.Min(limit - old(buffer.length), 4);
    ghost var fill := buffer.length - old(buffer.length) - n;
    PadWithBytes(buffer, bytesToFill);
    Regroup(old(buffer.Bits()) + Falses(n), Falses(fill), PadBits(bytesToFill));
    Regroup(old(buffer.Bits()), Falses(n), Falses(fill) + PadBits(bytesToFill));
    PaddingParts(old(buffer.length), limit, fill);
  }

  /** Packed bytes of a bit string. */
  ghost predicate Packs(bytes: Poly, bits: seq<bool>) {
    ByteBits(bytes) == bits
  }

  /**
   create_data.  packed is the buffer's byte list.  The version is one that check_version accepted.
   */
  method CreateData(version: nat, level: Level, list: seq<QRData>) returns (r: Outcome, packed: Poly)
    requires 1 <= version <= 40 && ValidList(list)
    ensures r.DataOverflow? <==> |StreamBits(list, version)| > BitLimit(version, level)
    ensures !r.DataOverflow? ==> Packs(packed, PaddedBits(list, version, level))
    ensures !r.DataOverflow? ==> 8 * |packed| == BitLimit(version, level)
    ensures r.DivisionFails? <==> !r.DataOverflow? && HasZeroBlock(packed, BlockList(version, level))
    ensures r.Codewords? ==> Encodes(r.codewords, packed, BlockList(version, level))
  {
    hide StreamBits, QRData.Valid, Encodes, HasZeroBlock, InTable, BlockList, TableRow, BitBuffer.Bits, ByteBits;
    var buffer := new BitBuffer();
    WriteSegments(version, list, buffer);
    assert [] + StreamBits(list, version) == StreamBits(list, version);
    assert buffer.length == |StreamBits(list, version)|;
    var blocks := RsBlocks(version, level);
    BlockListSize(version, level);
    LimitIsBytes(version, level);
    var limit := 8 * SumSizes(blocks);
    packed := [];
    if buffer.length > limit {
      return DataOverflow, packed;
    }
    Pad(buffer, limit);
    packed := buffer.buffer;
    assert Packs(packed, PaddedBits(list, version, level)) by { FullBuffer(buffer); }
    BlockListFacts(version, level);
    var codewords := CreateBytes(packed, blocks);
    r := if codewords.None? then DivisionFails else Codewords(codewords.value);
  }

  function SumSizes(blocks: seq<RSBlock>): nat {
    Sum(DataSizes(blocks))
  }

  lemma {:induction false} FullBuffer(buffer: BitBuffer)
    requires buffer.Valid() && buffer.length % 8 == 0
    ensures buffer.length == 8 * |buffer.buffer| && ByteBits(buffer.buffer) == buffer.Bits()
  {}

  // ---- the whole way back --------------------------------------------------------------------

  /** What a scanner does with error-free codewords: data blocks apart, joined, read as segments. */
  function ReadCodewords(codewords: Poly, version: nat, level: Level): Option<seq<QRData>>
    requires 1 <= version <= 40
  {
    var sizes := DataSizes(BlockList(version, level));
    if |codewords| < Sum(sizes) then None
    else Decode(ByteBits(Join(Deinterleave(codewords[..Sum(sizes)], sizes))), version)
  }

  function Join<T>(parts: seq<seq<T>>): seq<T> {
    if parts == [] then [] else Join(parts[..|parts| - 1]) + parts[|parts| - 1]
  }

  lemma {:induction false} JoinOfStretches<T>(buffer: seq<T>, sizes: seq<nat>, parts: seq<seq<T>>, n: nat)
    requires n <= |sizes| == |parts| && Sum(sizes) <= |buffer|
    requires forall b :: 0 <= b < |sizes| ==> IsStretch(buffer, Sum(sizes[..b]), sizes[b], parts[b])
    ensures Sum(sizes[..n]) <= |buffer| && Join(parts[..n]) == buffer[..Sum(sizes[..n])]
  {
    if n > 0 {
      hide Sum, IsStretch, Join;
      JoinOfStretches(buffer, sizes, parts, n - 1);
      StretchInRange(sizes, n - 1);
      JoinOneMore(parts, n - 1);
      Adjoin(buffer, Sum(sizes[..n - 1]), sizes[n - 1], parts[n - 1]);
    } else {
      assert sizes[..0] == [] && parts[..0] == [];
    }
  }

  lemma {:induction false} JoinOneMore<T>(parts: seq<seq<T>>, n: nat)
    requires n < |parts|
    ensures Join(parts[..n + 1]) == Join(parts[..n]) + parts[n]
  {
    assert parts[..n + 1][..n] == parts[..n];
  }

  lemma {:induction false} Adjoin<T>(buffer: seq<T>, start: nat, size: nat, part: seq<T>)
    requires IsStretch(buffer, start, size, part)
    ensures start + size <= |buffer| && buffer[..start] + part == buffer[..start + size]
  {}

  predicate IsStretch<T(==)>(buffer: seq<T>, start: nat, size: nat, part: seq<T>) {
    start + size <= |buffer| && part == buffer[start..start + size]
  }

  /** The data codewords of the blocks, joined, are the buffer. */
  lemma {:induction false} JoinOfBlocks(buffer: Poly, blocks: seq<RSBlock>, parts: seq<Poly>)
    requires Sum(DataSizes(blocks)) == |buffer| && |blocks| == |parts|
    requires forall b :: 0 <= b < |blocks| ==> parts[b] == BlockData(buffer, blocks, b)
    ensures Join(parts) == buffer
  {
    hide Sum, Join;
    var sizes := DataSizes(blocks);
    forall b | 0 <= b < |sizes| ensures IsStretch(buffer, Sum(sizes[..b]), sizes[b], parts[b]) {
      StretchInRange(sizes, b);
    }
    JoinOfStretches(buffer, sizes, parts, |blocks|);
    assert sizes[..|blocks|] == sizes && parts[..|blocks|] == parts && buffer[..|buffer|] == buffer;
  }

  /** Segments survive the whole encoding: bit stream, padding, blocks, interleaving. */
  lemma {:induction false} CodewordsRoundTrip(version: nat, level: Level, list: seq<QRData>, packed: Poly, codewords: Poly)
    requires 1 <= version <= 40 && ValidList(list)
    requires |StreamBits(list, version)| <= BitLimit(version, level)
    requires Packs(packed, PaddedBits(list, version, level))
    requires Encodes(codewords, packed, BlockList(version, level))
    ensures ReadCodewords(codewords, version, level) == Some(list)
  {
    hide StreamBits, QRData.Valid, BlockList, TableRow, Decode, VanishesOn, PaddedBits, ByteBits, Deinterleave;
    hide BlockData, Join, Sum;
    var sizes := DataSizes(BlockList(version, level));
    BlockListSize(version, level);
    assert Sum(sizes) == |packed|;
    JoinOfBlocks(packed, BlockList(version, level), Deinterleave(codewords[..Sum(sizes)], sizes));
    PaddedRoundTrip(list, version, level);
  }

  // ---- a text that cannot be encoded ---------------------------------------------------------

  lemma {:induction false} BytesBitsOfZeros(n: nat)
    ensures BytesBits(seq(n, _ => 0)) == Falses(8 * n)
  {
    if n > 0 {
      assert (seq(n, _ => 0 as byte))[1..] == seq(n - 1, _ => 0);
      BytesBitsOfZeros(n - 1);
      NumBitsOfZero(8);
    }
  }

  lemma {:induction false} NumBitsOfZero(n: nat)
    ensures NumBits(0, n) == Falses(n)
  {
    if n > 0 {
      NumBitsOfZero(n - 1);
    }
  }

  lemma {:induction false} NoBitsIsZero(b: bv8)
    requires forall k :: 0 <= k < 8 ==> !BitAt(b, k)
    ensures b == 0
  {
    hide BitAt;
    forall k | 0 <= k < 8 ensures b & Mask(k) == 0 {
      ByMask(b, k);
    }
    AllMasks(b);
  }

  lemma {:induction false} AllMasks(b: bv8)
    requires b & Mask(0) == 0 && b & Mask(1) == 0 && b & Mask(2) == 0 && b & Mask(3) == 0
    requires b & Mask(4) == 0 && b & Mask(5) == 0 && b & Mask(6) == 0 && b & Mask(7) == 0
    ensures b == 0
  {}

  function NulText(): QRData {
    QRData(Byte, seq(32, _ => 0))
  }

  lemma {:induction false} NulTextBits()
    ensures |StreamBits([NulText()], 3)| == 268
    ensures forall k :: 12 <= k < 268 ==> !StreamBits([NulText()], 3)[k]
  {
    hide NumBits, BytesBits;
    BytesBitsOfZeros(32);
    assert StreamBits([NulText()], 3) == NumBits(4, 4) + NumBits(32, 8) + Falses(256);
  }

  lemma {:induction false} NulTextRow()
    ensures TableRow(3, Q) == One(2, 35, 17) && BitLimit(3, Q) == 272
  {}

  lemma {:induction false} NulTextBlocks()
    ensures BlockList(3, Q) == [RSBlock(35, 17), RSBlock(35, 17)] && BitLimit(3, Q) == 272
    ensures Sum(DataSizes(BlockList(3, Q))) == 34 && Sum(DataSizes(BlockList(3, Q))[..1]) == 17
  {
    hide TableRow, BitLimit;
    NulTextRow();
    assert BlockList(3, Q) == [RSBlock(35, 17), RSBlock(35, 17)];
    NulTextSizes(BlockList(3, Q));
  }

  lemma {:induction false} NulTextSizes(blocks: seq<RSBlock>)
    requires blocks == [RSBlock(35, 17), RSBlock(35, 17)]
    ensures Sum(DataSizes(blocks)) == 34 && Sum(DataSizes(blocks)[..1]) == 17
  {
    assert DataSizes(blocks) == [17, 17];
    assert [17, 17][..1] == [17] && [17][..0] == [];
  }

  /** The buffer of create_data, if the data fits. */
  ghost predicate IsBuffer(packed: Poly, list: seq<QRData>, version: nat, level: Level)
    requires ValidList(list) && 1 <= version <= 40
  {
    |StreamBits(list, version)| <= BitLimit(version, level) ==> Packs(packed, PaddedBits(list, version, level))
  }

  /**
   Thirty-two NUL bytes fit version 3 at level Q, whose second block then holds nothing but zeros, so
   create_data raises instead of returning codewords.
   */
  lemma {:induction false} NulTextFails(packed: Poly)
    requires ValidList([NulText()]) && IsBuffer(packed, [NulText()], 3, Q)
    ensures |StreamBits([NulText()], 3)| <= BitLimit(3, Q) && HasZeroBlock(packed, BlockList(3, Q))
  {
    hide StreamBits, ByteBits, BitAt, BlockList, TableRow, Sum;
    NulTextBits();
    NulTextBlocks();
    var blocks := BlockList(3, Q);
    assert Padding(268, 272) == Falses(4);
    forall i | 17 <= i < 34 ensures packed[i] == 0 {
      forall k | 0 <= k < 8 ensures !BitAt(packed[i], k) {
        ByteBitsAt(packed, i, k);
      }
      NoBitsIsZero(packed[i]);
    }
    assert AllZero(BlockData(packed, blocks, 1));
  }

  lemma {:induction false} ByteBitsAt(bytes: Poly, i: nat, k: nat)
    requires i < |bytes| && k < 8
    ensures ByteBits(bytes)[8 * i + k] == BitAt(bytes[i], k)
  {
    hide BitAt;
    assert (8 * i + k) / 8 == i && (8 * i + k) % 8 == k;
  }
}
