/**
 MQTT 5.0 properties (class Properties and VariableByteIntegers, qml/utilities/paho/mqtt/properties.py):
 sections 1.5 and 2.2.2 of MQTT 5.0.  A property is named by its identifier; None stands for an exception.
 */
module MqttProperties {
  import opened Wrappers
  import opened Utf8
  import PacketReader

  // ---- the table -----------------------------------------------------------------------------

  datatype Kind = OneByte | TwoBytes | FourBytes | Vbi | Binary | Utf8String | StringPair

  function KindOf(id: nat): Option<Kind> {
    if id in {1, 23, 25, 36, 37, 40, 41, 42} then Some(OneByte)
    else if id in {19, 33, 34, 35} then Some(TwoBytes)
    else if id in {2, 17, 24, 39} then Some(FourBytes)
    else if id == 11 then Some(Vbi)
    else if id in {9, 22} then Some(Binary)
    else if id in {3, 8, 18, 21, 26, 28, 31} then Some(Utf8String)
    else if id == 38 then Some(StringPair)
    else None
  }

  const CONNECT := 1
  const CONNACK := 2
  const PUBLISH := 3
  const PUBACK := 4
  const PUBREC := 5
  const PUBREL := 6
  const PUBCOMP := 7
  const SUBSCRIBE := 8
  const SUBACK := 9
  const UNSUBSCRIBE := 10
  const UNSUBACK := 11
  const DISCONNECT := 14
  const AUTH := 15
  const WILLMESSAGE := 99

  /** The packet types a property applies to. */
  predicate AppliesTo(id: nat, packetType: nat) {
    if id in {1, 2, 3, 8, 9} then packetType in {PUBLISH, WILLMESSAGE}
    else if id == 11 then packetType in {PUBLISH, SUBSCRIBE}
    else if id == 17 then packetType in {CONNECT, CONNACK, DISCONNECT}
    else if id in {21, 22} then packetType in {CONNECT, CONNACK, AUTH}
    else if id in {23, 25} then packetType == CONNECT
    else if id == 24 then packetType == WILLMESSAGE
    else if id in {18, 19, 26, 36, 37, 40, 41, 42} then packetType == CONNACK
    else if id == 28 then packetType in {CONNACK, DISCONNECT}
    else if id == 31 then
      packetType in {CONNACK, PUBACK, PUBREC, PUBREL, PUBCOMP, SUBACK, UNSUBACK, DISCONNECT, AUTH}
    else if id in {33, 34, 39} then packetType in {CONNECT, CONNACK}
    else if id == 35 then packetType == PUBLISH
    else if id == 38 then
      packetType in {CONNECT, CONNACK, PUBLISH, PUBACK, PUBREC, PUBREL, PUBCOMP, SUBSCRIBE, SUBACK,
                     UNSUBSCRIBE, UNSUBACK, DISCONNECT, AUTH, WILLMESSAGE}
    else false
  }

  predicate AllowsMultiple(id: nat) {
    id == 11 || id == 38
  }

  /**
   Table 2-4 of MQTT 5.0 by identifier: the number of bytes of an integer, v for a variable byte integer, b for
   binary data, s for a string, p for a pair of strings; a capital may occur more than once.
   */
  function Table(): seq<char> {
    ".14s....sb.V.....4s2.sb141s.s..s.22211P4111"
  }

  function KindOfSymbol(c: char): Option<Kind> {
    if c == '1' then Some(OneByte)
    else if c == '2' then Some(TwoBytes)
    else if c == '4' then Some(FourBytes)
    else if c == 'V' then Some(Vbi)
    else if c == 'b' then Some(Binary)
    else if c == 's' then Some(Utf8String)
    else if c == 'P' then Some(StringPair)
    else None
  }

  /** The same table by packet: sections 3.1.2.11, 3.1.3.2, 3.2.2.3, 3.3.2.3, 3.4.2.2 to 3.11.2.1, 3.14.2.2 and 3.15.2.2. */
  function PropertiesOf(packetType: nat): set<nat> {
    if packetType == CONNECT then {17, 21, 22, 23, 25, 33, 34, 38, 39}
    else if packetType == CONNACK then {17, 18, 19, 21, 22, 26, 28, 31, 33, 34, 36, 37, 38, 39, 40, 41, 42}
    else if packetType == PUBLISH then {1, 2, 3, 8, 9, 11, 35, 38}
    else if packetType == WILLMESSAGE then {1, 2, 3, 8, 9, 24, 38}
    else if packetType == SUBSCRIBE then {11, 38}
    else if packetType == UNSUBSCRIBE then {38}
    else if packetType in {PUBACK, PUBREC, PUBREL, PUBCOMP, SUBACK, UNSUBACK} then {31, 38}
    else if packetType == DISCONNECT then {17, 28, 31, 38}
    else if packetType == AUTH then {21, 22, 31, 38}
    else {}
  }

  lemma {:induction false} KindIsStandard(id: nat)
    ensures KindOf(id) == if id < |Table()| then KindOfSymbol(Table()[id]) else None
    ensures AllowsMultiple(id) <==> id < |Table()| && (Table()[id] == 'V' || Table()[id] == 'P')
  {}

  lemma {:induction false} AppliesAsInStandard(id: nat, packetType: nat)
    ensures AppliesTo(id, packetType) <==> id in PropertiesOf(packetType)
  {}

  lemma {:induction false} IdsAreSmall(id: nat)
    ensures KindOf(id).Some? ==> 1 <= id <= 42
  {}

  // ---- values on the wire --------------------------------------------------------------------

  datatype Value = Num(n: nat) | Bin(bytes: seq<byte>) | Str(s: Text) | Pair(first: Text, second: Text)

  const MAX_VBI := 268435455

  function WriteInt16(n: nat): seq<byte>
    requires n <= 0xFFFF
  {
    [n / 256, n % 256]
  }

  function WriteInt32(n: nat): seq<byte>
    requires n <= 0xFFFFFFFF
  {
    [n / 0x1000000, n / 0x10000 % 256, n / 256 % 256, n % 256]
  }

  function ReadInt16(b: seq<byte>): (r: Option<nat>)
    ensures r.Some? ==> r.value <= 0xFFFF
  {
    if |b| < 2 then None else Some(b[0] as int * 256 + b[1])
  }

  function ReadInt32(b: seq<byte>): Option<nat> {
    if |b| < 4 then None
    else Some(b[0] as int * 0x1000000 + b[1] as int * 0x10000 + b[2] as int * 256 + b[3])
  }

  function EncodeVbi(n: nat): (r: seq<byte>)
    ensures r != []
  {
    PacketReader.LengthBytes(n)
  }

  /** Bytes up to the first one below 128, however many there are. */
  function DecodeVbi(b: seq<byte>): (r: Option<(nat, nat)>)
    ensures r.Some? ==> 1 <= r.value.1 <= |b|
  {
    if b == [] then None
    else if b[0] < 128 then Some((b[0], 1))
    else
      match DecodeVbi(b[1..])
      case None => None
      case Some((n, k)) => Some((b[0] % 128 + 128 * n, k + 1))
  }

  predicate CanEncode(s: Text) {
    IsText(s) && |Encode(s)| <= 0xFFFF
  }

  /** The values writeProperty has bytes for. */
  predicate InRange(kind: Kind, v: Value) {
    match kind
    case OneByte => v.Num? && v.n <= 255
    case TwoBytes => v.Num? && v.n <= 0xFFFF
    case FourBytes => v.Num? && v.n <= 0xFFFFFFFF
    case Vbi => v.Num? && v.n <= MAX_VBI
    case Binary => v.Bin? && |v.bytes| <= 0xFFFF
    case Utf8String => v.Str? && CanEncode(v.s)
    case StringPair => v.Pair? && CanEncode(v.first) && CanEncode(v.second)
  }

  function WriteUtf(s: Text): seq<byte>
    requires CanEncode(s)
  {
    WriteInt16(|Encode(s)|) + Encode(s)
  }

  function WriteValue(kind: Kind, v: Value): seq<byte>
    requires InRange(kind, v)
  {
    match kind
    case OneByte => [v.n]
    case TwoBytes => WriteInt16(v.n)
    case FourBytes => WriteInt32(v.n)
    case Vbi => EncodeVbi(v.n)
    case Binary => WriteInt16(|v.bytes|) + v.bytes
    case Utf8String => WriteUtf(v.s)
    case StringPair => WriteUtf(v.first) + WriteUtf(v.second)
  }

  /** Python's b[k:n], which stops at the end. */
  function Slice(b: seq<byte>, k: nat, n: nat): seq<byte>
    requires k <= n
  {
    if |b| <= k then [] else if |b| <= n then b[k..] else b[k..n]
  }

  predicate IsAllowed(s: Text) {
    0 !in s && 0xFEFF !in s
  }

  function ReadUtf(b: seq<byte>, maxlen: int): Option<(Text, nat)> {
    if maxlen < 2 then None
    else
      match ReadInt16(b)
      case None => None
      case Some(length) =>
        if length > maxlen - 2 then None
        else
          match Decode(Slice(b, 2, 2 + length))
          case None => None
          case Some(s) => if IsAllowed(s) then Some((s, length + 2)) else None
  }

  function ReadValue(kind: Kind, b: seq<byte>, left: int): Option<(Value, nat)> {
    match kind
    case OneByte => if b == [] then None else Some((Num(b[0]), 1))
    case TwoBytes => (match ReadInt16(b) case None => None case Some(n) => Some((Num(n), 2)))
    case FourBytes => (match ReadInt32(b) case None => None case Some(n) => Some((Num(n), 4)))
    case Vbi => (match DecodeVbi(b) case None => None case Some((n, k)) => Some((Num(n), k)))
    case Binary =>
      (match ReadInt16(b)
       case None => None
       case Some(length) => Some((Bin(Slice(b, 2, 2 + length)), length + 2)))
    case Utf8String => (match ReadUtf(b, left) case None => None case Some((s, k)) => Some((Str(s), k)))
    case StringPair =>
      (match ReadUtf(b, left)
       case None => None
       case Some((s, k)) =>
         match ReadUtf(Slice(b, k, k + |b|), left - k)
         case None => None
         case Some((t, j)) => Some((Pair(s, t), k + j)))
  }

  ghost predicate IsReadable(v: Value) {
    match v
    case Str(s) => IsAllowed(s)
    case Pair(s, t) => IsAllowed(s) && IsAllowed(t)
    case _ => true
  }

  lemma {:induction false} VbiRoundTrip(n: nat, tail: seq<byte>)
    ensures DecodeVbi(EncodeVbi(n) + tail) == Some((n, |EncodeVbi(n)|))
    decreases n
  {
    var b := EncodeVbi(n);
    if n >= 128 {
      VbiRoundTrip(n / 128, tail);
      assert (b + tail)[1..] == EncodeVbi(n / 128) + tail;
    }
  }

  lemma {:induction false} Int16RoundTrip(n: nat, tail: seq<byte>)
    requires n <= 0xFFFF
    ensures ReadInt16(WriteInt16(n) + tail) == Some(n)
    ensures (WriteInt16(n) + tail)[2..] == tail
  {}

  lemma {:induction false} Int32RoundTrip(n: nat, tail: seq<byte>)
    requires n <= 0xFFFFFFFF
    ensures ReadInt32(WriteInt32(n) + tail) == Some(n)
  {
    var x, y := n / 256, n / 0x10000;
    assert n == x * 256 + n % 256 && x == y * 256 + x % 256 && y == n / 0x1000000 * 256 + y % 256;
    var b := WriteInt32(n) + tail;
    assert b[0] == n / 0x1000000 && b[1] == y % 256 && b[2] == x % 256 && b[3] == n % 256;
  }

  lemma {:induction false} UtfRoundTrip(s: Text, tail: seq<byte>, maxlen: int)
    requires CanEncode(s) && IsAllowed(s) && maxlen >= |WriteUtf(s)|
    ensures ReadUtf(WriteUtf(s) + tail, maxlen) == Some((s, |WriteUtf(s)|))
  {
    hide WriteInt16, ReadInt16, Encode, Decode, IsAllowed;
    var e := Encode(s);
    var b := WriteUtf(s) + tail;
    assert b == WriteInt16(|e|) + (e + tail);
    assert |WriteInt16(|e|)| == 2 by { TwoLong(|e|); }
    Int16RoundTrip(|e|, e + tail);
    assert Slice(b, 2, 2 + |e|) == e;
    TextRoundTrip(s);
  }

  lemma {:induction false} TwoLong(n: nat)
    requires n <= 0xFFFF
    ensures |WriteInt16(n)| == 2
  {}

  /** A written value, followed by anything, is read back, and its length is known. */
  lemma {:induction false} ValueRoundTrip(kind: Kind, v: Value, tail: seq<byte>, left: int)
    requires InRange(kind, v) && IsReadable(v) && left >= |WriteValue(kind, v)|
    ensures ReadValue(kind, WriteValue(kind, v) + tail, left) == Some((v, |WriteValue(kind, v)|))
  {
    hide WriteInt16, ReadInt16, WriteInt32, ReadInt32, Encode, Decode, IsAllowed, EncodeVbi, DecodeVbi, ReadUtf, WriteUtf, CanEncode;
    match kind
    case OneByte =>
    case TwoBytes => Int16RoundTrip(v.n, tail); TwoLong(v.n);
    case FourBytes => Int32RoundTrip(v.n, tail); FourLong(v.n);
    case Vbi => VbiRoundTrip(v.n, tail);
    case Binary =>
      var k := |v.bytes|;
      TwoLong(k);
      assert WriteInt16(k) + v.bytes + tail == WriteInt16(k) + (v.bytes + tail);
      Int16RoundTrip(k, v.bytes + tail);
      assert Slice(WriteInt16(k) + v.bytes + tail, 2, 2 + k) == v.bytes;
    case Utf8String => UtfRoundTrip(v.s, tail, left);
    case StringPair =>
      var a, b := WriteUtf(v.first), WriteUtf(v.second);
      assert a + b + tail == a + (b + tail);
      UtfRoundTrip(v.first, b + tail, left);
      assert Slice(a + b + tail, |a|, |a| + |a + b + tail|) == b + tail;
      UtfRoundTrip(v.second, tail, left - |a|);
  }

  lemma {:induction false} FourLong(n: nat)
    requires n <= 0xFFFFFFFF
    ensures |WriteInt32(n)| == 4
  {}

  // ---- which values have bytes ---------------------------------------------------------------

  /** A number has at most four length bytes exactly up to 268435455. */
  lemma {:induction false} VbiInFourBytes(n: nat)
    ensures InRange(Vbi, Num(n)) <==> |EncodeVbi(n)| <= 4
  {
    assert |EncodeVbi(n)| <= 4 <==> n / 128 / 128 / 128 < 128 by { ShortLength(n); }
    ThreeTimes(n);
  }

  lemma {:induction false} ThreeTimes(n: nat)
    ensures n / 128 / 128 / 128 < 128 <==> n <= 268435455
  {}

  lemma {:induction false} ShortLength(n: nat)
    ensures |PacketReader.LengthBytes(n)| <= 4 <==> n / 128 / 128 / 128 < 128
  {
    var a, b := n / 128, n / 128 / 128;
    assert |PacketReader.LengthBytes(n)| == if n < 128 then 1 else 1 + |PacketReader.LengthBytes(a)|;
    assert |PacketReader.LengthBytes(a)| == if a < 128 then 1 else 1 + |PacketReader.LengthBytes(b)|;
    assert |PacketReader.LengthBytes(b)| == if b < 128 then 1 else 1 + |PacketReader.LengthBytes(b / 128)|;
  }

  /** What ReadUtf accepts lies within the bytes that are left, can be written again, and has no forbidden character. */
  lemma {:induction false} ReadUtfBounds(b: seq<byte>, maxlen: int)
    requires ReadUtf(b, maxlen).Some?
    ensures var (s, k) := ReadUtf(b, maxlen).value; k <= maxlen && CanEncode(s) && IsAllowed(s)
  {
    hide Encode, Decode;
    var (s, k) := ReadUtf(b, maxlen).value;
    DecodesExactly(Slice(b, 2, k), s);
  }

  /** U+0000 and U+FEFF are told by their bytes. */
  lemma {:induction false} ForbiddenForms(s: Text)
    requires IsText(s)
    ensures IsAllowed(s) <==> forall i :: 0 <= i < |s| ==> EncodeChar(s[i]) != [0] && EncodeChar(s[i]) != [0xEF, 0xBB, 0xBF]
  {
    hide EncodeChar, IsScalar;
    assert IsScalar(0) && IsScalar(0xFEFF) && EncodeChar(0) == [0] && EncodeChar(0xFEFF) == [0xEF, 0xBB, 0xBF] by { FormsOfForbidden(); }
    forall i | 0 <= i < |s|
      ensures (EncodeChar(s[i]) == [0] <==> s[i] == 0) && (EncodeChar(s[i]) == [0xEF, 0xBB, 0xBF] <==> s[i] == 0xFEFF)
    {
      CharRoundTrip(s[i], []);
      CharRoundTrip(0, []);
      CharRoundTrip(0xFEFF, []);
    }
  }

  lemma {:induction false} FormsOfForbidden()
    ensures IsScalar(0) && IsScalar(0xFEFF) && EncodeChar(0) == [0] && EncodeChar(0xFEFF) == [0xEF, 0xBB, 0xBF]
  {}

  /** With ValueRoundTrip: the values that can be written are those that can be read, but for long variable byte integers. */
  lemma {:induction false} ReadableCanBeWritten(kind: Kind, b: seq<byte>, left: int)
    requires ReadValue(kind, b, left).Some? && (kind.Vbi? ==> |EncodeVbi(ReadValue(kind, b, left).value.0.n)| <= 4)
    ensures InRange(kind, ReadValue(kind, b, left).value.0)
  {
    hide CanEncode, ReadUtf;
    match kind
    case OneByte =>
    case TwoBytes =>
    case FourBytes =>
    case Vbi => VbiInFourBytes(DecodeVbi(b).value.0);
    case Binary =>
    case Utf8String => ReadUtfBounds(b, left);
    case StringPair =>
      ReadUtfBounds(b, left);
      var (s, k) := ReadUtf(b, left).value;
      ReadUtfBounds(Slice(b, k, k + |b|), left - k);
  }

  // ---- attributes ----------------------------------------------------------------------------

  /** The attribute of a property: a value, or a list where the property may be repeated. */
  datatype Attr = One(v: Value) | Many(vs: seq<Value>)

  type Attrs = map<nat, Attr>

  /** The checks __setattr__ makes on a single value. */
  predicate Accepts(id: nat, v: Value) {
    && (id in {33, 35} ==> v.Num? && 1 <= v.n <= 0xFFFF)
    && (id == 34 ==> v.Num? && v.n <= 0xFFFF)
    && (id in {39, 11} ==> v.Num? && 1 <= v.n <= MAX_VBI)
    && (id in {1, 23, 25} ==> v.Num? && v.n <= 1)
  }

  /** The numbers that sections 3.1.2.11, 3.3.2.3 and 3.8.2.1 of MQTT 5.0 allow; a packet size also has to fit a length. */
  function Limits(id: nat): Option<(nat, nat)> {
    match id
    case 33 => Some((1, 65535))       // Receive Maximum
    case 35 => Some((1, 65535))       // Topic Alias
    case 34 => Some((0, 65535))       // Topic Alias Maximum
    case 39 => Some((1, 268435455))   // Maximum Packet Size
    case 11 => Some((1, 268435455))   // Subscription Identifier
    case 1 => Some((0, 1))            // Payload Format Indicator
    case 23 => Some((0, 1))           // Request Problem Information
    case 25 => Some((0, 1))           // Request Response Information
    case _ => None
  }

  lemma {:induction false} AcceptsWithinLimits(id: nat, v: Value)
    ensures Accepts(id, v) <==> (Limits(id).Some? ==> v.Num? && Limits(id).value.0 <= v.n <= Limits(id).value.1)
  {}

  function Values(a: Attr): seq<Value> {
    match a case One(v) => [v] case Many(vs) => vs
  }

  function Existing(attrs: Attrs, id: nat): seq<Value> {
    if id in attrs then Values(attrs[id]) else []
  }

  /** __setattr__ */
  function WithAttr(packetType: nat, attrs: Attrs, id: nat, a: Attr): Option<Attrs> {
    if KindOf(id).None? || !AppliesTo(id, packetType) || (a.One? && !Accepts(id, a.v)) then None
    else if AllowsMultiple(id) then
      Some(attrs[id := Many(Existing(attrs, id) + Values(a))])
    else Some(attrs[id := a])
  }

  // ---- pack ----------------------------------------------------------------------------------

  /** One property occurrence. */
  type Item = (nat, Value)

  predicate CanWrite(i: Item) {
    KindOf(i.0).Some? && InRange(KindOf(i.0).value, i.1)
  }

  function WriteItem(i: Item): seq<byte>
    requires CanWrite(i)
  {
    EncodeVbi(i.0) + WriteValue(KindOf(i.0).value, i.1)
  }

  ghost predicate CanWriteAll(items: seq<Item>) {
    forall k :: 0 <= k < |items| ==> CanWrite(items[k])
  }

  ghost function WriteAll(items: seq<Item>): seq<byte>
    requires CanWriteAll(items)
  {
    if items == [] then [] else WriteItem(items[0]) + WriteAll(items[1..])
  }

  function ItemsOf(id: nat, vs: seq<Value>): seq<Item> {
    if vs == [] then [] else [(id, vs[0])] + ItemsOf(id, vs[1..])
  }

  /** The occurrences in the order of the table, which is that of the identifiers. */
  function Items(attrs: Attrs, id: nat): seq<Item>
    decreases 43 - id
  {
    if id >= 43 then [] else (if id in attrs then ItemsOf(id, Values(attrs[id])) else []) + Items(attrs, id + 1)
  }

  /** A list stands only where the property may be repeated. */
  predicate IsShaped(attrs: Attrs) {
    forall id :: id in attrs && id < 43 ==> (attrs[id].Many? <==> AllowsMultiple(id))
  }

  // ---- unpack --------------------------------------------------------------------------------

  /** The properties in `left` bytes of the buffer, on top of the attributes that are there. */
  function ParseProperties(packetType: nat, attrs: Attrs, b: seq<byte>, left: int): Option<Attrs>
    decreases left
  {
    if left <= 0 then Some(attrs)
    else
      match DecodeVbi(b)
      case None => None
      case Some((id, k)) =>
        if KindOf(id).None? then None
        else
          match ReadValue(KindOf(id).value, b[k..], left - k)
          case None => None
          case Some((v, n)) =>
            if !AllowsMultiple(id) && id in attrs then None
            else
              match WithAttr(packetType, attrs, id, One(v))
              case None => None
              case Some(more) => ParseProperties(packetType, more, Slice(b, k + n, k + n + |b|), left - k - n)
  }

  // ---- the round trip ------------------------------------------------------------------------

  /** A value the specification allows for a property, in a form that can be written and read. */
  ghost predicate IsLegalItem(packetType: nat, i: Item) {
    CanWrite(i) && IsReadable(i.1) && Accepts(i.0, i.1) && AppliesTo(i.0, packetType)
  }

  ghost predicate IsLegal(packetType: nat, attrs: Attrs) {
    && IsShaped(attrs)
    && forall id :: id in attrs ==>
         Values(attrs[id]) != [] && forall k :: 0 <= k < |Values(attrs[id])| ==> IsLegalItem(packetType, (id, Values(attrs[id])[k]))
  }

  ghost predicate AreLegal(packetType: nat, items: seq<Item>) {
    forall k :: 0 <= k < |items| ==> IsLegalItem(packetType, items[k])
  }

  /** The attributes after all occurrences, set one after the other; None if one must not be repeated. */
  function SetAll(packetType: nat, attrs: Attrs, items: seq<Item>): Option<Attrs>
    decreases |items|
  {
    if items == [] then Some(attrs)
    else if !AllowsMultiple(items[0].0) && items[0].0 in attrs then None
    else
      match WithAttr(packetType, attrs, items[0].0, One(items[0].1))
      case None => None
      case Some(more) => SetAll(packetType, more, items[1..])
  }

  lemma {:induction false} ItemRoundTrip(i: Item, tail: seq<byte>, left: int)
    requires CanWrite(i) && IsReadable(i.1) && left >= |WriteItem(i)|
    ensures var b := WriteItem(i) + tail; var k := |EncodeVbi(i.0)|; var n := |WriteValue(KindOf(i.0).value, i.1)|;
      && DecodeVbi(b) == Some((i.0, k)) && k + n == |WriteItem(i)|
      && ReadValue(KindOf(i.0).value, b[k..], left - k) == Some((i.1, n))
      && Slice(b, k + n, k + n + |b|) == tail
  {
    hide EncodeVbi, DecodeVbi, WriteValue, ReadValue, KindOf, InRange, IsReadable;
    var a, c := EncodeVbi(i.0), WriteValue(KindOf(i.0).value, i.1);
    var b := WriteItem(i) + tail;
    assert b == a + (c + tail);
    VbiRoundTrip(i.0, c + tail);
    assert b[|a|..] == c + tail;
    ValueRoundTrip(KindOf(i.0).value, i.1, tail, left - |a|);
  }

  lemma {:induction false} ParseOne(packetType: nat, attrs: Attrs, i: Item, tail: seq<byte>, left: int)
    requires CanWrite(i) && IsReadable(i.1) && left >= |WriteItem(i)|
    ensures ParseProperties(packetType, attrs, WriteItem(i) + tail, left) ==
      if !AllowsMultiple(i.0) && i.0 in attrs then None
      else
        match WithAttr(packetType, attrs, i.0, One(i.1))
        case None => None
        case Some(more) => ParseProperties(packetType, more, tail, left - |WriteItem(i)|)
  {
    hide EncodeVbi, DecodeVbi, WriteValue, ReadValue, KindOf, InRange, IsReadable, WithAttr, AllowsMultiple, WriteItem, Slice;
    ItemRoundTrip(i, tail, left);
    assert left > 0;
  }

  /** Reading what was written sets the occurrences one after the other. */
  lemma {:induction false} ItemsRoundTrip(packetType: nat, attrs: Attrs, items: seq<Item>, tail: seq<byte>)
    requires AreLegal(packetType, items) && CanWriteAll(items)
    ensures ParseProperties(packetType, attrs, WriteAll(items) + tail, |WriteAll(items)|) == SetAll(packetType, attrs, items)
    decreases |items|
  {
    hide ParseProperties, WriteItem, CanWrite, IsReadable, WithAttr, Accepts, AppliesTo, AllowsMultiple;
    if items == [] {
      NoProperties(packetType, attrs, [] + tail);
    } else {
      var i, rest := items[0], WriteAll(items[1..]);
      assert IsLegalItem(packetType, i);
      assert WriteAll(items) + tail == WriteItem(i) + (rest + tail);
      ParseOne(packetType, attrs, i, rest + tail, |WriteAll(items)|);
      if WithAttr(packetType, attrs, i.0, One(i.1)).Some? {
        ItemsRoundTrip(packetType, WithAttr(packetType, attrs, i.0, One(i.1)).value, items[1..], tail);
      }
    }
  }

  lemma {:induction false} NoProperties(packetType: nat, attrs: Attrs, b: seq<byte>)
    ensures ParseProperties(packetType, attrs, b, 0) == Some(attrs)
  {}

  // ---- setting the occurrences again ---------------------------------------------------------

  function Below(attrs: Attrs, id: nat): Attrs {
    map i | i in attrs && i < id :: attrs[i]
  }

  lemma {:induction false} SetAllAppend(packetType: nat, attrs: Attrs, a: seq<Item>, b: seq<Item>)
    ensures SetAll(packetType, attrs, a + b) ==
      match SetAll(packetType, attrs, a) case None => None case Some(more) => SetAll(packetType, more, b)
    decreases |a|
  {
    hide WithAttr, AllowsMultiple;
    if a == [] {
      assert a + b == b;
    } else {
      assert (a + b)[1..] == a[1..] + b;
      var w := WithAttr(packetType, attrs, a[0].0, One(a[0].1));
      if w.Some? {
        SetAllAppend(packetType, w.value, a[1..], b);
      }
    }
  }

  lemma {:induction false} AddToList(packetType: nat, attrs: Attrs, id: nat, v: Value, rest: seq<Item>)
    requires AllowsMultiple(id) && IsLegalItem(packetType, (id, v))
    ensures SetAll(packetType, attrs, [(id, v)] + rest)
         == SetAll(packetType, attrs[id := Many(Existing(attrs, id) + [v])], rest)
  {
    hide CanWrite, IsReadable, Accepts, AppliesTo;
    KindOfLegal((id, v));
    assert ([(id, v)] + rest)[1..] == rest;
  }

  /** A repeated property gets its list back, in order. */
  lemma {:induction false} SetList(packetType: nat, attrs: Attrs, id: nat, vs: seq<Value>)
    requires AllowsMultiple(id) && vs != [] && forall k :: 0 <= k < |vs| ==> IsLegalItem(packetType, (id, vs[k]))
    ensures SetAll(packetType, attrs, ItemsOf(id, vs)) == Some(attrs[id := Many(Existing(attrs, id) + vs)])
    decreases |vs|
  {
    hide IsLegalItem, AllowsMultiple, SetAll, Existing;
    AddToList(packetType, attrs, id, vs[0], ItemsOf(id, vs[1..]));
    var more := attrs[id := Many(Existing(attrs, id) + [vs[0]])];
    if |vs| == 1 {
      assert vs == [vs[0]];
      NothingToSet(packetType, more);
    } else {
      SetList(packetType, more, id, vs[1..]);
      assert Existing(more, id) == Existing(attrs, id) + [vs[0]] by { ExistingAfter(attrs, id, Existing(attrs, id) + [vs[0]]); }
      assert Existing(attrs, id) + [vs[0]] + vs[1..] == Existing(attrs, id) + vs;
      assert more[id := Many(Existing(attrs, id) + vs)] == attrs[id := Many(Existing(attrs, id) + vs)];
    }
  }

  lemma {:induction false} ExistingAfter(attrs: Attrs, id: nat, vs: seq<Value>)
    ensures Existing(attrs[id := Many(vs)], id) == vs
  {}

  lemma {:induction false} KindOfLegal(i: Item)
    requires CanWrite(i)
    ensures KindOf(i.0).Some?
  {}

  lemma {:induction false} SetSingle(packetType: nat, attrs: Attrs, id: nat, v: Value)
    requires !AllowsMultiple(id) && IsLegalItem(packetType, (id, v)) && id !in attrs
    ensures SetAll(packetType, attrs, ItemsOf(id, [v])) == Some(attrs[id := One(v)])
  {
    hide CanWrite, IsReadable, Accepts, AppliesTo;
    KindOfLegal((id, v));
    assert ItemsOf(id, [v]) == [(id, v)];
  }

  lemma {:induction false} SetRest(packetType: nat, attrs: Attrs, id: nat)
    requires IsLegal(packetType, attrs)
    ensures SetAll(packetType, Below(attrs, id), Items(attrs, id)) == Some(Below(attrs, if id < 43 then 43 else id))
    decreases 43 - id
  {
    hide IsLegalItem, AllowsMultiple, SetAll;
    if id >= 43 {
      NothingToSet(packetType, Below(attrs, id));
    } else {
      var items := if id in attrs then ItemsOf(id, Values(attrs[id])) else [];
      if id in attrs {
        if AllowsMultiple(id) {
          SetList(packetType, Below(attrs, id), id, attrs[id].vs);
          assert [] + attrs[id].vs == attrs[id].vs;
        } else {
          assert Values(attrs[id])[0] == attrs[id].v;
          SetSingle(packetType, Below(attrs, id), id, attrs[id].v);
        }
        assert Below(attrs, id + 1) == Below(attrs, id)[id := attrs[id]];
      } else {
        NothingToSet(packetType, Below(attrs, id));
        assert Below(attrs, id + 1) == Below(attrs, id);
      }
      SetAllAppend(packetType, Below(attrs, id), items, Items(attrs, id + 1));
      SetRest(packetType, attrs, id + 1);
    }
  }

  lemma {:induction false} NothingToSet(packetType: nat, attrs: Attrs)
    ensures SetAll(packetType, attrs, []) == Some(attrs)
  {}

  lemma {:induction false} ItemsAreLegal(packetType: nat, attrs: Attrs, id: nat)
    requires IsLegal(packetType, attrs)
    ensures AreLegal(packetType, Items(attrs, id))
    decreases 43 - id
  {
    hide IsLegalItem, AllowsMultiple;
    if id < 43 {
      ItemsAreLegal(packetType, attrs, id + 1);
      if id in attrs {
        ItemsOfValues(id, Values(attrs[id]));
      }
    }
  }

  lemma {:induction false} ItemsOfValues(id: nat, vs: seq<Value>)
    ensures |ItemsOf(id, vs)| == |vs| && forall k :: 0 <= k < |vs| ==> ItemsOf(id, vs)[k] == (id, vs[k])
  {
    if vs != [] {
      ItemsOfValues(id, vs[1..]);
    }
  }

  lemma {:induction false} LegalCanBeWritten(packetType: nat, items: seq<Item>)
    requires AreLegal(packetType, items)
    ensures CanWriteAll(items)
  {
    hide CanWrite, IsReadable, Accepts, AppliesTo;
    forall k | 0 <= k < |items| ensures CanWrite(items[k]) {
      assert IsLegalItem(packetType, items[k]);
    }
  }

  /** pack and unpack as functions of the attributes. */
  ghost function Packed(attrs: Attrs): Option<seq<byte>> {
    var items := Items(attrs, 0);
    if !IsShaped(attrs) || !CanWriteAll(items) || |WriteAll(items)| > MAX_VBI then None
    else Some(EncodeVbi(|WriteAll(items)|) + WriteAll(items))
  }

  function Unpacked(packetType: nat, b: seq<byte>): Option<(Attrs, nat)> {
    match DecodeVbi(b)
    case None => None
    case Some((n, k)) =>
      match ParseProperties(packetType, map[], b[k..], n)
      case None => None
      case Some(attrs) => Some((attrs, n + k))
  }

  /** A legal property set comes back whole from its bytes, whatever follows them, with their exact length. */
  lemma {:induction false} PackRoundTrip(packetType: nat, attrs: Attrs, tail: seq<byte>)
    requires IsLegal(packetType, attrs)
    ensures Packed(attrs).Some? <==> CanWriteAll(Items(attrs, 0)) && |WriteAll(Items(attrs, 0))| <= MAX_VBI
    ensures CanWriteAll(Items(attrs, 0))
    ensures Packed(attrs).Some? ==>
      Unpacked(packetType, Packed(attrs).value + tail) == Some((attrs, |Packed(attrs).value|))
  {
    hide IsLegalItem, CanWrite, EncodeVbi, DecodeVbi, ParseProperties, SetAll, Items, WriteAll;
    var items := Items(attrs, 0);
    ItemsAreLegal(packetType, attrs, 0);
    LegalCanBeWritten(packetType, items);
    var body := WriteAll(items);
    var head := EncodeVbi(|body|);
    if |body| <= MAX_VBI {
      assert head + body + tail == head + (body + tail);
      VbiRoundTrip(|body|, body + tail);
      assert (head + (body + tail))[|head|..] == body + tail;
      ItemsRoundTrip(packetType, map[], items, tail);
      SetRest(packetType, attrs, 0);
      assert Below(attrs, 0) == map[];
      assert Below(attrs, 43) == attrs by { SmallKeys(packetType, attrs); }
    }
  }

  lemma {:induction false} SmallKeys(packetType: nat, attrs: Attrs)
    requires IsLegal(packetType, attrs)
    ensures forall id :: id in attrs ==> id < 43
  {
    forall id | id in attrs ensures id < 43 {
      assert IsLegalItem(packetType, (id, Values(attrs[id])[0]));
      IdsAreSmall(id);
    }
  }

  // ---- the classes ---------------------------------------------------------------------------

  /** VariableByteIntegers.encode; None stands for the failing assertion. */
  method EncodeVariableByteInteger(n: int) returns (r: Option<seq<byte>>)
    ensures r == if 0 <= n <= MAX_VBI then Some(EncodeVbi(n)) else None
  {
    if n < 0 || n > MAX_VBI {
      return None;
    }
    var buffer := PacketReader.PackRemainingLength([], n);
    assert [] + EncodeVbi(n) == EncodeVbi(n);
    r := Some(buffer);
  }

  /** VariableByteIntegers.decode; None stands for reading past the end. */
  method DecodeVariableByteInteger(b: seq<byte>) returns (r: Option<(nat, nat)>)
    ensures r == DecodeVbi(b)
  {
    var multiplier: nat, value: nat, bytes: nat := 1, 0, 0;
    var buffer := b;
    while buffer != []
      invariant bytes <= |b| && buffer == b[bytes..]
      invariant DecodeVbi(b) == Shifted(DecodeVbi(buffer), value, multiplier, bytes)
    {
      bytes := bytes + 1;
      var digit := buffer[0];
      ShiftOne(DecodeVbi(buffer[1..]), digit % 128, value, multiplier, bytes - 1);
      buffer := buffer[1..];
      value := value + digit % 128 * multiplier;
      if digit < 128 {
        return Some((value, bytes));
      }
      multiplier := multiplier * 128;
    }
    r := None;
  }

  /** A number read after k bytes with the given value and weight. */
  function Shifted(r: Option<(nat, nat)>, value: nat, multiplier: nat, k: nat): Option<(nat, nat)> {
    match r
    case None => None
    case Some((n, j)) => Some((value + n * multiplier, k + j))
  }

  lemma {:induction false} ShiftOne(r: Option<(nat, nat)>, digit: nat, value: nat, multiplier: nat, k: nat)
    ensures r.Some? ==>
      Shifted(Some((digit + 128 * r.value.0, r.value.1 + 1)), value, multiplier, k)
        == Shifted(r, value + digit * multiplier, multiplier * 128, k + 1)
  {
    if r.Some? {
      var n := r.value.0;
      assert (digit + 128 * n) * multiplier == digit * multiplier + n * (multiplier * 128);
    }
  }

  class Properties {
    const packetType: nat
    var attrs: Attrs

    constructor (packetType: nat)
      ensures this.packetType == packetType && attrs == map[]
    {
      this.packetType, attrs := packetType, map[];
    }

    /** __setattr__; ok is false where it raises. */
    method SetAttr(id: nat, a: Attr) returns (ok: bool)
      modifies this
      ensures ok <==> WithAttr(packetType, old(attrs), id, a).Some?
      ensures attrs == if ok then WithAttr(packetType, old(attrs), id, a).value else old(attrs)
      ensures ok && IsShaped(old(attrs)) && (a.Many? ==> AllowsMultiple(id)) ==> IsShaped(attrs)
    {
      if KindOf(id).None? || !AppliesTo(id, packetType) || (a.One? && !Accepts(id, a.v)) {
        return false;
      }
      var value := a;
      if AllowsMultiple(id) {
        value := Many(Values(a));
        if id in attrs {
          value := Many(Values(attrs[id]) + Values(a));
        } else {
          assert [] + Values(a) == Values(a);
        }
      }
      attrs := attrs[id := value];
      ok := true;
    }

    /** writeProperty */
    method WriteProperty(id: nat, v: Value) returns (r: Option<seq<byte>>)
      ensures r == if CanWrite((id, v)) then Some(WriteItem((id, v))) else None
    {
      r := if CanWrite((id, v)) then Some(WriteItem((id, v))) else None;
    }

    /** The occurrences of one property. */
    method WriteProperties(id: nat, vs: seq<Value>) returns (r: Option<seq<byte>>)
      ensures r == if CanWriteAll(ItemsOf(id, vs)) then Some(WriteAll(ItemsOf(id, vs))) else None
    {
      hide CanWrite, WriteItem;
      var buffer: seq<byte> := [];
      ItemsOfValues(id, vs);
      for k := 0 to |vs|
        invariant CanWriteAll(ItemsOf(id, vs[..k])) && buffer == WriteAll(ItemsOf(id, vs[..k]))
      {
        var bytes := WriteProperty(id, vs[k]);
        if bytes.None? {
          assert ItemsOf(id, vs)[k] == (id, vs[k]);
          return None;
        }
        OneMoreValue(id, vs, k);
        WriteOneMore(ItemsOf(id, vs[..k]), (id, vs[k]));
        buffer := buffer + bytes.value;
      }
      assert vs[..|vs|] == vs;
      r := Some(buffer);
    }

    /** pack */
    method Pack() returns (r: Option<seq<byte>>)
      ensures r == Packed(attrs)
    {
      hide CanWriteAll, WriteAll, EncodeVbi, AllowsMultiple, Items, ItemsOf;
      var buffer: seq<byte> := [];
      ghost var done: seq<Item>, all := [], Items(attrs, 0);
      NothingWritten();
      for id := 0 to 43
        invariant all == done + Items(attrs, id) && CanWriteAll(done) && buffer == WriteAll(done)
        invariant forall i :: i in attrs && i < id ==> (attrs[i].Many? <==> AllowsMultiple(i))
      {
        ItemsStep(attrs, id);
        if id in attrs {
          if attrs[id].Many? != AllowsMultiple(id) {
            return None;
          }
          ghost var items := ItemsOf(id, Values(attrs[id]));
          PartCanBeWritten(done, items, Items(attrs, id + 1));
          var bytes := WriteProperties(id, Values(attrs[id]));
          if bytes.None? {
            return None;
          }
          WriteBoth(done, items);
          done := done + items;
          buffer := buffer + bytes.value;
        }
      }
      ItemsStep(attrs, 43);
      assert done + [] == done;
      var head := EncodeVariableByteInteger(|buffer|);
      r := if head.None? then None else Some(head.value + buffer);
    }

    /** unpack: the number of bytes used; on an exception the attributes read so far stay. */
    method Unpack(buffer: seq<byte>) returns (r: Option<nat>)
      modifies this
      ensures match Unpacked(packetType, buffer)
        case None => r.None?
        case Some((all, n)) => r == Some(n) && attrs == all
    {
      hide ReadValue, WithAttr, AllowsMultiple, KindOf, DecodeVbi, AppliesTo, Accepts;
      attrs := map[];
      var length := DecodeVariableByteInteger(buffer);
      if length.None? {
        return None;
      }
      var (propslen, vbiLen) := length.value;
      var b, left: int := buffer[vbiLen..], propslen;
      ghost var result := ParseProperties(packetType, map[], b, left);
      while left > 0
        invariant ParseProperties(packetType, attrs, b, left) == result
      {
        var identifier := DecodeVariableByteInteger(b);
        if identifier.None? {
          return None;
        }
        var (id, k) := identifier.value;
        b, left := b[k..], left - k;
        if KindOf(id).None? {
          return None;
        }
        var value := ReadValue(KindOf(id).value, b, left);
        if value.None? {
          return None;
        }
        var (v, n) := value.value;
        b, left := Slice(b, n, n + |b|), left - n;
        if !AllowsMultiple(id) && id in attrs {
          return None;
        }
        var ok := SetAttr(id, One(v));
        if !ok {
          return None;
        }
      }
      r := Some(propslen + vbiLen);
    }
  }

  lemma {:induction false} NothingWritten()
    ensures CanWriteAll([]) && WriteAll([]) == []
  {}

  lemma {:induction false} OneMoreValue(id: nat, vs: seq<Value>, k: nat)
    requires k < |vs|
    ensures ItemsOf(id, vs[..k + 1]) == ItemsOf(id, vs[..k]) + [(id, vs[k])]
  {
    if k > 0 {
      OneMoreValue(id, vs[1..], k - 1);
      assert vs[..k + 1][1..] == vs[1..][..k] && vs[..k][1..] == vs[1..][..k - 1];
    }
  }

  lemma {:induction false} ItemsStep(attrs: Attrs, id: nat)
    ensures id < 43 && id in attrs ==> Items(attrs, id) == ItemsOf(id, Values(attrs[id])) + Items(attrs, id + 1)
    ensures id < 43 && id !in attrs ==> Items(attrs, id) == Items(attrs, id + 1)
    ensures id >= 43 ==> Items(attrs, id) == []
  {}

  lemma {:induction false} PartCanBeWritten(a: seq<Item>, b: seq<Item>, c: seq<Item>)
    ensures CanWriteAll(a + (b + c)) ==> CanWriteAll(b)
    ensures a + (b + c) == (a + b) + c
  {
    hide CanWrite;
    forall k | 0 <= k < |b| ensures (a + (b + c))[|a| + k] == b[k] {
    }
  }

  lemma {:induction false} WriteBoth(a: seq<Item>, b: seq<Item>)
    requires CanWriteAll(a) && CanWriteAll(b)
    ensures CanWriteAll(a + b) && WriteAll(a + b) == WriteAll(a) + WriteAll(b)
    decreases |b|
  {
    hide CanWrite, WriteItem;
    if b == [] {
      assert a + b == a;
    } else {
      var n := |b| - 1;
      assert b == b[..n] + [b[n]];
      WriteBoth(a, b[..n]);
      WriteOneMore(a + b[..n], b[n]);
      WriteOneMore(b[..n], b[n]);
      assert a + b == a + b[..n] + [b[n]];
    }
  }

  lemma {:induction false} WriteOneMore(items: seq<Item>, i: Item)
    requires CanWriteAll(items) && CanWrite(i)
    ensures CanWriteAll(items + [i]) && WriteAll(items + [i]) == WriteAll(items) + WriteItem(i)
    decreases |items|
  {
    hide CanWrite, WriteItem;
    if items == [] {
      assert WriteAll([i]) == WriteItem(i) + [];
      assert [] + [i] == [i];
    } else {
      assert (items + [i])[1..] == items[1..] + [i];
      WriteOneMore(items[1..], i);
    }
  }
}
