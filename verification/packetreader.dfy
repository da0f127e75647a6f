/**
 The incremental packet reader (_packet_read and loop_read, qml/utilities/paho/mqtt/client.py) against a
 one-shot parse of the byte stream (section 2.2 of MQTT 3.1.1).
 */
module PacketReader {
  import opened Wrappers

  datatype Packet = Packet(command: byte, body: seq<byte>)

  // ---- the stream, parsed in one go ----------------------------------------------------------

  /** Seven bits a byte, least significant first. */
  function LengthValue(s: seq<byte>): nat {
    if s == [] then 0 else s[0] % 128 + 128 * LengthValue(s[1..])
  }

  datatype Front = Incomplete | Malformed | Front(packet: Packet, rest: seq<byte>)

  /** Index of the last length byte, at most 4; 5 if the four of them all say that more follow. */
  function LengthEnd(s: seq<byte>, k: nat): (e: nat)
    requires 1 <= k <= 5
    ensures k <= e <= 5
    ensures forall i :: k <= i < e && i < |s| ==> s[i] >= 128
    ensures e < 5 && e < |s| ==> s[e] < 128
    decreases 5 - k
  {
    if k < 5 && (k >= |s| || s[k] >= 128) then LengthEnd(s, k + 1) else k
  }

  /** The packet at the front of a stream. */
  function Next(s: seq<byte>): (r: Front)
    ensures r.Front? ==> |r.rest| < |s|
  {
    var e := LengthEnd(s, 1);
    if e == 5 then if |s| > 5 then Malformed else Incomplete
    else if e >= |s| then Incomplete
    else
      var n := LengthValue(s[1..e + 1]);
      if |s| < e + 1 + n then Incomplete
      else Front(Packet(s[0], s[e + 1..e + 1 + n]), s[e + 1 + n..])
  }

  datatype Parsed = Parsed(packets: seq<Packet>, rest: seq<byte>, malformed: bool)

  function Parse(s: seq<byte>): Parsed
    decreases |s|
  {
    match Next(s)
    case Incomplete => Parsed([], s, false)
    case Malformed => Parsed([], s, true)
    case Front(p, rest) =>
      var more := Parse(rest);
      Parsed([p] + more.packets, more.rest, more.malformed)
  }

  lemma {:induction false} LengthEndGrows(s: seq<byte>, t: seq<byte>, k: nat)
    requires 1 <= k <= 5 && LengthEnd(s, k) < |s|
    ensures LengthEnd(s + t, k) == LengthEnd(s, k)
    decreases 5 - k
  {
    if k < 5 && (k >= |s| || s[k] >= 128) {
      LengthEndGrows(s, t, k + 1);
    }
  }

  /** A complete packet stays what it is when more bytes come. */
  lemma {:induction false} NextGrows(s: seq<byte>, t: seq<byte>)
    requires !Next(s).Incomplete?
    ensures Next(s + t) == match Next(s) case Front(p, rest) => Front(p, rest + t) case _ => Malformed
  {
    hide LengthEnd, LengthValue;
    var e := LengthEnd(s, 1);
    LengthEndGrows(s, t, 1);
    if e < 5 {
      assert (s + t)[1..e + 1] == s[1..e + 1];
      var n := LengthValue(s[1..e + 1]);
      assert (s + t)[e + 1..e + 1 + n] == s[e + 1..e + 1 + n];
      assert (s + t)[e + 1 + n..] == s[e + 1 + n..] + t;
    }
  }

  lemma {:induction false} ParseStep(s: seq<byte>)
    ensures Parse(s) == match Next(s)
      case Incomplete => Parsed([], s, false)
      case Malformed => Parsed([], s, true)
      case Front(p, rest) => Parsed([p] + Parse(rest).packets, Parse(rest).rest, Parse(rest).malformed)
  {
    hide Next;
  }

  lemma {:induction false} ParseGrows(s: seq<byte>, t: seq<byte>)
    requires !Parse(s).malformed
    ensures Parse(s + t).packets == Parse(s).packets + Parse(Parse(s).rest + t).packets
    ensures Parse(s + t).rest == Parse(Parse(s).rest + t).rest
    ensures Parse(s + t).malformed == Parse(Parse(s).rest + t).malformed
    decreases |s|
  {
    hide Next, Parse;
    ParseStep(s);
    match Next(s)
    case Incomplete =>
    case Malformed =>
    case Front(p, rest) =>
      NextGrows(s, t);
      ParseStep(s + t);
      ParseGrows(rest, t);
      var tail := Parse(Parse(rest).rest + t).packets;
      assert ([p] + Parse(rest).packets) + tail == [p] + (Parse(rest).packets + tail);
  }

  // ---- the reader, byte by byte --------------------------------------------------------------

  /**
   The fields of _in_packet, the packets handled so far, whether the next byte is taken for a command, and
   whether a fifth length byte has ended the connection.
   */
  datatype Reader = Reader(
    command: byte, haveRemaining: bool, count: nat, mult: nat, length: nat, packet: seq<byte>, toProcess: nat,
    handled: seq<Packet>, wantCommand: bool, malformed: bool)

  function Reset(handled: seq<Packet>): Reader {
    Reader(0, false, 0, 1, 0, [], 0, handled, true, false)
  }

  /** A call begins by reading a command if none is stored, and 0 counts as none. */
  function Start(r: Reader): Reader {
    if r.malformed then r else r.(wantCommand := r.command == 0)
  }

  function Feed(r: Reader, b: byte): Reader {
    if r.malformed then r
    else if r.wantCommand then r.(command := b, wantCommand := false)
    else if !r.haveRemaining then
      if r.count + 1 > 4 then r.(count := r.count + 1, malformed := true)
      else
        var length := r.length + b % 128 * r.mult;
        var more := r.(count := r.count + 1, mult := r.mult * 128, length := length);
        if b < 128 then more.(haveRemaining := true, toProcess := length) else more
    else if r.toProcess > 0 then r.(packet := r.packet + [b], toProcess := r.toProcess - 1)
    else r
  }

  /** A complete packet is handled and the fields are reset. */
  function Settle(r: Reader): Reader {
    if !r.malformed && !r.wantCommand && r.haveRemaining && r.toProcess == 0
    then Reset(r.handled + [Packet(r.command, r.packet)]) else r
  }

  function FeedAll(r: Reader, s: seq<byte>): Reader {
    if s == [] then r else Settle(Feed(FeedAll(r, s[..|s| - 1]), s[|s| - 1]))
  }

  // ---- the reader agrees with the parse ------------------------------------------------------

  predicate AllMore(s: seq<byte>) {
    forall i :: 0 <= i < |s| ==> s[i] >= 128
  }

  function Pow128(k: nat): nat {
    if k == 0 then 1 else 128 * Pow128(k - 1)
  }

  /** What the fields hold in the middle of a packet of which s has arrived. */
  ghost predicate Holds(r: Reader, s: seq<byte>) {
    && !r.malformed
    && if s == [] then r == Reset(r.handled)
       else
         && !r.wantCommand && r.command == s[0]
         && if !r.haveRemaining
            then
              && |s| <= 5 && AllMore(s[1..]) && r.count == |s| - 1 && r.mult == Pow128(|s| - 1)
              && r.length == LengthValue(s[1..]) && r.packet == [] && r.toProcess == 0
            else
              var e := LengthEnd(s, 1);
              && e < 5 && e < |s| && r.packet == s[e + 1..]
              && r.toProcess > 0 && |r.packet| + r.toProcess == LengthValue(s[1..e + 1])
  }

  lemma {:induction false} LengthValueAppend(s: seq<byte>, b: byte)
    ensures LengthValue(s + [b]) == LengthValue(s) + b % 128 * Pow128(|s|)
  {
    if s != [] {
      LengthValueAppend(s[1..], b);
      assert (s + [b])[1..] == s[1..] + [b];
      Regroup(b % 128, Pow128(|s| - 1));
    }
  }

  lemma {:induction false} Regroup(x: nat, y: nat)
    ensures 128 * (x * y) == x * (128 * y)
  {}

  lemma {:induction false} EndAfter(s: seq<byte>, k: nat, b: byte)
    requires 1 <= k <= |s| <= 5 && forall i :: k <= i < |s| ==> s[i] >= 128
    ensures LengthEnd(s, k) == 5
    ensures LengthEnd(s + [b], k) == if b < 128 && |s| < 5 then |s| else 5
    decreases 5 - k
  {
    if k < |s| {
      EndAfter(s, k + 1, b);
      assert (s + [b])[k] == s[k];
    } else {
      EndBeyond(s, k);
      if k < 5 && b >= 128 {
        EndBeyond(s + [b], k + 1);
      }
    }
  }

  lemma {:induction false} EndBeyond(s: seq<byte>, k: nat)
    requires 1 <= k <= 5 && k >= |s|
    ensures LengthEnd(s, k) == 5
    decreases 5 - k
  {
    if k < 5 {
      EndBeyond(s, k + 1);
    }
  }

  /** One byte in the length field. */
  lemma {:induction false} FeedLength(r: Reader, s: seq<byte>, b: byte)
    requires Holds(r, s) && s != [] && !r.haveRemaining
    ensures match Next(s + [b])
      case Incomplete => Holds(Settle(Feed(r, b)), s + [b]) && Settle(Feed(r, b)).handled == r.handled
      case Malformed => Settle(Feed(r, b)).malformed && Settle(Feed(r, b)).handled == r.handled
      case Front(p, rest) => rest == [] && Settle(Feed(r, b)) == Reset(r.handled + [p])
  {
    hide LengthEnd, LengthValue, Pow128;
    EndAfter(s, 1, b);
    assert (s + [b])[1..] == s[1..] + [b];
    LengthValueAppend(s[1..], b);
    assert Pow128(|s|) == Pow128(|s| - 1) * 128 by { PowStep(|s|); }
    if b < 128 && |s| < 5 {
      assert (s + [b])[1..|s| + 1] == s[1..] + [b] && (s + [b])[|s| + 1..] == [];
      var n := LengthValue(s[1..] + [b]);
      assert n == 0 ==> (s + [b])[|s| + 1..|s| + 1 + n] == [] && (s + [b])[|s| + 1 + n..] == [];
    }
  }

  lemma {:induction false} PowStep(k: nat)
    requires k > 0
    ensures Pow128(k) == Pow128(k - 1) * 128
  {}

  /** One byte in the body. */
  lemma {:induction false} FeedBody(r: Reader, s: seq<byte>, b: byte)
    requires Holds(r, s) && s != [] && r.haveRemaining
    ensures match Next(s + [b])
      case Incomplete => Holds(Settle(Feed(r, b)), s + [b]) && Settle(Feed(r, b)).handled == r.handled
      case Malformed => false
      case Front(p, rest) => rest == [] && Settle(Feed(r, b)) == Reset(r.handled + [p])
  {
    hide LengthEnd, LengthValue;
    var e := LengthEnd(s, 1);
    LengthEndGrows(s, [b], 1);
    assert (s + [b])[1..e + 1] == s[1..e + 1];
    assert (s + [b])[e + 1..] == s[e + 1..] + [b];
    if r.toProcess == 1 {
      var n := LengthValue(s[1..e + 1]);
      assert (s + [b])[e + 1..e + 1 + n] == s[e + 1..] + [b] && (s + [b])[e + 1 + n..] == [];
    }
  }

  lemma {:induction false} FeedOne(r: Reader, s: seq<byte>, b: byte)
    requires Holds(r, s)
    ensures match Next(s + [b])
      case Incomplete =>
        && Holds(Settle(Feed(r, b)), s + [b])
        && Settle(Feed(r, b)).handled == r.handled && !Settle(Feed(r, b)).malformed
      case Malformed => Settle(Feed(r, b)).malformed && Settle(Feed(r, b)).handled == r.handled
      case Front(p, rest) => rest == [] && Settle(Feed(r, b)) == Reset(r.handled + [p])
  {
    hide LengthEnd, LengthValue, Next;
    if s == [] {
      OneByte(r, b);
    } else if r.haveRemaining {
      FeedBody(r, s, b);
    } else {
      FeedLength(r, s, b);
    }
  }

  lemma {:induction false} OneByte(r: Reader, b: byte)
    requires Holds(r, [])
    ensures Next([] + [b]).Incomplete?
    ensures Holds(Settle(Feed(r, b)), [] + [b]) && Settle(Feed(r, b)).handled == r.handled
  {
    assert [] + [b] == [b] && [b][1..] == [];
    EndBeyond([b], 1);
  }

  lemma {:induction false} BetweenPackets(handled: seq<Packet>)
    ensures Holds(Reset(handled), [])
  {}

  /** Fed byte by byte without interruption, the reader handles the packets of the parse and keeps its rest. */
  lemma {:induction false} FeedAllParses(s: seq<byte>)
    ensures var r := FeedAll(Reset([]), s);
      && r.handled == Parse(s).packets && r.malformed == Parse(s).malformed
      && (!r.malformed ==> Holds(r, Parse(s).rest))
  {
    hide Feed, Settle, Next, Holds;
    if s == [] {
      EmptyStream();
    } else {
      var n := |s| - 1;
      var before := FeedAll(Reset([]), s[..n]);
      FeedAllParses(s[..n]);
      assert s[..n] + [s[n]] == s;
      if before.malformed {
        MalformedStays(s[..n], [s[n]]);
        DeadReader(before, s[n]);
      } else {
        ParseGrows(s[..n], [s[n]]);
        FeedOne(before, Parse(s[..n]).rest, s[n]);
        ParseOnce(Parse(s[..n]).rest + [s[n]]);
        BetweenPackets(Settle(Feed(before, s[n])).handled);
        assert before.handled + [] == before.handled;
      }
    }
  }

  lemma {:induction false} EmptyStream()
    ensures Parse([]) == Parsed([], [], false) && Holds(Reset([]), [])
  {
    EndBeyond([], 1);
  }

  lemma {:induction false} DeadReader(r: Reader, b: byte)
    requires r.malformed
    ensures Settle(Feed(r, b)) == r
  {}

  lemma {:induction false} MalformedStays(s: seq<byte>, t: seq<byte>)
    requires Parse(s).malformed
    ensures Parse(s + t).malformed && Parse(s + t).packets == Parse(s).packets
    ensures Parse(s).rest != [] && Parse(s + t).rest == Parse(s).rest + t
    decreases |s|
  {
    hide Next;
    NextGrows(s, t);
    if Next(s).Front? {
      MalformedStays(Next(s).rest, t);
    } else {
      MalformedIsLong(s);
    }
  }

  lemma {:induction false} MalformedIsLong(s: seq<byte>)
    requires Next(s).Malformed?
    ensures |s| > 5
  {}

  lemma {:induction false} ParseOnce(s: seq<byte>)
    ensures match Next(s)
      case Incomplete => Parse(s) == Parsed([], s, false)
      case Malformed => Parse(s).packets == [] && Parse(s).malformed
      case Front(p, rest) => rest == [] ==> Parse(s) == Parsed([p], [], false)
  {
    hide Next;
    EmptyStream();
  }

  // ---- calls that end anywhere ---------------------------------------------------------------

  /** The bytes one call of _packet_read receives; capped if its hundredth read of the body was its last. */
  datatype Call = Call(seen: seq<byte>, capped: bool)

  function RunCall(r: Reader, c: Call): Reader {
    var start := Settle(Start(r));
    if c.capped && c.seen != []
    then Feed(FeedAll(start, c.seen[..|c.seen| - 1]), c.seen[|c.seen| - 1])
    else FeedAll(start, c.seen)
  }

  function Run(calls: seq<Call>): Reader {
    if calls == [] then Reset([]) else RunCall(Run(calls[..|calls| - 1]), calls[|calls| - 1])
  }

  function Bytes(calls: seq<Call>): seq<byte> {
    if calls == [] then [] else Bytes(calls[..|calls| - 1]) + calls[|calls| - 1].seen
  }

  /** No packet of the stream, complete or begun, has command byte 0. */
  ghost predicate NoZeroCommand(s: seq<byte>) {
    && (forall i :: 0 <= i < |Parse(s).packets| ==> Parse(s).packets[i].command != 0)
    && (Parse(s).rest != [] ==> Parse(s).rest[0] != 0)
  }

  lemma {:induction false} FeedAllAppend(r: Reader, s: seq<byte>, t: seq<byte>)
    ensures FeedAll(r, s + t) == FeedAll(FeedAll(r, s), t)
    decreases |t|
  {
    if t == [] {
      assert s + t == s;
    } else {
      var n := |t| - 1;
      FeedAllAppend(r, s, t[..n]);
      assert (s + t)[..|s + t| - 1] == s + t[..n];
    }
  }

  lemma {:induction false} FirstCommand(s: seq<byte>)
    requires NoZeroCommand(s) && s != []
    ensures s[0] != 0
  {
    hide LengthEnd, LengthValue;
    match Next(s)
    case Front(p, rest) => assert Parse(s).packets[0] == p;
    case _ =>
  }

  lemma {:induction false} NoZeroBefore(s: seq<byte>, t: seq<byte>)
    requires NoZeroCommand(s + t)
    ensures NoZeroCommand(s)
  {
    hide Next;
    if Parse(s).malformed {
      MalformedStays(s, t);
    } else {
      ParseGrows(s, t);
      forall i | 0 <= i < |Parse(s).packets| ensures Parse(s).packets[i].command != 0 {
        assert Parse(s).packets[i] == Parse(s + t).packets[i];
      }
      var more := Parse(s).rest + t;
      forall i | 0 <= i < |Parse(more).packets| ensures Parse(more).packets[i].command != 0 {
        assert Parse(more).packets[i] == Parse(s + t).packets[|Parse(s).packets| + i];
      }
      if more != [] {
        FirstCommand(more);
      }
    }
  }

  /** Starting a call changes nothing unless a packet with command 0 is under way. */
  lemma {:induction false} StartIsHarmless(s: seq<byte>)
    requires NoZeroCommand(s)
    ensures var r := FeedAll(Reset([]), s); Settle(Start(r)) == r
  {
    hide Parse, FeedAll;
    FeedAllParses(s);
  }

  predicate IsPending(r: Reader) {
    !r.malformed && !r.wantCommand && r.haveRemaining && r.toProcess == 0
  }

  /**
   However the stream is cut into calls, the reader is where an uninterrupted reader would be, except that
   the hundredth read may leave a complete packet to the next call.
   */
  lemma {:induction false} CutsDoNotMatter(calls: seq<Call>)
    requires NoZeroCommand(Bytes(calls))
    ensures Settle(Run(calls)) == FeedAll(Reset([]), Bytes(calls))
    ensures IsPending(Run(calls)) ==> Run(calls).command != 0 && calls != [] && calls[|calls| - 1].capped
  {
    hide FeedAll, Feed, NoZeroCommand;
    if calls == [] {
      FeedNothing(Reset([]));
    } else {
      var n := |calls| - 1;
      var c, s := calls[n], Bytes(calls[..n]);
      NoZeroBefore(s, c.seen);
      CutsDoNotMatter(calls[..n]);
      var r, f := Run(calls[..n]), FeedAll(Reset([]), s);
      StartIsHarmless(s);
      assert Settle(Start(r)) == f;
      FeedAllAppend(Reset([]), s, c.seen);
      FeedLast(f, c.seen);
      SettledNotPending(Reset([]), s);
      SettledNotPending(Reset([]), s + c.seen);
      if c.seen != [] {
        CommandOfPending(s, c.seen);
      }
    }
  }

  lemma {:induction false} FeedNothing(r: Reader)
    ensures FeedAll(r, []) == r
  {}

  lemma {:induction false} FeedLast(r: Reader, s: seq<byte>)
    ensures s != [] ==> FeedAll(r, s) == Settle(Feed(FeedAll(r, s[..|s| - 1]), s[|s| - 1]))
  {}

  lemma {:induction false} SettledNotPending(r: Reader, s: seq<byte>)
    requires !IsPending(r)
    ensures !IsPending(FeedAll(r, s))
  {}

  /** A packet left to the next call is one of the stream's packets, so its command is not 0. */
  lemma {:induction false} CommandOfPending(s: seq<byte>, t: seq<byte>)
    requires t != [] && NoZeroCommand(s + t)
    ensures var r := Feed(FeedAll(FeedAll(Reset([]), s), t[..|t| - 1]), t[|t| - 1]); IsPending(r) ==> r.command != 0
  {
    hide Parse, FeedAll, Feed;
    FeedAllAppend(Reset([]), s, t);
    FeedLast(FeedAll(Reset([]), s), t);
    FeedAllParses(s + t);
    var r := Feed(FeedAll(FeedAll(Reset([]), s), t[..|t| - 1]), t[|t| - 1]);
    if IsPending(r) {
      var ps := Parse(s + t).packets;
      assert ps == r.handled + [Packet(r.command, r.packet)];
      assert ps[|ps| - 1].command == r.command;
    }
  }

  /** The last call made its hundredth read, and with it ended on the end of a packet. */
  ghost predicate IsHeldBack(calls: seq<Call>) {
    && calls != [] && calls[|calls| - 1].capped && calls[|calls| - 1].seen != []
    && !Parse(Bytes(calls)).malformed && Parse(Bytes(calls)).rest == []
  }

  lemma {:induction false} FedWantsNoCommand(r: Reader, b: byte)
    ensures Feed(r, b).malformed || !Feed(r, b).wantCommand
  {}

  lemma {:induction false} NothingOfPacket(r: Reader, s: seq<byte>)
    requires Holds(r, s)
    ensures !r.malformed && (r.wantCommand <==> s == [])
  {}

  /** Exactly then a packet waits for the next call. */
  lemma {:induction false} PendingExactly(calls: seq<Call>)
    requires NoZeroCommand(Bytes(calls))
    ensures IsPending(Run(calls)) <==> IsHeldBack(calls)
  {
    hide Parse, FeedAll, NoZeroCommand, Feed, Holds;
    CutsDoNotMatter(calls);
    FeedAllParses(Bytes(calls));
    var f := FeedAll(Reset([]), Bytes(calls));
    if !f.malformed {
      NothingOfPacket(f, Parse(Bytes(calls)).rest);
    }
    if calls != [] {
      var n := |calls| - 1;
      var c := calls[n];
      if c.seen != [] {
        FedWantsNoCommand(FeedAll(Settle(Start(Run(calls[..n]))), c.seen[..|c.seen| - 1]), c.seen[|c.seen| - 1]);
      }
      if !c.capped || c.seen == [] {
        SettledRun(calls);
      }
    }
  }

  lemma {:induction false} SettledRun(calls: seq<Call>)
    requires calls != [] && (!calls[|calls| - 1].capped || calls[|calls| - 1].seen == [])
    ensures !IsPending(Run(calls))
  {}

  /** What reaches _packet_handle: the packets of the stream in order, all but one that is held back. */
  lemma {:induction false} HandledInOrder(calls: seq<Call>)
    requires NoZeroCommand(Bytes(calls))
    ensures var packets := Parse(Bytes(calls)).packets;
      && (!IsHeldBack(calls) ==> Run(calls).handled == packets)
      && (IsHeldBack(calls) ==> packets != [] && Run(calls).handled == packets[..|packets| - 1])
  {
    hide Parse, FeedAll, Run, NoZeroCommand, IsHeldBack;
    PendingExactly(calls);
    CutsDoNotMatter(calls);
    FeedAllParses(Bytes(calls));
    if IsPending(Run(calls)) {
      var packets := Parse(Bytes(calls)).packets;
      assert packets == Run(calls).handled + [Packet(Run(calls).command, Run(calls).packet)];
    }
  }

  // ---- command byte 0 ------------------------------------------------------------------------

  function OneByOne(s: seq<byte>): (r: seq<Call>)
    ensures |r| == |s|
  {
    seq(|s|, i requires 0 <= i < |s| => Call([s[i]], false))
  }

  ghost predicate Uncapped(calls: seq<Call>) {
    forall i :: 0 <= i < |calls| ==> !calls[i].capped
  }

  ghost predicate Skips(r: Reader) {
    && (forall i :: 0 <= i < |r.handled| ==> r.handled[i].command != 0)
    && (r.haveRemaining ==> r.toProcess > 0 && r.command != 0)
  }

  lemma {:induction false} SkipsOneMore(r: Reader, b: byte)
    requires Skips(r)
    ensures Skips(Settle(Feed(Settle(Start(r)), b)))
  {}

  /** Read one byte a call, the reader takes byte after byte for the command until one is not 0. */
  lemma {:induction false} OneByOneSkipsZero(s: seq<byte>)
    ensures Bytes(OneByOne(s)) == s && Skips(Run(OneByOne(s)))
  {
    hide Feed, Settle, Start, Skips;
    if s == [] {
      NothingSkipped();
    } else {
      var n := |s| - 1;
      OneByOneSkipsZero(s[..n]);
      assert OneByOne(s)[..n] == OneByOne(s[..n]);
      SkipsOneMore(Run(OneByOne(s[..n])), s[n]);
      OneByteCall(Settle(Start(Run(OneByOne(s[..n])))), s[n]);
    }
  }

  lemma {:induction false} NothingSkipped()
    ensures Skips(Reset([]))
  {}

  lemma {:induction false} OneByteCall(r: Reader, b: byte)
    ensures FeedAll(r, [b]) == Settle(Feed(r, b))
  {
    assert FeedAll(r, [b][..0]) == r;
  }

  /** A stream of whole packets is read the same however it is cut, if and only if no command byte is 0. */
  lemma {:induction false} CutsAgreeExactly(s: seq<byte>)
    requires !Parse(s).malformed && Parse(s).rest == []
    ensures (forall calls :: Bytes(calls) == s && Uncapped(calls) ==> Run(calls).handled == Parse(s).packets)
       <==> forall i :: 0 <= i < |Parse(s).packets| ==> Parse(s).packets[i].command != 0
  {
    hide Parse, Run, Bytes;
    if NoZeroCommand(s) {
      forall calls | Bytes(calls) == s && Uncapped(calls) ensures Run(calls).handled == Parse(s).packets {
        HandledInOrder(calls);
      }
    } else {
      OneByOneSkipsZero(s);
      assert Uncapped(OneByOne(s));
    }
  }

  // ---- the sending side ----------------------------------------------------------------------

  /** The remaining length as it is sent. */
  function LengthBytes(n: nat): seq<byte> {
    if n < 128 then [n] else [n % 128 + 128] + LengthBytes(n / 128)
  }

  /** _pack_remaining_length */
  method PackRemainingLength(packet: seq<byte>, remainingLength: nat) returns (r: seq<byte>)
    ensures r == packet + LengthBytes(remainingLength)
  {
    r := packet;
    var rest := remainingLength;
    while true
      invariant r + LengthBytes(rest) == packet + LengthBytes(remainingLength)
      decreases rest
    {
      var digit := rest % 128;
      ghost var before, was := r, rest;
      rest := rest / 128;
      if rest > 0 {
        digit := digit + 128;
      }
      r := r + [digit];
      if rest == 0 {
        return;
      }
      assert LengthBytes(was) == [digit] + LengthBytes(rest);
      assert r + LengthBytes(rest) == before + ([digit] + LengthBytes(rest));
    }
  }

  function Encode(p: Packet): seq<byte> {
    [p.command] + LengthBytes(|p.body|) + p.body
  }

  function EncodeAll(packets: seq<Packet>): seq<byte> {
    if packets == [] then [] else Encode(packets[0]) + EncodeAll(packets[1..])
  }

  const MAX_LENGTH := 268435455

  lemma {:induction false} LengthBytesAreRead(n: nat, before: seq<byte>, tail: seq<byte>)
    requires 1 <= |before| <= 4
    ensures var s := before + LengthBytes(n) + tail; var e := LengthEnd(s, |before|);
      && LengthBytes(n) != []
      && (n < Pow128(5 - |before|) ==> e < 5 && e + 1 == |before| + |LengthBytes(n)| && e < |s|)
      && (n >= Pow128(5 - |before|) ==> e == 5 && |s| > 5)
    decreases n
  {
    var s, k := before + LengthBytes(n) + tail, |before|;
    assert s[k] == LengthBytes(n)[0];
    PowGrows(5 - k);
    if n >= 128 {
      hide Pow128;
      var next := before + [n % 128 + 128];
      assert next + LengthBytes(n / 128) + tail == s;
      assert LengthEnd(s, k) == LengthEnd(s, k + 1);
      if k == 4 {
        assert LengthBytes(n / 128) != [];
      } else {
        LengthBytesAreRead(n / 128, next, tail);
      }
    }
  }

  lemma {:induction false} PowGrows(k: nat)
    requires k > 0
    ensures Pow128(k) == 128 * Pow128(k - 1) >= 128 && Pow128(0) == 1
  {
    PowPositive(k - 1);
  }

  lemma {:induction false} PowPositive(k: nat)
    ensures Pow128(k) >= 1
  {
    if k > 0 {
      PowPositive(k - 1);
    }
  }

  lemma {:induction false} ValueOfLengthBytes(n: nat)
    ensures LengthValue(LengthBytes(n)) == n
  {
    if n >= 128 {
      ValueOfLengthBytes(n / 128);
      assert LengthBytes(n)[1..] == LengthBytes(n / 128);
    }
  }

  /** A sent packet is read back exactly if its length fits four bytes; otherwise the reader ends the connection. */
  lemma {:induction false} SentIsRead(p: Packet, tail: seq<byte>)
    ensures |p.body| <= MAX_LENGTH ==> Next(Encode(p) + tail) == Front(p, tail)
    ensures |p.body| > MAX_LENGTH ==> Next(Encode(p) + tail) == Malformed
  {
    hide LengthBytes, LengthValue, LengthEnd;
    var n := |p.body|;
    var bytes := LengthBytes(n);
    var s := [p.command] + bytes + (p.body + tail);
    assert s == Encode(p) + tail;
    LengthBytesAreRead(n, [p.command], p.body + tail);
    FourBytes();
    if n <= MAX_LENGTH {
      var e := LengthEnd(s, 1);
      assert s[1..e + 1] == bytes;
      ValueOfLengthBytes(n);
      assert s[e + 1..e + 1 + n] == p.body && s[e + 1 + n..] == tail;
    }
  }

  lemma {:induction false} FourBytes()
    ensures Pow128(4) == MAX_LENGTH + 1
  {
    assert Pow128(2) == 16384;
  }

  /** Streams of packets that fit come back packet by packet. */
  lemma {:induction false} SentStreamIsRead(packets: seq<Packet>)
    requires forall i :: 0 <= i < |packets| ==> |packets[i].body| <= MAX_LENGTH
    ensures Parse(EncodeAll(packets)) == Parsed(packets, [], false)
  {
    hide Next, Encode;
    if packets == [] {
      EmptyStream();
    } else {
      SentIsRead(packets[0], EncodeAll(packets[1..]));
      SentStreamIsRead(packets[1..]);
      assert packets == [packets[0]] + packets[1..];
    }
  }

  // ---- the client ----------------------------------------------------------------------------

  /** What the network does to one recv call; a chunk longer than asked for is handed out in parts. */
  datatype Event = WouldBlock | ConnectionError | Chunk(data: seq<byte>)

  datatype Recv = Blocked | Failed | Data(data: seq<byte>)

  /** The bytes that are still to come. */
  function Coming(script: seq<Event>): seq<byte> {
    if script == [] then [] else (if script[0].Chunk? then script[0].data else []) + Coming(script[1..])
  }

  /** recv gives the next bytes of the connection, at most n; it blocks when there are none yet. */
  predicate Answers(r: Recv, script: seq<Event>, rest: seq<Event>, n: nat) {
    if script == [] then r.Blocked? && rest == []
    else match script[0]
    case WouldBlock => r.Blocked? && rest == script[1..]
    case ConnectionError => r.Failed? && rest == script[1..]
    case Chunk(data) =>
      r.Data? && if |data| <= n then r.data == data && rest == script[1..]
                 else |r.data| == n && rest != [] && rest[1..] == script[1..] && rest[0].Chunk? && r.data + rest[0].data == data
  }

  lemma {:induction false} NothingIsLost(r: Recv, script: seq<Event>, rest: seq<Event>, n: nat)
    requires Answers(r, script, rest, n)
    ensures Coming(script) == (if r.Data? then r.data else []) + Coming(rest)
  {}

  class Socket {
    var script: seq<Event>
    ghost var received: seq<byte>
    /** Everything the network ever delivers. */
    ghost const stream: seq<byte>
    /** How often recv would have blocked, and how often it found the connection gone. */
    ghost var blocked: nat
    ghost var lost: nat

    /** What has been received and what is to come are the whole stream: nothing lost, repeated or out of order. */
    ghost predicate Intact()
      reads this
    {
      received + Coming(script) == stream
    }

    constructor (script: seq<Event>)
      ensures received == [] && Intact() && stream == Coming(script)
    {
      this.script, received, blocked, lost := script, [], 0, 0;
      stream := Coming(script);
    }

    method SockRecv(n: nat) returns (r: Recv)
      requires n > 0
      modifies this
      ensures Answers(r, old(script), script, n) && (r.Data? ==> |r.data| <= n)
      ensures received == old(received) + if r.Data? then r.data else []
      ensures blocked == old(blocked) + if r.Blocked? then 1 else 0
      ensures lost == old(lost) + if r.Failed? || r == Data([]) then 1 else 0
      ensures old(Intact()) ==> Intact()
    {
      hide Coming;
      if script == [] {
        blocked := blocked + 1;
        r := Blocked;
      } else {
        match script[0]
        case WouldBlock =>
          script := script[1..];
          blocked := blocked + 1;
          r := Blocked;
        case ConnectionError =>
          script := script[1..];
          lost := lost + 1;
          r := Failed;
        case Chunk(data) =>
          if |data| <= n {
            script := script[1..];
            r := Data(data);
            if data == [] {
              lost := lost + 1;
            }
          } else {
            script := script[0 := Chunk(data[n..])];
            r := Data(data[..n]);
          }
          received := received + r.data;
      }
      NothingIsLost(r, old(script), script, n);
    }
  }

  /** Within a call that started in r and has received `seen`: the fields before a complete packet is handled. */
  ghost predicate Fed(a: Reader, r: Reader, seen: seq<byte>) {
    if seen == [] then a == Start(r)
    else a == Feed(FeedAll(Settle(Start(r)), seen[..|seen| - 1]), seen[|seen| - 1])
  }

  lemma {:induction false} FedOn(a: Reader, r: Reader, seen: seq<byte>, b: byte)
    requires Fed(a, r, seen) && !IsPending(a)
    ensures Fed(Feed(a, b), r, seen + [b])
  {
    hide Feed;
    assert (seen + [b])[..|seen + [b]| - 1] == seen;
  }

  /** The command byte, if one is wanted. */
  lemma {:induction false} FedCommand(r: Reader, b: byte)
    requires !r.malformed
    ensures Fed(Start(r), r, [])
    ensures r.command == 0 ==> Fed(Start(r).(command := b, wantCommand := false), r, [b])
  {
    if r.command == 0 {
      FedOn(Start(r), r, [], b);
      assert [] + [b] == [b];
    }
  }

  /** One length byte: the fifth is one too many. */
  lemma {:induction false} FedLength(a: Reader, r: Reader, seen: seq<byte>, b: byte)
    requires Fed(a, r, seen) && !a.malformed && !a.wantCommand && !a.haveRemaining
    ensures a.count >= 4 ==> Fed(a.(count := a.count + 1, malformed := true), r, seen + [b])
    ensures a.count < 4 && b >= 128 ==>
      Fed(a.(count := a.count + 1, mult := a.mult * 128, length := a.length + b % 128 * a.mult), r, seen + [b])
    ensures a.count < 4 && b < 128 ==>
      Fed(a.(count := a.count + 1, mult := a.mult * 128, length := a.length + b % 128 * a.mult, haveRemaining := true,
             toProcess := a.length + b % 128 * a.mult), r, seen + [b])
  {
    hide Fed;
    FedOn(a, r, seen, b);
  }

  lemma {:induction false} FedChunk(a: Reader, r: Reader, seen: seq<byte>, chunk: seq<byte>)
    requires Fed(a, r, seen) && !a.malformed && !a.wantCommand && a.haveRemaining && 0 < |chunk| <= a.toProcess
    ensures Fed(a.(packet := a.packet + chunk, toProcess := a.toProcess - |chunk|), r, seen + chunk)
  {
    hide Fed;
    var n := |chunk| - 1;
    assert chunk == chunk[..n] + [chunk[n]];
    if n == 0 {
      FedOn(a, r, seen, chunk[0]);
    } else {
      FedChunk(a, r, seen, chunk[..n]);
      var b := a.(packet := a.packet + chunk[..n], toProcess := a.toProcess - n);
      FedOn(b, r, seen + chunk[..n], chunk[n]);
      assert seen + chunk[..n] + [chunk[n]] == seen + chunk && b.packet + [chunk[n]] == a.packet + chunk;
    }
  }

  /** How a call ends. */
  lemma {:induction false} EndOfCall(a: Reader, r: Reader, seen: seq<byte>)
    requires Fed(a, r, seen)
    ensures Settle(a) == RunCall(r, Call(seen, false))
    ensures seen != [] ==> a == RunCall(r, Call(seen, true))
  {
    hide Feed;
    FeedLast(Settle(Start(r)), seen);
    FeedNothing(Settle(Start(r)));
  }

  datatype Rc = Again | ConnLost | Protocol | Handled(code: int)

  class Client {
    var command: byte
    var haveRemaining: bool
    var remainingCount: nat
    var remainingMult: nat
    var remainingLength: nat
    var packet: seq<byte>
    var toProcess: nat
    /** The packets given to _packet_handle, and what it answers after the last of them. */
    var handled: seq<Packet>
    const handler: seq<Packet> -> int
    const sock: Socket
    var open: bool
    ghost var wantCommand: bool
    ghost var malformed: bool
    ghost var calls: seq<Call>

    ghost function AsReader(): Reader
      reads this
    {
      Reader(command, haveRemaining, remainingCount, remainingMult, remainingLength, packet, toProcess,
             handled, wantCommand, malformed)
    }

    /** The fields are where the calls so far have brought them. */
    ghost predicate Valid()
      reads this, sock
    {
      AsReader() == Run(calls) && sock.received == Bytes(calls) && (malformed ==> !open)
    }

    /** The packets of the bytes received have been handled in order, all but one that the last call held back. */
    ghost predicate InOrder()
      reads this, sock
    {
      var packets := Parse(sock.received).packets;
      if IsHeldBack(calls) then packets != [] && handled == packets[..|packets| - 1] else handled == packets
    }

    constructor (sock: Socket, handler: seq<Packet> -> int)
      requires sock.received == []
      ensures Valid() && this.sock == sock && open && handled == []
    {
      this.sock, this.handler, open := sock, handler, true;
      command, haveRemaining, remainingCount, remainingMult, remainingLength := 0, false, 0, 1, 0;
      packet, toProcess, handled := [], 0, [];
      wantCommand, malformed, calls := true, false, [];
    }

    lemma {:induction false} ValidIsInOrder()
      requires Valid() && NoZeroCommand(sock.received)
      ensures InOrder()
    {
      hide Parse, Run, Bytes, NoZeroCommand;
      HandledInOrder(calls);
    }

    /** A call ends early only for a reason: recv would block, the read cap, or a connection that is gone. */
    ghost predicate Ended(rc: Rc, capped: bool, blocked: nat, lost: nat)
      reads sock
    {
      && (rc == Again ==> capped || sock.blocked == blocked + 1)
      && (rc == ConnLost ==> sock.lost == lost + 1)
      && (rc.Handled? || rc.Protocol? ==> sock.blocked == blocked && sock.lost == lost)
    }

    /** The command byte; Handled(0) stands for going on. */
    method ReadCommand(ghost r: Reader) returns (rc: Rc, ghost seen: seq<byte>)
      requires !malformed && AsReader() == r
      modifies this, sock
      ensures Fed(AsReader(), r, seen) && sock.received == old(sock.received) + seen
      ensures calls == old(calls) && open == old(open) && handled == old(handled) && !malformed && !rc.Protocol?
      ensures rc.Handled? ==> !wantCommand
      ensures !rc.Handled? ==> wantCommand
      ensures old(sock.Intact()) ==> sock.Intact()
      ensures Ended(rc, false, old(sock.blocked), old(sock.lost))
    {
      hide Coming, Answers, Socket.Intact, Fed;
      seen := [];
      wantCommand := command == 0;
      FedCommand(r, 0);
      if command == 0 {
        var got := sock.SockRecv(1);
        if got.Blocked? {
          return Again, [];
        } else if got.Failed? || got.data == [] {
          return ConnLost, [];
        }
        FedCommand(r, got.data[0]);
        seen := [got.data[0]];
        command, wantCommand := got.data[0], false;
      }
      rc := Handled(0);
    }

    /** The remaining length. */
    method ReadLength(ghost r: Reader, ghost base: seq<byte>, ghost before: seq<byte>) returns (rc: Rc, ghost seen: seq<byte>)
      requires !malformed && !wantCommand && !haveRemaining && Fed(AsReader(), r, before)
      requires sock.received == base + before
      modifies this, sock
      ensures Fed(AsReader(), r, seen) && sock.received == base + seen
      ensures calls == old(calls) && open == old(open) && handled == old(handled) && !wantCommand && malformed == rc.Protocol?
      ensures haveRemaining <==> rc.Handled?
      ensures old(sock.Intact()) ==> sock.Intact()
      ensures Ended(rc, false, old(sock.blocked), old(sock.lost))
    {
      hide Coming, Answers, Socket.Intact, Fed, Feed;
      seen := before;
      var b: byte := 0;
      while true
        invariant !malformed && !wantCommand && !haveRemaining && Fed(AsReader(), r, seen)
        invariant sock.received == base + seen
        invariant calls == old(calls) && open == old(open) && handled == old(handled)
        invariant sock.blocked == old(sock.blocked) && sock.lost == old(sock.lost) && (old(sock.Intact()) ==> sock.Intact())
        decreases if remainingCount <= 4 then 5 - remainingCount else 0
      {
        var got := sock.SockRecv(1);
        if got.Blocked? {
          return Again, seen;
        } else if got.Failed? || got.data == [] {
          return ConnLost, seen;
        }
        b := got.data[0];
        FedLength(AsReader(), r, seen, b);
        assert got.data == [b] && base + seen + [b] == base + (seen + [b]);
        seen := seen + [b];
        remainingCount := remainingCount + 1;
        if remainingCount > 4 {
          malformed := true;
          return Protocol, seen;
        }
        remainingLength := remainingLength + b % 128 * remainingMult;
        remainingMult := remainingMult * 128;
        if b < 128 {
          break;
        }
      }
      haveRemaining := true;
      toProcess := remainingLength;
      rc := Handled(0);
    }

    /** The body; the hundredth read ends the call even when it completes the packet. */
    method ReadBody(ghost r: Reader, ghost base: seq<byte>, ghost before: seq<byte>)
      returns (rc: Rc, ghost seen: seq<byte>, ghost capped: bool, ghost recvs: nat)
      requires !malformed && !wantCommand && haveRemaining && Fed(AsReader(), r, before)
      requires sock.received == base + before
      modifies this, sock
      ensures Fed(AsReader(), r, seen) && sock.received == base + seen
      ensures calls == old(calls) && open == old(open) && handled == old(handled) && !malformed && !wantCommand && haveRemaining && !rc.Protocol?
      ensures rc.Handled? ==> toProcess == 0 && !capped
      ensures !rc.Handled? && !capped ==> toProcess > 0
      ensures capped ==> seen != []
      ensures recvs <= 100 && (capped <==> recvs == 100)
      ensures old(sock.Intact()) ==> sock.Intact()
      ensures Ended(rc, capped, old(sock.blocked), old(sock.lost))
    {
      hide Coming, Answers, Socket.Intact, Fed;
      seen, capped, recvs := before, false, 0;
      var count := 100;
      while toProcess > 0
        invariant !malformed && !wantCommand && haveRemaining && Fed(AsReader(), r, seen)
        invariant sock.received == base + seen && calls == old(calls) && open == old(open) && handled == old(handled) && !capped
        invariant count > 0 && recvs == 100 - count
        invariant sock.blocked == old(sock.blocked) && sock.lost == old(sock.lost) && (old(sock.Intact()) ==> sock.Intact())
        decreases count
      {
        var got := sock.SockRecv(toProcess);
        if got.Blocked? {
          return Again, seen, capped, recvs;
        } else if got.Failed? || got.data == [] {
          return ConnLost, seen, capped, recvs;
        }
        FedChunk(AsReader(), r, seen, got.data);
        assert base + seen + got.data == base + (seen + got.data);
        seen := seen + got.data;
        toProcess := toProcess - |got.data|;
        packet := packet + got.data;
        count, recvs := count - 1, recvs + 1;
        if count == 0 {
          capped := true;
          return Again, seen, capped, recvs;
        }
      }
      rc := Handled(0);
    }

    /** _packet_handle, and the reset that follows it; the handlers may answer anything. */
    method PacketHandle() returns (rc: int)
      requires IsPending(AsReader())
      modifies this
      ensures handled == old(handled) + [Packet(old(command), old(packet))] && rc == handler(handled)
      ensures AsReader() == old(Settle(AsReader())) && calls == old(calls) && open == old(open)
    {
      handled := handled + [Packet(command, packet)];
      rc := handler(handled);
      command, haveRemaining, remainingCount, remainingMult, remainingLength := 0, false, 0, 1, 0;
      packet, toProcess := [], 0;
      wantCommand := true;
    }

    /** Note the end of a call. */
    ghost method Record(r: Reader, base: seq<byte>, seen: seq<byte>, capped: bool)
      requires r == Run(calls) && base == Bytes(calls) && sock.received == base + seen
      requires AsReader() == RunCall(r, Call(seen, capped)) && (malformed ==> !open)
      modifies this`calls
      ensures Valid() && calls == old(calls) + [Call(seen, capped)]
    {
      calls := calls + [Call(seen, capped)];
    }

    /** _packet_read; a malformed length ends the connection.  A handled packet's answer is returned. */
    method PacketRead() returns (rc: Rc)
      requires Valid() && open
      modifies this, sock
      ensures Valid() && (open <==> !rc.Protocol?)
      ensures old(calls) <= calls && |calls| == |old(calls)| + 1
      ensures old(handled) <= handled && |handled| == |old(handled)| + if rc.Handled? then 1 else 0
      ensures rc.Handled? ==> rc.code == handler(handled)
      ensures Ended(rc, calls[|old(calls)|].capped, old(sock.blocked), old(sock.lost))
      ensures old(sock.Intact()) ==> sock.Intact()
    {
      hide Fed, RunCall, Run, Bytes, Parse, Coming, Socket.Intact;
      ghost var r, base := AsReader(), sock.received;
      ghost var seen, capped, recvs := [], false, 0;
      rc, seen := ReadCommand(r);
      if rc.Handled? && !haveRemaining {
        rc, seen := ReadLength(r, base, seen);
      }
      if rc.Handled? {
        rc, seen, capped, recvs := ReadBody(r, base, seen);
      }
      EndOfCall(AsReader(), r, seen);
      if rc.Handled? {
        var code := PacketHandle();
        rc := Handled(code);
      }
      if rc.Protocol? {
        open := false;
      }
      Record(r, base, seen, capped);
    }

    /**
     loop_read: up to maxPackets calls, fewer only if one finds nothing more to read or an error, the reader's or a
     handler's, closes the socket.  rcs holds what the calls return.  As long as no command byte is 0, the packets
     have then been handled in order.
     */
    method LoopRead(maxPackets: nat) returns (ghost rcs: seq<Rc>)
      requires Valid()
      modifies this, sock
      ensures Valid()
      ensures NoZeroCommand(sock.received) ==> InOrder()
      ensures old(sock.Intact()) ==> sock.Intact()
      ensures |rcs| <= maxPackets && |calls| == |old(calls)| + |rcs| && (!old(open) ==> rcs == [])
      ensures forall i :: 0 <= i < |rcs| - 1 ==> !IsError(rcs[i]) && !IsAgain(rcs[i])
      ensures open == (old(open) && (rcs == [] || !IsError(rcs[|rcs| - 1])))
      ensures open ==> |rcs| == maxPackets || (rcs != [] && IsAgain(rcs[|rcs| - 1]))
    {
      hide Parse, Run, Bytes, NoZeroCommand, InOrder, Coming, Socket.Intact;
      rcs := [];
      for i := 0 to maxPackets
        invariant Valid() && |rcs| == i && |calls| == |old(calls)| + i && (old(sock.Intact()) ==> sock.Intact())
        invariant open == old(open) && (!open ==> rcs == [])
        invariant forall k :: 0 <= k < i ==> !IsError(rcs[k]) && !IsAgain(rcs[k])
      {
        if !open {
          break;
        }
        var rc := PacketRead();
        rcs := rcs + [rc];
        if rc.ConnLost? || rc.Protocol? || (rc.Handled? && rc.code > 0) {
          open := false;
          break;
        }
        if rc.Again? || rc == Handled(-1) {
          break;
        }
      }
      if NoZeroCommand(sock.received) {
        ValidIsInOrder();
      }
    }
  }

  /** The return codes as numbers: MQTT_ERR_AGAIN, MQTT_ERR_PROTOCOL, MQTT_ERR_CONN_LOST. */
  function Code(rc: Rc): int {
    match rc
    case Again => -1
    case Protocol => 2
    case ConnLost => 7
    case Handled(code) => code
  }

  predicate IsError(rc: Rc) {
    Code(rc) > 0
  }

  /** A handler may answer MQTT_ERR_AGAIN too. */
  predicate IsAgain(rc: Rc) {
    Code(rc) == -1
  }
}
