/**
 The partial-write sender (_packet_queue and _packet_write, qml/utilities/paho/mqtt/client.py:2456-2517
 and 2991-3001): what is on the wire of a connection at any time.
 */
module PacketWriter {
  import opened Wrappers

  datatype OutPacket = OutPacket(command: byte, mid: nat, qos: nat, pos: nat, toProcess: nat, packet: seq<byte>)

  /** The bytes of packets, one after the other. */
  function Flat(packets: seq<OutPacket>): seq<byte> {
    if packets == [] then [] else packets[0].packet + Flat(packets[1..])
  }

  /** The bytes not sent yet. */
  function Remaining(packets: seq<OutPacket>): seq<byte> {
    if packets == [] then []
    else
      var p := packets[0];
      (if p.pos <= |p.packet| then p.packet[p.pos..] else []) + Remaining(packets[1..])
  }

  /** The message ids that on_publish is called with: QoS 0 publishes, when their last byte is out. */
  function PublishedMids(packets: seq<OutPacket>): seq<nat> {
    if packets == [] then []
    else MidOf(packets[0]) + PublishedMids(packets[1..])
  }

  function MidOf(p: OutPacket): seq<nat> {
    if IsPublish(p) then [p.mid] else []
  }

  predicate IsPublish(p: OutPacket) {
    p.command / 16 == 3 && p.qos == 0
  }

  predicate IsDisconnect(p: OutPacket) {
    p.command / 16 == 14
  }

  /** Section 2.1.2 of MQTT 3.1.1: the packet type is in the upper four bits of the command byte, flags in the lower. */
  lemma {:induction false} KindOfCommand(p: OutPacket, packetType: nat, flags: nat)
    requires packetType < 16 && flags < 16 && p.command == packetType * 16 + flags
    ensures IsPublish(p) <==> packetType == 3 && p.qos == 0
    ensures IsDisconnect(p) <==> packetType == 14
  {
    assert p.command / 16 == packetType;
  }

  lemma {:induction false} FlatAppend(a: seq<OutPacket>, b: seq<OutPacket>)
    ensures Flat(a + b) == Flat(a) + Flat(b)
  {
    if a == [] {
      assert a + b == b;
    } else {
      FlatAppend(a[1..], b);
      assert (a + b)[1..] == a[1..] + b && (a + b)[0] == a[0];
      Regroup3(a[0].packet, Flat(a[1..]), Flat(b));
    }
  }

  lemma {:induction false} Regroup3<T>(a: seq<T>, b: seq<T>, c: seq<T>)
    ensures a + (b + c) == (a + b) + c
  {}

  lemma {:induction false} MidsAppend(a: seq<OutPacket>, b: seq<OutPacket>)
    ensures PublishedMids(a + b) == PublishedMids(a) + PublishedMids(b)
  {
    if a == [] {
      assert a + b == b;
    } else {
      hide MidOf;
      MidsAppend(a[1..], b);
      assert (a + b)[1..] == a[1..] + b && (a + b)[0] == a[0];
      Regroup3(MidOf(a[0]), PublishedMids(a[1..]), PublishedMids(b));
    }
  }

  // ---- the queue as a value ------------------------------------------------------------------

  /** A waiting packet against the packet as it was queued. */
  predicate IsUnsent(p: OutPacket, q: OutPacket) {
    p == q && p.pos == 0 && p.toProcess == |p.packet|
  }

  predicate IsPartlySent(p: OutPacket, q: OutPacket) {
    p == q.(pos := p.pos, toProcess := p.toProcess) && p.pos + p.toProcess == |p.packet| && (p.packet != [] ==> p.toProcess > 0)
  }

  /** What is true of the queue, the wire and the publish notices of one connection. */
  ghost predicate InStep(out: seq<OutPacket>, wire: seq<byte>, published: seq<nat>, queued: seq<OutPacket>, done: nat) {
    && done + |out| == |queued|
    && (out != [] ==> IsPartlySent(out[0], queued[done]))
    && (forall i :: 0 < i < |out| ==> IsUnsent(out[i], queued[done + i]))
    && wire == Flat(queued[..done]) + (if out == [] then [] else out[0].packet[..out[0].pos])
    && published == PublishedMids(queued[..done])
  }

  lemma {:induction false} RemainingOfUnsent(out: seq<OutPacket>, queued: seq<OutPacket>)
    requires |out| == |queued| && forall i :: 0 <= i < |out| ==> IsUnsent(out[i], queued[i])
    ensures Remaining(out) == Flat(queued)
  {
    if out != [] {
      assert IsUnsent(out[0], queued[0]);
      RemainingOfUnsent(out[1..], queued[1..]);
    }
  }

  /** The wire is a prefix of everything queued, and the rest is still to be sent: no byte lost or sent twice. */
  lemma {:induction false} WireIsPrefix(out: seq<OutPacket>, wire: seq<byte>, published: seq<nat>, queued: seq<OutPacket>, done: nat)
    requires InStep(out, wire, published, queued, done)
    ensures wire + Remaining(out) == Flat(queued) && wire <= Flat(queued)
  {
    hide PublishedMids;
    FlatAppend(queued[..done], queued[done..]);
    assert queued == queued[..done] + queued[done..];
    if out == [] {
      assert queued[done..] == [];
    } else {
      var p := out[0];
      RemainingOfUnsent(out[1..], queued[done + 1..]);
      assert queued[done..][1..] == queued[done + 1..];
      Regroup(Flat(queued[..done]), p.packet, p.pos, Flat(queued[done + 1..]));
    }
  }

  lemma {:induction false} Regroup(a: seq<byte>, p: seq<byte>, k: nat, b: seq<byte>)
    requires k <= |p|
    ensures (a + p[..k]) + (p[k..] + b) == a + (p + b)
    ensures (a + p[..k]) <= a + (p + b)
  {}

  /** Part of the first packet goes out. */
  lemma {:induction false} PartSent(out: seq<OutPacket>, wire: seq<byte>, published: seq<nat>, queued: seq<OutPacket>, done: nat, n: nat)
    requires InStep(out, wire, published, queued, done) && out != [] && n < out[0].toProcess
    ensures InStep([out[0].(pos := out[0].pos + n, toProcess := out[0].toProcess - n)] + out[1..],
                   wire + out[0].packet[out[0].pos..out[0].pos + n], published, queued, done)
  {
    hide Flat, PublishedMids;
    var p := out[0];
    assert p.packet[..p.pos + n] == p.packet[..p.pos] + p.packet[p.pos..p.pos + n];
  }

  /** The rest of the first packet goes out. */
  lemma {:induction false} AllSent(out: seq<OutPacket>, wire: seq<byte>, published: seq<nat>, queued: seq<OutPacket>, done: nat)
    requires InStep(out, wire, published, queued, done) && out != []
    ensures InStep(out[1..], wire + out[0].packet[out[0].pos..],
                   published + MidOf(out[0]), queued, done + 1)
  {
    var p, q := out[0], queued[done];
    assert queued[..done + 1] == queued[..done] + [q];
    FlatAppend(queued[..done], [q]);
    MidsAppend(queued[..done], [q]);
    assert Flat([q]) == p.packet && p.packet == p.packet[..p.pos] + p.packet[p.pos..];
    assert PublishedMids([q]) == MidOf(p);
    if |out| > 1 {
      assert IsUnsent(out[1], queued[done + 1]);
      assert out[1].packet[..0] == [];
    }
  }

  lemma {:induction false} OneQueued(out: seq<OutPacket>, wire: seq<byte>, published: seq<nat>, queued: seq<OutPacket>, done: nat, p: OutPacket)
    requires InStep(out, wire, published, queued, done) && IsUnsent(p, p)
    ensures InStep(out + [p], wire, published, queued + [p], done)
  {
    hide Flat, PublishedMids;
    assert (queued + [p])[..done] == queued[..done];
    assert p.packet[..0] == [];
  }

  // ---- the client ----------------------------------------------------------------------------

  /** What the socket does with one send call: it takes up to n bytes, or raises. */
  datatype SendEvent = Takes(n: nat) | WouldBlock | ConnectionError

  datatype Sent = Count(n: nat) | Blocked | Failed | NoSocket

  datatype Rc = Success | Again | ConnLost

  /** The outcome of a send of so many bytes. */
  predicate Answers(r: Sent, event: SendEvent, length: nat) {
    match event
    case Takes(n) => r == Count(if n < length then n else length)
    case WouldBlock => r == Blocked
    case ConnectionError => r == Failed
  }

  class Client {
    var outPacket: seq<OutPacket>
    var published: seq<nat>
    var hasSocket: bool
    var script: seq<SendEvent>
    ghost var wire: seq<byte>
    /** The packets queued on this connection, and how many of them are sent. */
    ghost var queued: seq<OutPacket>
    ghost var done: nat

    ghost predicate Valid()
      reads this
    {
      InStep(outPacket, wire, published, queued, done)
    }

    /** A new connection: reconnect drops what the old one had queued. */
    constructor (script: seq<SendEvent>)
      ensures Valid() && wire == [] && queued == []
    {
      outPacket, published, hasSocket, this.script := [], [], true, script;
      wire, queued, done := [], [], 0;
    }

    method SockSend(data: seq<byte>) returns (r: Sent)
      modifies `script, `wire
      ensures r.Count? ==> r.n <= |data| && wire == old(wire) + data[..r.n]
      ensures !r.Count? ==> wire == old(wire)
      ensures r.NoSocket? <==> !hasSocket
      ensures !hasSocket ==> script == old(script)
      ensures hasSocket && old(script) == [] ==> r.Blocked? && script == []
      ensures hasSocket && old(script) != [] ==> script == old(script)[1..] && Answers(r, old(script)[0], |data|)
    {
      if !hasSocket {
        return NoSocket;
      }
      if script == [] {
        return Blocked;
      }
      var event := script[0];
      script := script[1..];
      match event
      case WouldBlock => r := Blocked;
      case ConnectionError => r := Failed;
      case Takes(n) =>
        var m := if n < |data| then n else |data|;
        wire := wire + data[..m];
        r := Count(m);
    }

    /** _packet_queue, without the write that may follow it. */
    method PacketQueue(command: byte, packet: seq<byte>, mid: nat, qos: nat)
      requires Valid()
      modifies `outPacket, `queued
      ensures Valid() && queued == old(queued) + [OutPacket(command, mid, qos, 0, |packet|, packet)]
    {
      var mpkt := OutPacket(command, mid, qos, 0, |packet|, packet);
      OneQueued(outPacket, wire, published, queued, done, mpkt);
      outPacket := outPacket + [mpkt];
      queued := queued + [mpkt];
    }

    /** The first packet after a send that took something; a sent DISCONNECT closes the socket. */
    method Taken(n: nat, ghost before: seq<byte>) returns (closed: bool)
      requires outPacket != [] && InStep(outPacket, before, published, queued, done)
      requires 0 < n <= outPacket[0].toProcess && outPacket[0].pos + outPacket[0].toProcess == |outPacket[0].packet|
      requires wire == before + outPacket[0].packet[outPacket[0].pos..][..n]
      modifies `outPacket, `published, `hasSocket, `done
      ensures Valid() && done == old(done) + if n == old(outPacket)[0].toProcess then 1 else 0
      ensures |Remaining(outPacket)| + |outPacket| < old(|Remaining(outPacket)| + |outPacket|)
      ensures done <= |queued| && closed == (old(done) < done && IsDisconnect(queued[done - 1]))
      ensures hasSocket == (old(hasSocket) && !closed)
    {
      hide InStep, IsDisconnect, IsPublish, Flat, PublishedMids;
      var packet := outPacket[0];
      HeadOf(outPacket, before, published, queued, done);
      var toProcess := packet.toProcess - n;
      closed := false;
      if toProcess == 0 {
        AllSent(outPacket, before, published, queued, done);
        assert packet.packet[packet.pos..][..n] == packet.packet[packet.pos..];
        outPacket := outPacket[1..];
        done := done + 1;
        NoticeOf(published, packet);
        if IsPublish(packet) {
          published := published + [packet.mid];
        }
        if IsDisconnect(packet) {
          hasSocket := false;
          closed := true;
        }
      } else {
        PartSent(outPacket, before, published, queued, done, n);
        assert packet.packet[packet.pos..][..n] == packet.packet[packet.pos..packet.pos + n];
        outPacket := [packet.(pos := packet.pos + n, toProcess := toProcess)] + outPacket[1..];
      }
    }

    /**
     _packet_write.  As long as no send takes zero bytes, everything stays in step.  A send that takes zero
     bytes ends the loop with the packet already off the queue: its unsent bytes are lost.  used is the number of
     sends: all but the last one have taken something, and the last one decides the outcome; a socket whose script
     has ended blocks.
     */
    method PacketWrite() returns (rc: Rc, ghost zeroSent: bool, ghost used: nat)
      requires Valid()
      modifies this
      ensures queued == old(queued) && old(wire) <= wire && old(done) <= done <= |queued|
      ensures !zeroSent ==> Valid()
      ensures zeroSent ==> rc.Success? && Lost(outPacket, wire, published, queued, done)
      ensures used <= |old(script)| && script == old(script)[used..]
      ensures forall i :: 0 <= i < used - 1 ==> old(script)[i].Takes?
      ensures rc.Success? ==> used == 0 || old(script)[used - 1].Takes?
      ensures rc.Again? ==> used == |old(script)| || (used > 0 && old(script)[used - 1].WouldBlock?)
      ensures rc.ConnLost? <==> used > 0 && old(script)[used - 1].ConnectionError?
      ensures zeroSent ==> used > 0 && done < |queued| && (old(script)[used - 1] == Takes(0) || queued[done].packet == [])
      ensures rc.Success? && !zeroSent && hasSocket ==> outPacket == []
      ensures !old(hasSocket) ==> !hasSocket && used == 0 && outPacket == old(outPacket) && wire == old(wire)
      ensures old(hasSocket) && !hasSocket ==> old(done) < done && IsDisconnect(queued[done - 1])
      ensures forall i :: old(done) <= i < (if hasSocket then done else done - 1) ==> !IsDisconnect(queued[i])
    {
      hide InStep, Lost, IsDisconnect, Remaining, Flat, PublishedMids;
      ghost var sentNow: seq<byte> := [];
      used := 0;
      DoneAtMost(outPacket, wire, published, queued, done);
      while true
        invariant Valid() && queued == old(queued) && wire == old(wire) + sentNow && old(done) <= done <= |queued|
        invariant used <= |old(script)| && script == old(script)[used..]
        invariant forall i :: 0 <= i < used ==> old(script)[i].Takes?
        invariant hasSocket == old(hasSocket) && (!hasSocket ==> used == 0 && outPacket == old(outPacket) && wire == old(wire) && done == old(done))
        invariant forall i :: old(done) <= i < done ==> !IsDisconnect(queued[i])
        decreases |Remaining(outPacket)| + |outPacket|
      {
        if outPacket == [] {
          return Success, false, used;
        }
        var packet := outPacket[0];
        HeadOf(outPacket, wire, published, queued, done);
        ghost var before := wire;
        ghost var exhausted := script == [];
        var sent := SockSend(packet.packet[packet.pos..]);
        sentNow := sentNow + if sent.Count? then packet.packet[packet.pos..][..sent.n] else [];
        assert wire == old(wire) + sentNow;
        if hasSocket && !exhausted {
          used := used + 1;
        }
        match sent
        case NoSocket => return Success, false, used;
        case Blocked => return Again, false, used;
        case Failed => return ConnLost, false, used;
        case Count(n) =>
          if n == 0 {
            assert wire == before + [] == before;
            HeadLost(outPacket, wire, published, queued, done);
            outPacket := outPacket[1..];
            return Success, true, used;
          }
          var closed := Taken(n, before);
          if closed {
            return Success, false, used;
          }
      }
    }
  }

  lemma {:induction false} NoticeOf(published: seq<nat>, p: OutPacket)
    ensures published + MidOf(p) == if IsPublish(p) then published + [p.mid] else published
  {}

  lemma {:induction false} DoneAtMost(out: seq<OutPacket>, wire: seq<byte>, published: seq<nat>, queued: seq<OutPacket>, done: nat)
    requires InStep(out, wire, published, queued, done)
    ensures done <= |queued|
  {}

  lemma {:induction false} HeadOf(out: seq<OutPacket>, wire: seq<byte>, published: seq<nat>, queued: seq<OutPacket>, done: nat)
    requires InStep(out, wire, published, queued, done) && out != []
    ensures out[0].pos + out[0].toProcess == |out[0].packet| && (out[0].packet != [] ==> out[0].toProcess > 0)
    ensures done < |queued| && out[0].packet == queued[done].packet && out[0].command == queued[done].command
    ensures IsDisconnect(out[0]) == IsDisconnect(queued[done])
  {}

  /** The unsent bytes of the packet at position `done` are neither on the wire nor in the queue. */
  ghost predicate Lost(out: seq<OutPacket>, wire: seq<byte>, published: seq<nat>, queued: seq<OutPacket>, done: nat) {
    && done < |queued|
    && exists p: OutPacket ::
         && InStep([p] + out, wire, published, queued, done) && (p.packet != [] ==> p.pos < |p.packet|)
         && wire + p.packet[p.pos..] + Remaining(out) == Flat(queued)
  }

  lemma {:induction false} HeadLost(out: seq<OutPacket>, wire: seq<byte>, published: seq<nat>, queued: seq<OutPacket>, done: nat)
    requires InStep(out, wire, published, queued, done) && out != []
    ensures Lost(out[1..], wire, published, queued, done)
  {
    WireIsPrefix(out, wire, published, queued, done);
    assert [out[0]] + out[1..] == out;
  }
}
