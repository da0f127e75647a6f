/**
 The outgoing QoS 1 messages (publish, _messages_reconnect_reset_out, _handle_connack, _handle_pubackcomp,
 _do_on_publish, _update_inflight and _mid_generate, qml/utilities/paho/mqtt/client.py) across connections:
 section 4.3.2 of MQTT 3.1.1.
 */
module Outgoing {
  import opened Wrappers

  datatype State = ToPublish | WaitForPuback | Queued

  /** serial stands for the identity of the message object, mid is the id on the wire. */
  datatype Message = Message(mid: nat, serial: nat, state: State, dup: bool)

  // ---- stores as values ----------------------------------------------------------------------

  function Waiting(ms: seq<Message>): nat {
    if ms == [] then 0 else Waiting(ms[..|ms| - 1]) + if ms[|ms| - 1].state.WaitForPuback? then 1 else 0
  }

  function Mids(ms: seq<Message>): set<nat> {
    set m | m in ms :: m.mid
  }

  function WaitingMids(ms: seq<Message>): set<nat> {
    set m | m in ms && m.state.WaitForPuback? :: m.mid
  }

  predicate DistinctMids(ms: seq<Message>) {
    forall i, j :: 0 <= i < j < |ms| ==> ms[i].mid != ms[j].mid
  }

  /** The same message objects in the same order. */
  predicate SameMessages(a: seq<Message>, b: seq<Message>) {
    |a| == |b| && forall i :: 0 <= i < |a| ==> a[i].mid == b[i].mid && a[i].serial == b[i].serial
  }

  /** Some messages in the given state have been sent and wait; nothing else has changed. */
  predicate SomeSent(a: seq<Message>, b: seq<Message>, state: State) {
    |a| == |b| && forall i :: 0 <= i < |a| ==> b[i] == a[i] || (a[i].state == state && b[i] == a[i].(state := WaitForPuback))
  }

  /** Queued messages go out in their order: nothing behind one that is still queued has changed. */
  predicate InOrder(a: seq<Message>, b: seq<Message>)
    requires |a| == |b|
  {
    forall i, j :: 0 <= i < j < |a| && b[i].state.Queued? ==> b[j] == a[j]
  }

  predicate NoneQueued(ms: seq<Message>) {
    forall i :: 0 <= i < |ms| ==> !ms[i].state.Queued?
  }

  /** No message up to i is queued. */
  predicate IsAhead(ms: seq<Message>, i: nat)
    requires i < |ms|
  {
    forall j :: 0 <= j <= i ==> !ms[j].state.Queued?
  }

  function Without(ms: seq<Message>, i: nat): (r: seq<Message>)
    requires i < |ms|
    ensures |r| == |ms| - 1
  {
    ms[..i] + ms[i + 1..]
  }

  /** What has started to wait was put on the wire. */
  ghost predicate AreSent(a: seq<Message>, b: seq<Message>, sent: set<nat>)
    requires |a| == |b|
  {
    forall i :: 0 <= i < |a| && b[i] != a[i] ==> b[i].mid in sent
  }

  lemma {:induction false} WaitingAfter(ms: seq<Message>, i: nat, m: Message)
    requires i < |ms|
    ensures Waiting(ms[i := m]) == Waiting(ms)
      + (if m.state.WaitForPuback? then 1 else 0) - (if ms[i].state.WaitForPuback? then 1 else 0)
    decreases |ms|
  {
    var n := |ms| - 1;
    if i < n {
      WaitingAfter(ms[..n], i, m);
      assert ms[i := m][..n] == ms[..n][i := m];
    } else {
      assert ms[i := m][..n] == ms[..n];
    }
  }

  lemma {:induction false} WaitingAppend(ms: seq<Message>, m: Message)
    ensures Waiting(ms + [m]) == Waiting(ms) + if m.state.WaitForPuback? then 1 else 0
  {
    assert (ms + [m])[..|ms|] == ms;
  }

  lemma {:induction false} WaitingWithout(ms: seq<Message>, i: nat)
    requires i < |ms|
    ensures Waiting(ms[..i] + ms[i + 1..]) == Waiting(ms) - if ms[i].state.WaitForPuback? then 1 else 0
    decreases |ms|
  {
    var n := |ms| - 1;
    if i < n {
      WaitingWithout(ms[..n], i);
      assert ms[..n][..i] == ms[..i];
      assert (ms[..i] + ms[i + 1..])[..n - 1] == ms[..n][..i] + ms[..n][i + 1..];
    } else {
      assert ms[..i] + ms[i + 1..] == ms[..n];
    }
  }

  /** A message that takes a step keeps its place, its mid and its identity. */
  lemma {:induction false} SetState(ms: seq<Message>, i: nat, m: Message)
    requires i < |ms| && m.mid == ms[i].mid && m.serial == ms[i].serial && DistinctMids(ms)
    ensures SameMessages(ms, ms[i := m]) && DistinctMids(ms[i := m])
    ensures m.state.WaitForPuback? ==> WaitingMids(ms[i := m]) == WaitingMids(ms) + {m.mid}
  {
    var after := ms[i := m];
    if m.state.WaitForPuback? {
      forall x | x in WaitingMids(ms) ensures x in WaitingMids(after) {
        var k :| 0 <= k < |ms| && ms[k].state.WaitForPuback? && ms[k].mid == x;
        assert after[k].mid == x && after[k].state.WaitForPuback?;
        assert after[k] in after;
      }
      assert after[i] in after;
      forall x | x in WaitingMids(after) ensures x in WaitingMids(ms) + {m.mid} {
        var k :| 0 <= k < |after| && after[k].state.WaitForPuback? && after[k].mid == x;
        assert k != i ==> ms[k] in ms;
      }
    }
  }

  /** Ids and objects are unique, published objects are gone, and what is sent on the connection waits. */
  ghost predicate IsStore(ms: seq<Message>, published: set<nat>, serials: nat, sent: set<nat>) {
    && DistinctMids(ms)
    && (forall i :: 0 <= i < |ms| ==> 1 <= ms[i].mid <= 65535 && ms[i].serial < serials && ms[i].serial !in published)
    && (forall i, j :: 0 <= i < j < |ms| ==> ms[i].serial != ms[j].serial)
    && (forall s :: s in published ==> s < serials)
    && sent <= WaitingMids(ms)
  }

  lemma {:induction false} StoreAfterStep(ms: seq<Message>, published: set<nat>, serials: nat, sent: set<nat>, i: nat, m: Message)
    requires IsStore(ms, published, serials, sent)
    requires i < |ms| && m.mid == ms[i].mid && m.serial == ms[i].serial && (m.mid in sent ==> m.state.WaitForPuback?)
    ensures IsStore(ms[i := m], published, serials, sent) && SameMessages(ms, ms[i := m])
    ensures m.state.WaitForPuback? ==> IsStore(ms[i := m], published, serials, sent + {m.mid})
  {
    hide WaitingMids;
    SetState(ms, i, m);
    KeepsWaiting(ms, i, m, sent);
  }

  lemma {:induction false} StoreWithMore(ms: seq<Message>, published: set<nat>, serials: nat, sent: set<nat>, m: Message)
    requires IsStore(ms, published, serials, sent) && m.mid !in Mids(ms) && 1 <= m.mid <= 65535 && m.serial == serials
    ensures IsStore(ms + [m], published, serials + 1, sent) && m.mid !in sent
  {
    hide WaitingMids, Mids;
    AddMessage(ms, m, sent);
  }

  lemma {:induction false} StoreWithout(ms: seq<Message>, published: set<nat>, serials: nat, sent: set<nat>, i: nat)
    requires IsStore(ms, published, serials, sent) && i < |ms|
    ensures IsStore(ms[..i] + ms[i + 1..], published + {ms[i].serial}, serials, sent - {ms[i].mid})
    ensures ms[i].mid in Mids(ms) && (ms[i].mid in WaitingMids(ms) <==> ms[i].state.WaitForPuback?)
    ensures ms[i].mid in sent ==> ms[i].state.WaitForPuback?
  {
    hide WaitingMids, Mids;
    PopMessage(ms, i, sent);
    WaitingAt(ms, i);
  }

  lemma {:induction false} NothingSent(ms: seq<Message>, published: set<nat>, serials: nat, sent: set<nat>)
    requires IsStore(ms, published, serials, sent)
    ensures IsStore(ms, published, serials, {})
  {}

  lemma {:induction false} SameInTurn(a: seq<Message>, b: seq<Message>, c: seq<Message>)
    ensures SameMessages(a, b) && SameMessages(b, c) ==> SameMessages(a, c)
    ensures SameMessages(a, a)
  {}

  // ---- the client ----------------------------------------------------------------------------

  /** How a send or a write on the socket turns out: it may close the socket. */
  datatype Rc = Success | NoConn | Error | QueueSize

  /** What can happen to the client; Connack tells whether the broker accepts the connection. */
  datatype Event = Publish | Puback(mid: nat) | SocketLost | Reconnect | Connack(accepted: bool)

  /**
   Every message ever published, with the id it got then, is in the store under that id or has been
   acknowledged: none is lost, and none is both.
   */
  ghost predicate Accounted(ms: seq<Message>, published: set<nat>, mids: seq<nat>) {
    && (forall i :: 0 <= i < |ms| ==> ms[i].serial < |mids| && mids[ms[i].serial] == ms[i].mid && ms[i].serial !in published)
    && (forall s :: s in published ==> s < |mids|)
    && forall s :: 0 <= s < |mids| ==> s in published || IsStored(ms, s)
  }

  predicate IsStored(ms: seq<Message>, serial: nat) {
    exists i :: 0 <= i < |ms| && ms[i].serial == serial
  }

  lemma {:induction false} AccountedSame(a: seq<Message>, b: seq<Message>, published: set<nat>, mids: seq<nat>)
    requires Accounted(a, published, mids) && SameMessages(a, b)
    ensures Accounted(b, published, mids)
  {
    forall s | 0 <= s < |mids| && s !in published ensures IsStored(b, s) {
      assert IsStored(a, s);
      var i :| 0 <= i < |a| && a[i].serial == s;
      assert b[i].serial == s;
    }
  }

  lemma {:induction false} AccountedMore(ms: seq<Message>, published: set<nat>, mids: seq<nat>, m: Message)
    requires Accounted(ms, published, mids) && m.serial == |mids|
    ensures Accounted(ms + [m], published, mids + [m.mid])
  {
    forall s | 0 <= s < |mids + [m.mid]| && s !in published ensures IsStored(ms + [m], s) {
      if s < |mids| {
        assert IsStored(ms, s);
        var i :| 0 <= i < |ms| && ms[i].serial == s;
        assert (ms + [m])[i].serial == s;
      } else {
        assert (ms + [m])[|ms|].serial == s;
      }
    }
  }

  lemma {:induction false} AccountedWithout(ms: seq<Message>, published: set<nat>, mids: seq<nat>, i: nat)
    requires Accounted(ms, published, mids) && i < |ms|
    requires forall j, k :: 0 <= j < k < |ms| ==> ms[j].serial != ms[k].serial
    ensures Accounted(ms[..i] + ms[i + 1..], published + {ms[i].serial}, mids)
  {
    var rest := ms[..i] + ms[i + 1..];
    forall s | 0 <= s < |mids| && s !in published + {ms[i].serial} ensures IsStored(rest, s) {
      assert IsStored(ms, s);
      var k :| 0 <= k < |ms| && ms[k].serial == s;
      assert rest[if k < i then k else k - 1] == ms[k];
    }
    forall k | 0 <= k < |rest| ensures rest[k] == ms[if k < i then k else k + 1] {
    }
  }

  /** Every PUBACK is for something sent on the connection before. */
  ghost predicate Honest(events: seq<Event>, sents: seq<set<nat>>)
    requires |sents| == |events|
  {
    forall k :: 0 <= k < |events| && events[k].Puback? ==> events[k].mid in sents[k]
  }

  lemma {:induction false} NoEvents()
    ensures Honest([], [])
  {}

  lemma {:induction false} HonestOnce(events: seq<Event>, sents: seq<set<nat>>, k: nat, sent: set<nat>)
    requires |sents| == k < |events|
    ensures Honest(events[..k + 1], sents + [sent]) <==>
      Honest(events[..k], sents) && (events[k].Puback? ==> events[k].mid in sent)
  {
    if Honest(events[..k + 1], sents + [sent]) {
      forall i | 0 <= i < k && events[i].Puback? ensures events[i].mid in sents[i] {
        assert events[..k + 1][i] == events[i];
      }
      assert events[..k + 1][k] == events[k];
    }
  }

  lemma {:induction false} SomeSentSame(a: seq<Message>, b: seq<Message>, state: State)
    requires SomeSent(a, b, state)
    ensures SameMessages(a, b)
  {}

  lemma {:induction false} WaitingAtMost(ms: seq<Message>)
    ensures Waiting(ms) <= |ms|
  {
    if ms != [] {
      WaitingAtMost(ms[..|ms| - 1]);
    }
  }

  class Client {
    var outMessages: seq<Message>
    var inflight: int
    var lastMid: nat
    const maxInflight: nat
    const maxQueued: nat
    var hasSocket: bool
    /** Whether the connection survives the write at a given time. */
    const network: nat -> bool
    var clock: nat
    var published: set<nat>
    var serials: nat
    /** Messages sent on this connection and not acknowledged on it yet. */
    ghost var sent: set<nat>
    /** loop_write has been called since the last PUBLISH. */
    ghost var flushed: bool
    /** What has happened so far. */
    ghost var history: seq<Event>

    /** What holds whatever the broker does. */
    ghost predicate Base()
      reads this
    {
      lastMid <= 65535 && IsStore(outMessages, published, serials, sent)
    }

    /** How far the counter is from the number of messages that wait for PUBACK. */
    ghost function Gap(): int
      reads this
    {
      inflight - Waiting(outMessages)
    }

    ghost predicate Valid()
      reads this
    {
      Base() && Gap() == 0
    }

    /** A message is held back only while the limit is reached. */
    ghost predicate NothingIdle()
      reads this
    {
      NoneQueued(outMessages) || 0 < maxInflight <= inflight
    }

    constructor (maxInflight: nat, maxQueued: nat, network: nat -> bool)
      ensures Valid() && outMessages == [] && published == {} && !hasSocket && Accounted(outMessages, published, [])
      ensures inflight == lastMid == serials == 0 && NothingIdle()
      ensures this.maxInflight == maxInflight && this.maxQueued == maxQueued && this.network == network
    {
      outMessages, inflight, lastMid, hasSocket, clock, published := [], 0, 0, false, 0, {};
      this.maxInflight, this.maxQueued, this.network := maxInflight, maxQueued, network;
      serials, sent, flushed, history := 0, {}, true, [];
    }

    ghost predicate NetworkWorks() {
      forall t :: network(t)
    }

    /** _send_publish: Error closes the socket. */
    method SendPublish(mid: nat) returns (rc: Rc)
      modifies `clock, `hasSocket, `sent, `flushed
      ensures rc.NoConn? <==> !old(hasSocket)
      ensures hasSocket == (old(hasSocket) && network(old(clock))) && clock == old(clock) + if old(hasSocket) then 1 else 0
      ensures !rc.QueueSize? && hasSocket == rc.Success?
      ensures sent == if rc.NoConn? then old(sent) else old(sent) + {mid}
      ensures old(hasSocket) && NetworkWorks() ==> rc.Success?
    {
      if !hasSocket {
        return NoConn;
      }
      sent, flushed := sent + {mid}, false;
      hasSocket := network(clock);
      clock := clock + 1;
      rc := if hasSocket then Success else Error;
    }

    /** loop_write: may find the connection broken and close the socket. */
    method LoopWrite()
      modifies `clock, `hasSocket, `flushed
      ensures hasSocket == (old(hasSocket) && network(old(clock))) && clock == old(clock) + 1 && flushed
    {
      hasSocket := hasSocket && network(clock);
      clock := clock + 1;
      flushed := true;
    }

    /** _mid_generate */
    method MidGenerate() returns (mid: nat)
      requires lastMid <= 65535
      modifies `lastMid
      ensures 1 <= mid <= 65535 && lastMid == mid
      ensures mid == if old(lastMid) == 65535 then 1 else old(lastMid) + 1
    {
      lastMid := lastMid + 1;
      if lastMid == 65536 {
        lastMid := 1;
      }
      mid := lastMid;
    }

    /** m takes a step: state and dup may change. */
    method Update(i: nat, m: Message)
      requires Base() && i < |outMessages| && m.mid == outMessages[i].mid && m.serial == outMessages[i].serial
      requires m.mid in sent ==> m.state.WaitForPuback?
      modifies `outMessages
      ensures Base() && outMessages == old(outMessages)[i := m] && SameMessages(old(outMessages), outMessages)
      ensures Waiting(outMessages) == Waiting(old(outMessages))
        + (if m.state.WaitForPuback? then 1 else 0) - (if old(outMessages)[i].state.WaitForPuback? then 1 else 0)
    {
      hide IsStore, SameMessages, Waiting;
      StoreAfterStep(outMessages, published, serials, sent, i, m);
      WaitingAfter(outMessages, i, m);
      outMessages := outMessages[i := m];
    }

    /** The state changes that resend or release a message, and the send itself. */
    method SendWaiting(i: nat) returns (rc: Rc)
      requires Base() && i < |outMessages| && !outMessages[i].state.WaitForPuback?
      modifies `outMessages, `inflight, `clock, `hasSocket, `sent, `flushed
      ensures Base() && Gap() == old(Gap()) && inflight == old(inflight) + 1
      ensures outMessages == old(outMessages)[i := old(outMessages)[i].(state := WaitForPuback)]
      ensures SameMessages(old(outMessages), outMessages)
      ensures !rc.QueueSize? && hasSocket == rc.Success? && (rc.NoConn? <==> !old(hasSocket))
      ensures sent == if rc.NoConn? then old(sent) else old(sent) + {outMessages[i].mid}
      ensures hasSocket == (old(hasSocket) && network(old(clock)))
    {
      hide IsStore, SameMessages, Waiting;
      inflight := inflight + 1;
      StoreAfterStep(outMessages, published, serials, sent, i, outMessages[i].(state := WaitForPuback));
      Update(i, outMessages[i].(state := WaitForPuback));
      rc := SendPublish(outMessages[i].mid);
    }

    /** publish with QoS 1: the store's part. */
    method PublishMessage() returns (rc: Rc)
      requires Base()
      modifies `outMessages, `inflight, `lastMid, `clock, `hasSocket, `serials, `sent, `flushed
      ensures Base() && Gap() == old(Gap())
      ensures lastMid == if old(lastMid) == 65535 then 1 else old(lastMid) + 1
      ensures rc.QueueSize? <==> (0 < maxQueued <= |old(outMessages)|) || lastMid in Mids(old(outMessages))
      ensures rc.QueueSize? ==> outMessages == old(outMessages) && inflight == old(inflight) && serials == old(serials)
      ensures !rc.QueueSize? ==> serials == old(serials) + 1
      ensures !rc.QueueSize? ==>
        outMessages == old(outMessages) + [Message(lastMid, old(serials),
          if maxInflight != 0 && old(inflight) >= maxInflight then Queued
          else if old(hasSocket) then WaitForPuback else ToPublish, false)]
      ensures !rc.QueueSize? && old(hasSocket) && (maxInflight == 0 || old(inflight) < maxInflight) ==> lastMid in sent
      ensures !rc.QueueSize? && 0 < maxInflight <= old(inflight) ==> rc.Success?
      ensures !rc.QueueSize? && (maxInflight == 0 || old(inflight) < maxInflight) ==>
        (rc.NoConn? <==> !old(hasSocket)) && (rc.Success? <==> old(hasSocket) && network(old(clock)))
      ensures old(inflight) <= maxInflight ==> inflight <= maxInflight || maxInflight == 0
      ensures old(NothingIdle()) ==> NothingIdle()
      ensures !old(hasSocket) ==> !hasSocket && inflight == old(inflight)
    {
      hide IsStore, SameMessages, Waiting, Mids;
      var mid := MidGenerate();
      if 0 < maxQueued <= |outMessages| || mid in Mids(outMessages) {
        return QueueSize;
      }
      var n := |outMessages|;
      var room := maxInflight == 0 || inflight < maxInflight;
      var message := Message(mid, serials, if room then ToPublish else Queued, false);
      StoreWithMore(outMessages, published, serials, sent, message);
      WaitingAppend(outMessages, message);
      outMessages := outMessages + [message];
      serials := serials + 1;
      rc := Success;
      if room {
        rc := SendWaiting(n);
        if rc.NoConn? {
          inflight := inflight - 1;
          Update(n, outMessages[n].(state := ToPublish));
        }
      }
    }

    /** The socket is closed. */
    method SocketLost()
      requires Base()
      modifies `hasSocket
      ensures Base() && Gap() == old(Gap()) && !hasSocket
    {
      hasSocket := false;
    }

    /**
     reconnect: _messages_reconnect_reset_out, then a new socket.  Whatever the counter was, it is right again;
     every message is to be sent again, as a duplicate if it had been sent before.
     */
    method Reconnect()
      requires Base()
      modifies `outMessages, `inflight, `hasSocket, `sent
      ensures Valid() && hasSocket && inflight == 0 && sent == {} && NothingIdle()
      ensures SameMessages(old(outMessages), outMessages)
      ensures |outMessages| == |old(outMessages)| && forall i :: 0 <= i < |outMessages| ==>
        && outMessages[i].state == ToPublish
        && outMessages[i].dup == (old(outMessages)[i].dup || old(outMessages)[i].state.WaitForPuback?)
    {
      hide IsStore, SameMessages, Waiting;
      NothingSent(outMessages, published, serials, sent);
      SameInTurn(outMessages, outMessages, outMessages);
      hasSocket := false;
      inflight, sent := 0, {};
      for i := 0 to |outMessages|
        invariant Base() && inflight == 0 && sent == {} && |outMessages| == |old(outMessages)|
        invariant SameMessages(old(outMessages), outMessages)
        invariant forall k :: 0 <= k < i ==>
          && outMessages[k].state == ToPublish
          && outMessages[k].dup == (old(outMessages)[k].dup || old(outMessages)[k].state.WaitForPuback?)
        invariant forall k :: i <= k < |outMessages| ==> outMessages[k] == old(outMessages)[k]
      {
        var m := outMessages[i];
        ghost var before := outMessages;
        var room := maxInflight == 0 || inflight < maxInflight;
        Update(i, if room then m.(state := ToPublish, dup := m.dup || m.state.WaitForPuback?) else m.(state := Queued));
        SameInTurn(old(outMessages), before, outMessages);
      }
      NoneWaiting(outMessages);
      hasSocket := true;
    }

    /** _handle_connack: every message that is to be sent again goes out, up to the first queued one. */
    method HandleConnack(accepted: bool) returns (rc: Rc)
      requires Base()
      modifies `outMessages, `inflight, `clock, `hasSocket, `sent, `flushed
      ensures Base() && Gap() == old(Gap()) && SomeSent(old(outMessages), outMessages, ToPublish)
      ensures !rc.NoConn? ==> AreSent(old(outMessages), outMessages, sent)
      ensures !accepted ==> rc.Error? && outMessages == old(outMessages)
      ensures accepted && old(hasSocket) && NetworkWorks() ==> rc.Success? && hasSocket
      ensures accepted && rc.Success? && outMessages != [] ==> flushed
      ensures accepted && old(hasSocket) && NetworkWorks() ==>
        forall i :: 0 <= i < |outMessages| && IsAhead(old(outMessages), i) ==> outMessages[i].state.WaitForPuback?
      ensures old(NothingIdle()) ==> NothingIdle()
    {
      hide IsStore, SameMessages, Waiting;
      if !accepted {
        return Error;
      }
      rc := Success;
      for i := 0 to |outMessages|
        invariant Base() && Gap() == old(Gap()) && |outMessages| == |old(outMessages)| && rc.Success?
        invariant SomeSent(old(outMessages), outMessages, ToPublish) && AreSent(old(outMessages), outMessages, sent)
        invariant inflight >= old(inflight) && (i > 0 ==> flushed)
        invariant forall k :: 0 <= k < i ==> outMessages[k].state.WaitForPuback?
        invariant forall k :: i <= k < |outMessages| ==> outMessages[k] == old(outMessages)[k]
        invariant old(hasSocket) && NetworkWorks() ==> hasSocket
      {
        if outMessages[i].state.Queued? {
          LoopWrite();
          return Success;
        }
        if outMessages[i].state.ToPublish? {
          rc := SendWaiting(i);
          if !rc.Success? {
            return;
          }
        }
        LoopWrite();
      }
    }

    /** _update_inflight: queued messages go out while there is room. */
    method UpdateInflight() returns (rc: Rc)
      requires Base()
      modifies `outMessages, `inflight, `clock, `hasSocket, `sent, `flushed
      ensures Base() && Gap() == old(Gap()) && SomeSent(old(outMessages), outMessages, Queued)
      ensures !rc.NoConn? ==> AreSent(old(outMessages), outMessages, sent)
      ensures InOrder(old(outMessages), outMessages)
      ensures old(inflight) <= maxInflight ==> inflight <= maxInflight
      ensures rc.Success? ==> inflight >= maxInflight || NoneQueued(outMessages)
      ensures inflight > old(inflight) || inflight >= maxInflight || NoneQueued(outMessages)
      ensures inflight >= old(inflight)
      ensures old(hasSocket) && NetworkWorks() ==> rc.Success? && hasSocket
    {
      hide IsStore, SameMessages, Waiting;
      for i := 0 to |outMessages|
        invariant Base() && Gap() == old(Gap()) && |outMessages| == |old(outMessages)|
        invariant SomeSent(old(outMessages), outMessages, Queued) && AreSent(old(outMessages), outMessages, sent)
        invariant forall k :: i <= k < |outMessages| ==> outMessages[k] == old(outMessages)[k]
        invariant old(inflight) <= maxInflight ==> inflight <= maxInflight
        invariant inflight >= old(inflight)
        invariant forall k :: 0 <= k < i ==> !outMessages[k].state.Queued?
        invariant old(hasSocket) && NetworkWorks() ==> hasSocket
      {
        if inflight < maxInflight {
          if outMessages[i].state.Queued? {
            rc := SendWaiting(i);
            if !rc.Success? {
              return;
            }
          }
        } else {
          return Success;
        }
      }
      rc := Success;
    }

    /**
     _handle_pubackcomp and _do_on_publish: the message with that id, and no other, leaves the store and is
     published, and queued messages take the room that it leaves.  The counter stays right if and only if the
     message was waiting or there is none; it always was if the broker acknowledges only what was sent on this
     connection.
     */
    method HandlePuback(mid: nat) returns (rc: Rc)
      requires Base()
      modifies `outMessages, `inflight, `clock, `hasSocket, `published, `sent, `flushed
      ensures Base()
      ensures mid !in Mids(old(outMessages)) ==>
        rc.Success? && outMessages == old(outMessages) && published == old(published) && inflight == old(inflight)
      ensures maxInflight == 0 ==> rc.Success?
      ensures mid in Mids(old(outMessages)) ==>
        exists i :: 0 <= i < |old(outMessages)|
          && IsTaken(old(outMessages), outMessages, old(published), published, i, mid)
          && (!rc.NoConn? ==> AreSent(Without(old(outMessages), i), outMessages, sent))
          && (maxInflight == 0 ==> outMessages == Without(old(outMessages), i))
      ensures mid in Mids(old(outMessages)) && maxInflight > 0 && old(hasSocket) && NetworkWorks() ==>
        rc.Success? && hasSocket && (inflight >= maxInflight || NoneQueued(outMessages))
      ensures old(NothingIdle()) ==> NothingIdle()
      ensures Gap() == old(Gap()) <==> mid !in Mids(old(outMessages)) || mid in WaitingMids(old(outMessages))
      ensures mid in old(sent) ==> Gap() == old(Gap())
      ensures old(inflight) <= maxInflight ==> inflight <= maxInflight
    {
      hide IsStore, SameMessages, Waiting, Mids, WaitingMids, AreSent;
      rc := Success;
      if mid !in Mids(outMessages) {
        SentIsStored(outMessages, published, serials, sent);
        return;
      }
      var i := IndexOf(mid);
      ghost var before := outMessages;
      WaitingWithout(before, i);
      StoreWithout(before, published, serials, sent, i);
      published := published + {outMessages[i].serial};
      outMessages := outMessages[..i] + outMessages[i + 1..];
      sent := sent - {mid};
      inflight := inflight - 1;
      NothingChanged(outMessages, sent);
      if maxInflight > 0 {
        rc := UpdateInflight();
      }
      assert IsTaken(before, outMessages, old(published), published, i, mid);
    }

    /**
     How one event leaves the account: a publication adds one id, a PUBACK moves at most its own message, and
     only a CONNACK can lead beyond the limit.
     */
    method Step(e: Event, ghost mids: seq<nat>) returns (ghost now: seq<nat>)
      requires Base() && Accounted(outMessages, published, mids) && serials == |mids|
      modifies this
      ensures Base() && Accounted(outMessages, published, now) && serials == |now| && mids <= now
      ensures e.Puback? && e.mid in old(sent) ==> Gap() == old(Gap())
      ensures e.Puback? ==> forall s :: s in published && s !in old(published) ==> s < |now| && now[s] == e.mid
      ensures !e.Puback? ==> published == old(published) && (e.Reconnect? || Gap() == old(Gap()))
      ensures e.Reconnect? ==> Gap() == 0
      ensures old(published) <= published
      ensures 0 < maxQueued && |old(outMessages)| <= maxQueued ==> |outMessages| <= maxQueued
      ensures !e.Connack? && 0 < maxInflight && old(inflight) <= maxInflight ==> inflight <= maxInflight
      ensures old(NothingIdle()) ==> NothingIdle()
      ensures history == old(history) + [e]
      ensures e.Publish? ==> lastMid == if old(lastMid) == 65535 then 1 else old(lastMid) + 1
      ensures e.Publish? && ((0 < maxQueued <= |old(outMessages)|) || lastMid in Mids(old(outMessages))) ==>
        outMessages == old(outMessages) && now == mids
      ensures e.Publish? && !((0 < maxQueued <= |old(outMessages)|) || lastMid in Mids(old(outMessages))) ==>
        now == mids + [lastMid] && |outMessages| == |old(outMessages)| + 1 && outMessages[..|old(outMessages)|] == old(outMessages)
      ensures e.Puback? && e.mid in Mids(old(outMessages)) ==>
        exists i :: 0 <= i < |old(outMessages)| && IsTaken(old(outMessages), outMessages, old(published), published, i, e.mid)
      ensures e.SocketLost? ==> !hasSocket && outMessages == old(outMessages)
      ensures e.Reconnect? ==> hasSocket && forall m :: m in outMessages ==> m.state == ToPublish
      ensures e.Connack? && e.accepted && old(hasSocket) && NetworkWorks() ==>
        forall i :: 0 <= i < |outMessages| && i < |old(outMessages)| && IsAhead(old(outMessages), i) ==> outMessages[i].state.WaitForPuback?
    {
      hide IsStore, SameMessages, SomeSent, Waiting, Mids, WaitingMids, Accounted;
      now := mids;
      history := history + [e];
      match e
      case Publish =>
        var rc := PublishMessage();
        if !rc.QueueSize? {
          ghost var m := outMessages[|outMessages| - 1];
          AccountedMore(old(outMessages), published, mids, m);
          now := mids + [m.mid];
        }
      case Puback(mid) =>
        var rc := HandlePuback(mid);
        if mid in Mids(old(outMessages)) {
          ghost var i :| 0 <= i < |old(outMessages)| && IsTaken(old(outMessages), outMessages, old(published), published, i, mid);
          TakenIsAccounted(old(outMessages), outMessages, old(published), published, old(serials), old(sent), mids, i, mid);
        }
      case SocketLost =>
        SocketLost();
      case Reconnect =>
        Reconnect();
        AccountedSame(old(outMessages), outMessages, published, mids);
      case Connack(accepted) =>
        var rc := HandleConnack(accepted);
        SomeSentSame(old(outMessages), outMessages, ToPublish);
        AccountedSame(old(outMessages), outMessages, published, mids);
        SameLength(old(outMessages), outMessages);
    }

    /**
     Any run: no message is lost or published twice, a message is published only by a PUBACK with its own id,
     and as long as the broker acknowledges only what was sent on the connection, the counter is the number of
     messages that wait.  A queue limit no larger than the flight limit then keeps the flight limit.  However the
     network behaves, a message is held back only while the limit is reached.  sents holds what had been sent
     before each event, now the id of every message.
     */
    method Interleave(events: seq<Event>, ghost mids: seq<nat>) returns (ghost now: seq<nat>, ghost sents: seq<set<nat>>)
      requires Valid() && Accounted(outMessages, published, mids) && serials == |mids|
      modifies this
      ensures Base() && Accounted(outMessages, published, now) && serials == |now| && mids <= now
      ensures old(published) <= published
      ensures forall s :: s in published && s !in old(published) ==> s < |now| && Puback(now[s]) in events
      ensures |sents| == |events| && history == old(history) + events
      ensures Honest(events, sents) ==> Valid()
      ensures old(NothingIdle()) ==> NothingIdle()
      ensures Honest(events, sents) && 0 < maxQueued <= maxInflight && |old(outMessages)| <= maxQueued ==> inflight <= maxInflight
    {
      hide IsStore, SameMessages, Waiting, Mids, WaitingMids, Accounted, Honest;
      now, sents := mids, [];
      NoEvents();
      for k := 0 to |events|
        invariant Base() && Accounted(outMessages, published, now) && serials == |now| && mids <= now
        invariant old(published) <= published
        invariant forall s :: s in published && s !in old(published) ==> s < |now| && Puback(now[s]) in events
        invariant |sents| == k && (Honest(events[..k], sents) ==> Gap() == 0)
        invariant old(NothingIdle()) ==> NothingIdle()
        invariant history == old(history) + events[..k]
        invariant 0 < maxQueued && |old(outMessages)| <= maxQueued ==> |outMessages| <= maxQueued
      {
        HonestOnce(events, sents, k, sent);
        sents := sents + [sent];
        now := Step(events[k], now);
      }
      assert events[..|events|] == events;
      WaitingAtMost(outMessages);
    }

    /**
     The limit on messages in flight after a reconnection, when nothing goes wrong on the new connection: it
     holds if and only if no more messages are stored than may be in flight.  A limit of 0 is none.
     */
    method LimitAfterReconnection()
      requires Base() && NetworkWorks()
      modifies this
      ensures Valid() && inflight == |old(outMessages)| == |outMessages|
      ensures maxInflight == 0 || inflight <= maxInflight <==> maxInflight == 0 || |old(outMessages)| <= maxInflight
    {
      hide IsStore, SameMessages, Waiting;
      Reconnect();
      var rc := HandleConnack(true);
      AllWaiting(outMessages);
    }

    method IndexOf(mid: nat) returns (i: nat)
      requires mid in Mids(outMessages)
      ensures i < |outMessages| && outMessages[i].mid == mid
    {
      ghost var found :| 0 <= found < |outMessages| && outMessages[found].mid == mid;
      i := 0;
      while outMessages[i].mid != mid
        invariant i <= found
        decreases found - i
      {
        i := i + 1;
      }
    }
  }

  lemma {:induction false} SameLength(a: seq<Message>, b: seq<Message>)
    requires SameMessages(a, b)
    ensures |a| == |b|
  {}

  lemma {:induction false} TakenIsAccounted(before: seq<Message>, after: seq<Message>, published: set<nat>, now: set<nat>,
                                            serials: nat, sent: set<nat>, mids: seq<nat>, i: nat, mid: nat)
    requires IsStore(before, published, serials, sent) && Accounted(before, published, mids)
    requires i < |before| && IsTaken(before, after, published, now, i, mid)
    ensures Accounted(after, now, mids) && |after| < |before|
    ensures published <= now && forall s :: s in now && s !in published ==> s < |mids| && mids[s] == mid
  {
    hide DistinctMids, WaitingMids;
    AccountedWithout(before, published, mids, i);
    SomeSentSame(before[..i] + before[i + 1..], after, Queued);
    AccountedSame(before[..i] + before[i + 1..], after, now, mids);
  }

  lemma {:induction false} SentIsStored(ms: seq<Message>, published: set<nat>, serials: nat, sent: set<nat>)
    requires IsStore(ms, published, serials, sent)
    ensures sent <= Mids(ms)
  {}

  lemma {:induction false} AllWaiting(ms: seq<Message>)
    requires forall i :: 0 <= i < |ms| ==> ms[i].state.WaitForPuback?
    ensures Waiting(ms) == |ms|
  {
    if ms != [] {
      AllWaiting(ms[..|ms| - 1]);
    }
  }

  /**
   So the limit does not survive a reconnection: messages published without a connection do not count, and the
   CONNACK sends them all.
   */
  method LimitIsExceeded() returns (inflight: int, limit: nat)
    ensures 0 < limit < inflight
  {
    hide IsStore;
    limit := 1;
    var client := new Client(limit, 0, _ => true);
    var rc := client.PublishMessage();
    assert client.outMessages == [Message(1, 0, ToPublish, false)];
    rc := client.PublishMessage();
    assert |client.outMessages| == 2;
    client.LimitAfterReconnection();
    inflight := client.inflight;
  }

  /**
   The message at i, with the given id, has left the store and is published; of the others the first queued ones
   have started to wait.
   */
  ghost predicate IsTaken(before: seq<Message>, after: seq<Message>, published: set<nat>, now: set<nat>, i: nat, mid: nat)
    requires i < |before|
  {
    && before[i].mid == mid && now == published + {before[i].serial}
    && SomeSent(Without(before, i), after, Queued) && InOrder(Without(before, i), after)
  }

  lemma {:induction false} NothingChanged(ms: seq<Message>, sent: set<nat>)
    ensures AreSent(ms, ms, sent)
  {}

  lemma {:induction false} AddMessage(ms: seq<Message>, m: Message, sent: set<nat>)
    requires DistinctMids(ms) && m.mid !in Mids(ms) && sent <= WaitingMids(ms)
    ensures DistinctMids(ms + [m]) && sent <= WaitingMids(ms + [m]) && m.mid !in sent
  {
    forall i | 0 <= i < |ms| ensures ms[i].mid != m.mid {
      assert ms[i] in ms;
    }
    forall x | x in sent ensures x in WaitingMids(ms + [m]) && x != m.mid {
      var k :| 0 <= k < |ms| && ms[k].state.WaitForPuback? && ms[k].mid == x;
      assert (ms + [m])[k] in ms + [m];
    }
  }

  lemma {:induction false} NoneWaiting(ms: seq<Message>)
    requires forall i :: 0 <= i < |ms| ==> ms[i].state == ToPublish
    ensures Waiting(ms) == 0
  {
    if ms != [] {
      NoneWaiting(ms[..|ms| - 1]);
    }
  }

  lemma {:induction false} PopMessage(ms: seq<Message>, i: nat, sent: set<nat>)
    requires i < |ms| && DistinctMids(ms) && sent <= WaitingMids(ms)
    ensures DistinctMids(ms[..i] + ms[i + 1..]) && sent - {ms[i].mid} <= WaitingMids(ms[..i] + ms[i + 1..])
  {
    var rest := ms[..i] + ms[i + 1..];
    forall x | x in sent && x != ms[i].mid ensures x in WaitingMids(rest) {
      var k :| 0 <= k < |ms| && ms[k].state.WaitForPuback? && ms[k].mid == x;
      assert rest[if k < i then k else k - 1] == ms[k];
      assert ms[k] in rest;
    }
  }

  /** With distinct ids, an id is among the waiting ones exactly if its message waits. */
  lemma {:induction false} WaitingAt(ms: seq<Message>, i: nat)
    requires i < |ms| && DistinctMids(ms)
    ensures ms[i].mid in WaitingMids(ms) <==> ms[i].state.WaitForPuback?
    ensures ms[i].mid in Mids(ms)
  {
    assert ms[i] in ms;
  }

  lemma {:induction false} KeepsWaiting(ms: seq<Message>, i: nat, m: Message, sent: set<nat>)
    requires i < |ms| && m.mid == ms[i].mid && DistinctMids(ms) && sent <= WaitingMids(ms)
    requires ms[i].mid in sent ==> m.state.WaitForPuback?
    ensures sent <= WaitingMids(ms[i := m])
  {
    forall x | x in sent ensures x in WaitingMids(ms[i := m]) {
      var k :| 0 <= k < |ms| && ms[k].state.WaitForPuback? && ms[k].mid == x;
      assert ms[i := m][k] in ms[i := m];
    }
  }
}
