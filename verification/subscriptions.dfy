/**
 Subscription bookkeeping (class FmdMqttClient, qml/utilities/mqtt_client.py: connect, disconnect, _add_sub,
 _subscribe_now, _refresh_connected, _handle_connect, _handle_disconnect, _handle_subscribe) as a state machine.
 Caller threads take their steps while network threads, one for each client ever made, are anywhere in
 _handle_connect; the lock makes each access to the three tables one step.  disconnect waits for nobody.
 */
module Subscriptions {
  import opened Wrappers

  /** Topics matter only up to equality. */
  type Topic = nat

  /** A thread inside _add_sub: the wish is written; it has read the flag and will subscribe on that client. */
  datatype Adder = Idle | Wrote(topic: Topic) | WillSubscribe(topic: Topic, client: nat)

  /** A network thread at a CONNACK: before the guard; the flag is set; the wishes are copied and sent one by one. */
  datatype Handler = Arrived | FlagSet | Sending(rest: set<Topic>)

  /** Clients are numbered in the order of their creation; message ids count up per client. */
  datatype State = State(
    client: Option<nat>, clients: nat, connected: bool,
    // disconnect has dropped the client and not yet cleared the tables
    clearing: bool,
    subs: set<Topic>, pending: map<nat, Topic>, confirmed: set<Topic>,
    lastMid: map<nat, nat>, handlers: map<nat, Handler>, adders: seq<Adder>,
    // what has really happened: clients that report a connection, whether the current one has accepted its CONNACK
    // and not lost the connection, SUBSCRIBE packets by client and message id, topics the broker granted or
    // refused since then, and subscribe calls that did not queue
    up: set<nat>, live: bool, sent: map<(nat, nat), Topic>, granted: set<Topic>, refused: set<Topic>, failed: set<Topic>)

  datatype Event =
    | Connect
    | Disconnect
    | ClearTables
    | AddWish(i: nat, topic: Topic)
    | AddRead(i: nat)
    | AddSubscribe(i: nat, queued: bool)
    | ConnackArrives(client: nat)
    | ConnackBegin(client: nat)
    | ConnackCopy(client: nat)
    | ConnackSubscribe(client: nat, topic: Topic, queued: bool)
    | ConnackEnd(client: nat)
    | ConnackRefused(client: nat)
    | Lost(client: nat)
    | Reconnecting(client: nat)
    | Refresh
    | Suback(client: nat, mid: nat, granted: bool)

  function Mid(s: State, c: nat): nat {
    1 + if c in s.lastMid then s.lastMid[c] else 0
  }

  /** _subscribe_now */
  function SubscribeNow(s: State, c: nat, topic: Topic, queued: bool): State {
    if queued
    then s.(lastMid := s.lastMid[c := Mid(s, c)], sent := s.sent[(c, Mid(s, c)) := topic], pending := s.pending[Mid(s, c) := topic])
    else if s.client == Some(c) then s.(failed := s.failed + {topic}) else s
  }

  function Cleared(s: State): State {
    s.(pending := map[], confirmed := {}, granted := {}, refused := {}, failed := {})
  }

  function SetAdder(s: State, i: nat, a: Adder): State
    requires i < |s.adders|
  {
    s.(adders := s.adders[i := a])
  }

  predicate IsSending(s: State, c: nat, topic: Topic) {
    c in s.handlers && s.handlers[c].Sending? && topic in s.handlers[c].rest
  }

  function SetHandler(s: State, c: nat, h: Handler): State {
    s.(handlers := s.handlers[c := h])
  }

  function HandleSuback(s: State, mid: nat, topic: Topic, granted: bool): State {
    var t := if granted then s.(granted := s.granted + {topic}) else s;
    if mid !in s.pending then t
    else
      var u := t.(pending := s.pending - {mid});
      if granted then u.(confirmed := s.confirmed + {s.pending[mid]}) else u.(refused := s.refused + {s.pending[mid]})
  }

  // ---- the events; one that cannot happen changes nothing ------------------------------------

  function AfterConnect(s: State): State {
    if s.client.None? && !s.clearing then s.(client := Some(s.clients), clients := s.clients + 1) else s
  }

  /** disconnect, up to the lock. */
  function AfterDisconnect(s: State): State {
    if s.clearing then s else s.(client := None, connected := false, live := false, clearing := true)
  }

  /** disconnect, under the lock. */
  function AfterClear(s: State): State {
    if s.clearing then Cleared(s).(clearing := false) else s
  }

  function AfterWish(s: State, i: nat, topic: Topic): State {
    if i < |s.adders| && s.adders[i].Idle? then SetAdder(s, i, Wrote(topic)).(subs := s.subs + {topic}) else s
  }

  function AfterRead(s: State, i: nat): State {
    if i < |s.adders| && s.adders[i].Wrote?
    then SetAdder(s, i, if s.client.Some? && s.connected then WillSubscribe(s.adders[i].topic, s.client.value) else Idle)
    else s
  }

  function AfterSubscribe(s: State, i: nat, queued: bool): State {
    if i < |s.adders| && s.adders[i].WillSubscribe?
    then SubscribeNow(SetAdder(s, i, Idle), s.adders[i].client, s.adders[i].topic, queued) else s
  }

  function AfterArrival(s: State, c: nat): State {
    if c < s.clients && c !in s.handlers && c !in s.up then SetHandler(s, c, Arrived).(up := s.up + {c}) else s
  }

  /** The guard and the flag; a stale callback is dropped. */
  function AfterBegin(s: State, c: nat): State {
    if c !in s.handlers || !s.handlers[c].Arrived? then s
    else if s.client == Some(c) then SetHandler(s, c, FlagSet).(connected := true, live := true)
    else s.(handlers := s.handlers - {c})
  }

  function AfterCopy(s: State, c: nat): State {
    if c !in s.handlers || !s.handlers[c].FlagSet? then s
    else SetHandler(if s.client == Some(c) then Cleared(s) else s.(pending := map[], confirmed := {}), c, Sending(s.subs))
  }

  function AfterSend(s: State, c: nat, topic: Topic, queued: bool): State {
    if IsSending(s, c, topic)
    then SubscribeNow(SetHandler(s, c, Sending(s.handlers[c].rest - {topic})), c, topic, queued) else s
  }

  function AfterEnd(s: State, c: nat): State {
    if c in s.handlers && s.handlers[c] == Sending({}) then s.(handlers := s.handlers - {c}) else s
  }

  function AfterRefusal(s: State, c: nat): State {
    if s.client == Some(c) && c !in s.handlers && c !in s.up then s.(connected := false) else s
  }

  function AfterLoss(s: State, c: nat): State {
    if s.client == Some(c) && c !in s.handlers then Cleared(s).(connected := false, live := false) else s
  }

  /** Only after the loss of the connection has been reported. */
  function AfterReconnecting(s: State, c: nat): State {
    if c !in s.handlers && (s.client != Some(c) || !s.live) then s.(up := s.up - {c}) else s
  }

  /** _refresh_connected */
  function AfterRefresh(s: State): State {
    s.(connected := s.client.Some? && s.client.value in s.up)
  }

  /** The broker answers what was sent; the handler runs on the network thread, after _handle_connect. */
  function AfterSuback(s: State, c: nat, mid: nat, granted: bool): State {
    if s.client == Some(c) && c !in s.handlers && (c, mid) in s.sent then HandleSuback(s, mid, s.sent[(c, mid)], granted) else s
  }

  function Next(s: State, e: Event): State {
    match e
    case Connect => AfterConnect(s)
    case Disconnect => AfterDisconnect(s)
    case ClearTables => AfterClear(s)
    case AddWish(i, topic) => AfterWish(s, i, topic)
    case AddRead(i) => AfterRead(s, i)
    case AddSubscribe(i, queued) => AfterSubscribe(s, i, queued)
    case ConnackArrives(c) => AfterArrival(s, c)
    case ConnackBegin(c) => AfterBegin(s, c)
    case ConnackCopy(c) => AfterCopy(s, c)
    case ConnackSubscribe(c, topic, queued) => AfterSend(s, c, topic, queued)
    case ConnackEnd(c) => AfterEnd(s, c)
    case ConnackRefused(c) => AfterRefusal(s, c)
    case Lost(c) => AfterLoss(s, c)
    case Reconnecting(c) => AfterReconnecting(s, c)
    case Refresh => AfterRefresh(s)
    case Suback(c, mid, granted) => AfterSuback(s, c, mid, granted)
  }

  function Run(s: State, events: seq<Event>): State {
    if events == [] then s else Next(Run(s, events[..|events| - 1]), events[|events| - 1])
  }

  predicate IsInitial(s: State) {
    && s.client.None? && !s.connected && !s.clearing && s.subs == {} && s.pending == map[] && s.confirmed == {}
    && s.lastMid == map[] && s.handlers == map[] && s.up == {} && !s.live
    && s.sent == map[] && s.granted == {} && s.failed == {} && s.refused == {}
    && forall i :: 0 <= i < |s.adders| ==> s.adders[i] == Idle
  }

  // ---- what every step keeps -----------------------------------------------------------------

  ghost predicate Structure(s: State) {
    && (s.live ==> s.client.Some? && s.connected && s.client.value in s.up)
    && (s.client.Some? ==> s.client.value < s.clients)
    && (s.clearing ==> s.client.None?)
    && (forall k :: k in s.sent ==> k.0 < s.clients && k.1 < Mid(s, k.0))
    && (forall i :: 0 <= i < |s.adders| && s.adders[i].WillSubscribe? ==> s.adders[i].client < s.clients)
    && (forall c :: c in s.handlers ==> c < s.clients && c in s.up)
    && (s.live && s.client.value in s.handlers ==> !s.handlers[s.client.value].Arrived?)
  }

  lemma {:induction false} SubscribeStructure(s: State, c: nat, topic: Topic, queued: bool)
    requires Structure(s) && c < s.clients
    ensures Structure(SubscribeNow(s, c, topic, queued))
  {}

  lemma {:induction false} StructureConnect(s: State)
    requires Structure(s)
    ensures Structure(AfterConnect(s))
  {}

  lemma {:induction false} StructureDisconnect(s: State)
    requires Structure(s)
    ensures Structure(AfterDisconnect(s))
  {}

  lemma {:induction false} StructureClear(s: State)
    requires Structure(s)
    ensures Structure(AfterClear(s))
  {}

  lemma {:induction false} StructureWish(s: State, i: nat, topic: Topic)
    requires Structure(s)
    ensures Structure(AfterWish(s, i, topic))
  {}

  lemma {:induction false} StructureRead(s: State, i: nat)
    requires Structure(s)
    ensures Structure(AfterRead(s, i))
  {}

  lemma {:induction false} StructureSubscribe(s: State, i: nat, queued: bool)
    requires Structure(s)
    ensures Structure(AfterSubscribe(s, i, queued))
  {
    if i < |s.adders| && s.adders[i].WillSubscribe? {
      SubscribeStructure(SetAdder(s, i, Idle), s.adders[i].client, s.adders[i].topic, queued);
    }
  }

  lemma {:induction false} StructureArrival(s: State, c: nat)
    requires Structure(s)
    ensures Structure(AfterArrival(s, c))
  {}

  lemma {:induction false} StructureBegin(s: State, c: nat)
    requires Structure(s)
    ensures Structure(AfterBegin(s, c))
  {}

  lemma {:induction false} StructureCopy(s: State, c: nat)
    requires Structure(s)
    ensures Structure(AfterCopy(s, c))
  {
    if c in s.handlers && s.handlers[c].FlagSet? {
      TablesStructure(s);
      hide Structure;
      StructureHandler(if s.client == Some(c) then Cleared(s) else s.(pending := map[], confirmed := {}), c, Sending(s.subs));
    }
  }

  lemma {:induction false} TablesStructure(s: State)
    requires Structure(s)
    ensures Structure(Cleared(s)) && Structure(s.(pending := map[], confirmed := {}))
  {}

  lemma {:induction false} StructureHandler(s: State, c: nat, h: Handler)
    requires Structure(s) && c in s.handlers && !h.Arrived?
    ensures Structure(SetHandler(s, c, h))
  {}

  lemma {:induction false} StructureSend(s: State, c: nat, topic: Topic, queued: bool)
    requires Structure(s)
    ensures Structure(AfterSend(s, c, topic, queued))
  {
    if IsSending(s, c, topic) {
      SubscribeStructure(SetHandler(s, c, Sending(s.handlers[c].rest - {topic})), c, topic, queued);
    }
  }

  lemma {:induction false} StructureEnd(s: State, c: nat)
    requires Structure(s)
    ensures Structure(AfterEnd(s, c))
  {}

  lemma {:induction false} StructureRefusal(s: State, c: nat)
    requires Structure(s)
    ensures Structure(AfterRefusal(s, c))
  {}

  lemma {:induction false} StructureLoss(s: State, c: nat)
    requires Structure(s)
    ensures Structure(AfterLoss(s, c))
  {}

  lemma {:induction false} StructureReconnecting(s: State, c: nat)
    requires Structure(s)
    ensures Structure(AfterReconnecting(s, c))
  {}

  lemma {:induction false} StructureRefresh(s: State)
    requires Structure(s)
    ensures Structure(AfterRefresh(s))
  {}

  lemma {:induction false} StructureSuback(s: State, c: nat, mid: nat, granted: bool)
    requires Structure(s)
    ensures Structure(AfterSuback(s, c, mid, granted))
  {}

  lemma {:induction false} StructureStep(s: State, e: Event)
    requires Structure(s)
    ensures Structure(Next(s, e))
  {
    hide Structure;
    hide AfterConnect, AfterDisconnect, AfterClear, AfterWish, AfterRead, AfterSubscribe, AfterArrival, AfterBegin, AfterCopy;
    hide AfterSend, AfterEnd, AfterRefusal, AfterLoss, AfterReconnecting, AfterRefresh, AfterSuback;
    match e
    case Connect => StructureConnect(s);
    case Disconnect => StructureDisconnect(s);
    case ClearTables => StructureClear(s);
    case AddWish(i, topic) => StructureWish(s, i, topic);
    case AddRead(i) => StructureRead(s, i);
    case AddSubscribe(i, queued) => StructureSubscribe(s, i, queued);
    case ConnackArrives(c) => StructureArrival(s, c);
    case ConnackBegin(c) => StructureBegin(s, c);
    case ConnackCopy(c) => StructureCopy(s, c);
    case ConnackSubscribe(c, topic, queued) => StructureSend(s, c, topic, queued);
    case ConnackEnd(c) => StructureEnd(s, c);
    case ConnackRefused(c) => StructureRefusal(s, c);
    case Lost(c) => StructureLoss(s, c);
    case Reconnecting(c) => StructureReconnecting(s, c);
    case Refresh => StructureRefresh(s);
    case Suback(c, mid, granted) => StructureSuback(s, c, mid, granted);
  }

  // ---- when the tables are right -------------------------------------------------------------

  /** The current client sent that id on this connection, for the topic that is pending under it. */
  ghost predicate IsSent(s: State, mid: nat) {
    s.client.Some? && mid in s.pending && (s.client.value, mid) in s.sent && s.sent[(s.client.value, mid)] == s.pending[mid]
  }

  /** No id of the current client is pending for another topic, and what is confirmed was granted. */
  ghost predicate IsTrue(s: State) {
    && (s.client.Some? ==> forall mid :: mid in s.pending && (s.client.value, mid) in s.sent ==> IsSent(s, mid))
    && s.confirmed <= s.granted
  }

  ghost predicate IsPending(s: State, topic: Topic) {
    exists mid :: IsSent(s, mid) && s.pending[mid] == topic
  }

  /** Some thread is still going to subscribe the topic on the current client, or the broker or the client said no. */
  ghost predicate IsInProgress(s: State, topic: Topic) {
    || topic in s.refused || topic in s.failed
    || (s.client.Some? && s.client.value in s.handlers && s.handlers[s.client.value].FlagSet?)
    || (s.client.Some? && IsSending(s, s.client.value, topic))
    || (exists i :: 0 <= i < |s.adders| && TakesCare(s, s.adders[i], topic))
  }

  predicate TakesCare(s: State, a: Adder, topic: Topic) {
    !a.Idle? && a.topic == topic && (a.Wrote? || s.client == Some(a.client))
  }

  ghost predicate IsCovered(s: State, topic: Topic) {
    topic in s.confirmed || IsPending(s, topic) || IsInProgress(s, topic)
  }

  ghost predicate IsComplete(s: State) {
    s.live ==> forall topic :: topic in s.subs ==> IsCovered(s, topic)
  }

  ghost predicate IsRight(s: State) {
    IsTrue(s) && IsComplete(s)
  }

  /** The id that client c is going to use is already the current client's, for another topic. */
  predicate Clashes(s: State, c: nat, topic: Topic) {
    s.client.Some? && (s.client.value, Mid(s, c)) in s.sent && s.sent[(s.client.value, Mid(s, c))] != topic
  }

  /**
   What a step must not do: subscribe on a replaced client with an id that clashes, or clear the tables for a
   replaced client while wishes of the live one depend on them.
   */
  ghost predicate IsHarmless(s: State, e: Event) {
    match e
    case AddSubscribe(i, queued) => IsHarmlessAdder(s, i, queued)
    case ConnackSubscribe(c, topic, queued) => IsHarmlessSend(s, c, topic, queued)
    case ConnackCopy(c) => IsHarmlessCopy(s, c)
    case _ => true
  }

  predicate IsHarmlessAdder(s: State, i: nat, queued: bool) {
    i < |s.adders| && s.adders[i].WillSubscribe? && queued ==> !Clashes(s, s.adders[i].client, s.adders[i].topic)
  }

  predicate IsHarmlessSend(s: State, c: nat, topic: Topic, queued: bool) {
    IsSending(s, c, topic) && queued ==> !Clashes(s, c, topic)
  }

  ghost predicate IsHarmlessCopy(s: State, c: nat) {
    c in s.handlers && s.handlers[c].FlagSet? && s.client != Some(c) && s.live ==>
      forall topic :: topic in s.subs ==> IsInProgress(s, topic)
  }

  /** Whoever takes its own client, without replacement, does no harm. */
  lemma {:induction false} OwnIdIsNew(s: State, c: nat, topic: Topic)
    requires Structure(s) && s.client == Some(c)
    ensures !Clashes(s, c, topic)
  {}

  // ---- a subscribe call ----------------------------------------------------------------------

  /** The step-level exactness: the table stays true if and only if the id does not clash. */
  lemma {:induction false} SubscribeTruth(s: State, c: nat, topic: Topic, queued: bool)
    requires Structure(s) && IsTrue(s)
    ensures IsTrue(SubscribeNow(s, c, topic, queued)) <==> !queued || !Clashes(s, c, topic)
  {
    var t, m := SubscribeNow(s, c, topic, queued), Mid(s, c);
    if queued && s.client.Some? {
      var d := s.client.value;
      forall mid | mid in t.pending && mid != m && (d, mid) in t.sent ensures IsSent(t, mid) {
        assert IsSent(s, mid);
      }
      assert c == d ==> IsSent(t, m);
      if c != d && (d, m) in s.sent {
        assert t.sent[(d, m)] == s.sent[(d, m)] && t.pending[m] == topic;
        assert IsSent(t, m) <==> !Clashes(s, c, topic);
      }
    } else if s.client.Some? {
      forall mid | mid in t.pending && (s.client.value, mid) in t.sent ensures IsSent(t, mid) {
        assert IsSent(s, mid);
      }
    }
  }

  /** A call that does not clash takes no topic out of the table; one on the current client puts its own in. */
  lemma {:induction false} SubscribeKeepsPending(s: State, c: nat, topic: Topic, queued: bool, x: Topic)
    requires Structure(s) && (queued ==> !Clashes(s, c, topic))
    ensures IsPending(s, x) ==> IsPending(SubscribeNow(s, c, topic, queued), x)
    ensures s.client == Some(c) ==>
      IsPending(SubscribeNow(s, c, topic, queued), topic) || topic in SubscribeNow(s, c, topic, queued).failed
  {
    var t, m := SubscribeNow(s, c, topic, queued), Mid(s, c);
    if IsPending(s, x) {
      var mid :| IsSent(s, mid) && s.pending[mid] == x;
      assert IsSent(t, mid) && t.pending[mid] == x;
    }
    if s.client == Some(c) && queued {
      assert IsSent(t, m) && t.pending[m] == topic;
    }
  }

  /** What carries coverage over a step. */
  lemma {:induction false} StillCovered(s: State, t: State, topic: Topic)
    requires IsCovered(s, topic) && t.client == s.client
    requires topic in s.confirmed || IsPending(s, topic) ==>
      topic in t.confirmed || IsPending(t, topic) || topic in t.refused
    requires s.refused <= t.refused && s.failed <= t.failed
    requires s.client.Some? && s.client.value in s.handlers && s.handlers[s.client.value].FlagSet? ==>
      t.client.value in t.handlers && t.handlers[t.client.value].FlagSet?
    requires s.client.Some? && IsSending(s, s.client.value, topic) ==>
      IsSending(t, t.client.value, topic) || IsPending(t, topic) || topic in t.failed
    requires forall i :: 0 <= i < |s.adders| && TakesCare(s, s.adders[i], topic) ==>
      (i < |t.adders| && TakesCare(t, t.adders[i], topic)) || IsPending(t, topic) || topic in t.failed
    ensures IsCovered(t, topic)
  {
    hide IsSent;
    if i :| 0 <= i < |s.adders| && TakesCare(s, s.adders[i], topic) {
    }
  }

  lemma {:induction false} AddSubscribeStep(s: State, i: nat, queued: bool)
    requires Structure(s) && IsRight(s)
    ensures IsRight(AfterSubscribe(s, i, queued)) <==> IsHarmlessAdder(s, i, queued)
  {
    if i < |s.adders| && s.adders[i].WillSubscribe? {
      hide IsCovered, IsPending, Structure, IsTrue, Clashes;
      var a, m, t := s.adders[i], SetAdder(s, i, Idle), AfterSubscribe(s, i, queued);
      WithoutAdder(s, i);
      SubscribeTruth(m, a.client, a.topic, queued);
      if IsHarmlessAdder(s, i, queued) && s.live {
        forall topic | topic in t.subs ensures IsCovered(t, topic) {
          SubscribeKeepsPending(m, a.client, a.topic, queued, topic);
          SamePending(s, m, topic);
          StillCovered(s, t, topic);
        }
      }
    }
  }

  /** The truth about the tables does not depend on the threads. */
  lemma {:induction false} SameTruth(s: State, t: State)
    requires t.client == s.client && t.pending == s.pending && t.confirmed == s.confirmed && t.granted == s.granted && t.sent == s.sent
    ensures IsTrue(t) == IsTrue(s)
  {
    if s.client.Some? {
      forall mid ensures IsSent(t, mid) == IsSent(s, mid) {
      }
    }
  }

  lemma {:induction false} SamePending(s: State, t: State, topic: Topic)
    requires t.client == s.client && t.pending == s.pending && t.sent == s.sent
    ensures IsPending(t, topic) == IsPending(s, topic)
  {
    forall mid ensures IsSent(t, mid) == IsSent(s, mid) {
    }
  }

  lemma {:induction false} WithoutAdder(s: State, i: nat)
    requires Structure(s) && i < |s.adders|
    ensures var m := SetAdder(s, i, Idle);
      Structure(m) && IsTrue(m) == IsTrue(s) && forall c, topic :: Clashes(m, c, topic) == Clashes(s, c, topic)
  {
    SameTruth(s, SetAdder(s, i, Idle));
  }

  lemma {:induction false} SendStep(s: State, c: nat, topic: Topic, queued: bool)
    requires Structure(s) && IsRight(s)
    ensures IsRight(AfterSend(s, c, topic, queued)) <==> IsHarmlessSend(s, c, topic, queued)
  {
    if IsSending(s, c, topic) {
      hide IsCovered, IsPending, Structure, IsTrue, Clashes;
      var m, t := SetHandler(s, c, Sending(s.handlers[c].rest - {topic})), AfterSend(s, c, topic, queued);
      WithHandler(s, c, m.handlers[c]);
      SubscribeTruth(m, c, topic, queued);
      if IsHarmlessSend(s, c, topic, queued) && s.live {
        forall x | x in t.subs ensures IsCovered(t, x) {
          SubscribeKeepsPending(m, c, topic, queued, x);
          SamePending(s, m, x);
          StillCovered(s, t, x);
        }
      }
    }
  }

  lemma {:induction false} WithHandler(s: State, c: nat, h: Handler)
    requires Structure(s) && c in s.handlers && !h.Arrived?
    ensures var m := SetHandler(s, c, h);
      Structure(m) && IsTrue(m) == IsTrue(s) && forall c, topic :: Clashes(m, c, topic) == Clashes(s, c, topic)
  {
    SameTruth(s, SetHandler(s, c, h));
  }

  // ---- the other steps -----------------------------------------------------------------------

  lemma {:induction false} WishStep(s: State, i: nat, topic: Topic)
    requires IsRight(s)
    ensures IsRight(AfterWish(s, i, topic))
  {
    hide IsTrue, IsPending, IsCovered;
    var t := AfterWish(s, i, topic);
    SameTruth(s, t);
    if i < |s.adders| && s.adders[i].Idle? && s.live {
      forall x | x in t.subs ensures IsCovered(t, x) {
        if x == topic {
          WrittenIsCovered(t, i, topic);
        } else {
          SamePending(s, t, x);
          StillCovered(s, t, x);
        }
      }
    }
  }

  lemma {:induction false} WrittenIsCovered(s: State, i: nat, topic: Topic)
    requires i < |s.adders| && s.adders[i] == Wrote(topic)
    ensures IsCovered(s, topic)
  {
    assert TakesCare(s, s.adders[i], topic);
  }

  lemma {:induction false} ReadStep(s: State, i: nat)
    requires Structure(s) && IsRight(s)
    ensures IsRight(AfterRead(s, i))
  {
    hide IsTrue, IsPending, IsCovered;
    var t := AfterRead(s, i);
    SameTruth(s, t);
    if s.live {
      forall x | x in t.subs ensures IsCovered(t, x) {
        SamePending(s, t, x);
        StillCovered(s, t, x);
      }
    }
  }

  /** Steps that change neither the wishes nor the tables, nor the client's handler once it is past the guard. */
  lemma {:induction false} SideStep(s: State, t: State)
    requires IsRight(s) && t.client == s.client && t.subs == s.subs && t.pending == s.pending && t.confirmed == s.confirmed
    requires t.sent == s.sent && t.granted == s.granted && t.refused == s.refused && t.failed == s.failed && t.adders == s.adders
    requires t.live ==> s.live && (s.client.Some? ==>
      forall topic :: IsSending(s, s.client.value, topic) ==> IsSending(t, s.client.value, topic))
    requires t.live && s.client.Some? && s.client.value in s.handlers && s.handlers[s.client.value].FlagSet? ==>
      t.client.value in t.handlers && t.handlers[t.client.value].FlagSet?
    ensures IsRight(t)
  {
    hide IsTrue, IsPending, IsSending;
    SameTruth(s, t);
    if t.live {
      forall topic | topic in t.subs ensures IsCovered(t, topic) {
        SamePending(s, t, topic);
        StillCovered(s, t, topic);
      }
    }
  }

  lemma {:induction false} BeginStep(s: State, c: nat)
    requires Structure(s) && IsRight(s)
    ensures IsRight(AfterBegin(s, c))
  {
    hide IsTrue, IsPending;
    var t := AfterBegin(s, c);
    if s.client == Some(c) && c in s.handlers && s.handlers[c].Arrived? {
      SameTruth(s, t);
    } else {
      SideStep(s, t);
    }
  }

  /** Copying for the current client, all wishes are in progress; for a replaced one, what only the tables held is lost. */
  lemma {:induction false} CopyStep(s: State, c: nat)
    requires Structure(s) && IsRight(s)
    ensures IsRight(AfterCopy(s, c)) <==> IsHarmlessCopy(s, c)
  {
    var t := AfterCopy(s, c);
    if c in s.handlers && s.handlers[c].FlagSet? {
      assert IsTrue(t);
      if s.client != Some(c) {
        forall topic ensures !IsPending(t, topic) && IsInProgress(t, topic) == IsInProgress(s, topic) {
          SameProgress(s, t, topic);
        }
      }
    }
  }

  lemma {:induction false} SameProgress(s: State, t: State, topic: Topic)
    requires t.client == s.client && t.refused == s.refused && t.failed == s.failed && t.adders == s.adders
    requires s.client.Some? ==> (s.client.value in t.handlers <==> s.client.value in s.handlers)
    requires s.client.Some? && s.client.value in s.handlers ==> t.handlers[s.client.value] == s.handlers[s.client.value]
    ensures IsInProgress(t, topic) == IsInProgress(s, topic)
  {
    forall i | 0 <= i < |s.adders| ensures TakesCare(t, t.adders[i], topic) == TakesCare(s, s.adders[i], topic) {
    }
  }

  /** Without a live connection only the truth of the tables matters. */
  lemma {:induction false} ReplacementStep(s: State, c: nat)
    requires Structure(s) && IsRight(s)
    ensures IsRight(AfterConnect(s)) && IsRight(AfterDisconnect(s)) && IsRight(AfterClear(s)) && IsRight(AfterLoss(s, c))
  {
    hide IsCovered;
    assert forall mid :: (s.clients, mid) !in s.sent;
  }

  lemma {:induction false} SubackStep(s: State, c: nat, mid: nat, granted: bool)
    requires Structure(s) && IsRight(s)
    ensures IsRight(AfterSuback(s, c, mid, granted))
  {
    hide IsCovered, IsTrue, IsPending, HandleSuback;
    var t := AfterSuback(s, c, mid, granted);
    if s.client == Some(c) && c !in s.handlers && (c, mid) in s.sent {
      SubackTruth(s, mid, granted);
      SubackElse(s, mid, s.sent[(c, mid)], granted);
      if s.live {
        forall topic | topic in t.subs ensures IsCovered(t, topic) {
          SubackKeepsPending(s, mid, granted, topic);
          StillCovered(s, t, topic);
        }
      }
    }
  }

  lemma {:induction false} SubackElse(s: State, mid: nat, topic: Topic, granted: bool)
    ensures var t := HandleSuback(s, mid, topic, granted);
      && t.client == s.client && t.handlers == s.handlers && t.adders == s.adders && t.subs == s.subs && t.live == s.live
      && s.refused <= t.refused && s.failed <= t.failed && s.confirmed <= t.confirmed
  {}

  /** The SUBACK is for what the current client sent under that id. */
  lemma {:induction false} SubackTruth(s: State, mid: nat, granted: bool)
    requires IsTrue(s) && s.client.Some? && (s.client.value, mid) in s.sent
    ensures IsTrue(HandleSuback(s, mid, s.sent[(s.client.value, mid)], granted))
  {
    var t := HandleSuback(s, mid, s.sent[(s.client.value, mid)], granted);
    assert mid in s.pending ==> IsSent(s, mid);
    forall m | m in t.pending && (s.client.value, m) in t.sent ensures IsSent(t, m) {
      assert IsSent(s, m);
    }
  }

  lemma {:induction false} SubackKeepsPending(s: State, mid: nat, granted: bool, topic: Topic)
    requires s.client.Some? && (s.client.value, mid) in s.sent
    ensures var t := HandleSuback(s, mid, s.sent[(s.client.value, mid)], granted);
      IsPending(s, topic) ==> IsPending(t, topic) || topic in t.confirmed || topic in t.refused
  {
    if IsPending(s, topic) {
      var t := HandleSuback(s, mid, s.sent[(s.client.value, mid)], granted);
      var m :| IsSent(s, m) && s.pending[m] == topic;
      if m != mid {
        assert IsSent(t, m) && t.pending[m] == topic;
      }
    }
  }

  lemma {:induction false} ArrivalStep(s: State, c: nat)
    requires Structure(s) && IsRight(s)
    ensures IsRight(AfterArrival(s, c))
  {
    hide IsRight;
    SideStep(s, AfterArrival(s, c));
  }

  lemma {:induction false} EndStep(s: State, c: nat)
    requires Structure(s) && IsRight(s)
    ensures IsRight(AfterEnd(s, c))
  {
    hide IsRight;
    SideStep(s, AfterEnd(s, c));
  }

  lemma {:induction false} RefusalStep(s: State, c: nat)
    requires Structure(s) && IsRight(s)
    ensures IsRight(AfterRefusal(s, c))
  {
    hide IsRight;
    SideStep(s, AfterRefusal(s, c));
  }

  lemma {:induction false} ReconnectingStep(s: State, c: nat)
    requires Structure(s) && IsRight(s)
    ensures IsRight(AfterReconnecting(s, c))
  {
    hide IsRight;
    SideStep(s, AfterReconnecting(s, c));
  }

  lemma {:induction false} RefreshStep(s: State)
    requires Structure(s) && IsRight(s)
    ensures IsRight(AfterRefresh(s))
  {
    hide IsRight;
    SideStep(s, AfterRefresh(s));
  }

  // ---- exactly the harmless runs -------------------------------------------------------------

  /** A step from right tables leads to right tables if and only if it is harmless. */
  lemma {:induction false} RightStep(s: State, e: Event)
    requires Structure(s) && IsRight(s)
    ensures IsRight(Next(s, e)) <==> IsHarmless(s, e)
  {
    hide IsRight, Structure, IsHarmlessAdder, IsHarmlessSend, IsHarmlessCopy;
    hide AfterConnect, AfterDisconnect, AfterClear, AfterWish, AfterRead, AfterSubscribe, AfterArrival, AfterBegin, AfterCopy;
    hide AfterSend, AfterEnd, AfterRefusal, AfterLoss, AfterReconnecting, AfterRefresh, AfterSuback;
    match e
    case Connect => ReplacementStep(s, 0);
    case Disconnect => ReplacementStep(s, 0);
    case ClearTables => ReplacementStep(s, 0);
    case Lost(c) => ReplacementStep(s, c);
    case AddWish(i, topic) => WishStep(s, i, topic);
    case AddRead(i) => ReadStep(s, i);
    case AddSubscribe(i, queued) => AddSubscribeStep(s, i, queued);
    case ConnackBegin(c) => BeginStep(s, c);
    case ConnackCopy(c) => CopyStep(s, c);
    case ConnackSubscribe(c, topic, queued) => SendStep(s, c, topic, queued);
    case Suback(c, mid, granted) => SubackStep(s, c, mid, granted);
    case ConnackArrives(c) => ArrivalStep(s, c);
    case ConnackEnd(c) => EndStep(s, c);
    case ConnackRefused(c) => RefusalStep(s, c);
    case Reconnecting(c) => ReconnectingStep(s, c);
    case Refresh => RefreshStep(s);
  }

  ghost predicate IsHarmlessRun(s: State, events: seq<Event>) {
    forall k :: 0 <= k < |events| ==> IsHarmless(Run(s, events[..k]), events[k])
  }

  /** The tables are right at every point of the run. */
  ghost predicate IsRightRun(s: State, events: seq<Event>) {
    forall k :: 0 <= k <= |events| ==> IsRight(Run(s, events[..k]))
  }

  lemma {:induction false} StructureOfRun(s: State, events: seq<Event>)
    requires IsInitial(s)
    ensures Structure(Run(s, events))
  {
    hide Next, Structure;
    if events == [] {
      InitialIsRight(s);
    } else {
      StructureOfRun(s, events[..|events| - 1]);
      StructureStep(Run(s, events[..|events| - 1]), events[|events| - 1]);
    }
  }

  // ---- after a refused connection ------------------------------------------------------------

  /** The client has no connection, and if it is the current one the flag is lowered. */
  predicate IsDown(s: State, c: nat) {
    c < s.clients && c !in s.handlers && c !in s.up && (s.client == Some(c) ==> !s.connected)
  }

  /** The tables, the threads' places and what has happened may differ. */
  predicate SameConnection(s: State, t: State) {
    t.client == s.client && t.clients == s.clients && t.connected == s.connected && t.up == s.up && t.handlers.Keys == s.handlers.Keys
  }

  lemma {:induction false} SameAfterSubscribing(s: State, c: nat, topic: Topic, queued: bool)
    ensures SameConnection(s, SubscribeNow(s, c, topic, queued))
  {}

  lemma {:induction false} SameAfterSuback(s: State, mid: nat, topic: Topic, granted: bool)
    ensures SameConnection(s, HandleSuback(s, mid, topic, granted))
  {}

  predicate IsBookkeeping(e: Event) {
    e.ClearTables? || e.AddWish? || e.AddRead? || e.AddSubscribe?
  }

  predicate IsSnapshot(e: Event) {
    e.ConnackCopy? || e.ConnackSubscribe?
  }

  lemma {:induction false} DownBookkeeping(s: State, e: Event, c: nat)
    requires IsDown(s, c) && IsBookkeeping(e)
    ensures IsDown(Next(s, e), c)
  {
    hide SubscribeNow;
    if e.AddSubscribe? && e.i < |s.adders| && s.adders[e.i].WillSubscribe? {
      SameAfterSubscribing(SetAdder(s, e.i, Idle), s.adders[e.i].client, s.adders[e.i].topic, e.queued);
    }
  }

  lemma {:induction false} DownSuback(s: State, k: nat, mid: nat, granted: bool, c: nat)
    requires IsDown(s, c)
    ensures IsDown(AfterSuback(s, k, mid, granted), c)
  {
    hide HandleSuback;
    if (k, mid) in s.sent {
      SameAfterSuback(s, mid, s.sent[(k, mid)], granted);
    }
  }

  lemma {:induction false} DownSnapshot(s: State, e: Event, c: nat)
    requires IsDown(s, c) && IsSnapshot(e)
    ensures IsDown(Next(s, e), c)
  {
    hide SubscribeNow;
    if e.ConnackSubscribe? && IsSending(s, e.client, e.topic) {
      SameAfterSubscribing(SetHandler(s, e.client, Sending(s.handlers[e.client].rest - {e.topic})), e.client, e.topic, e.queued);
    }
  }

  lemma {:induction false} DownConnection(s: State, e: Event, c: nat)
    requires IsDown(s, c) && !IsBookkeeping(e) && !IsSnapshot(e) && !e.Suback? && e != ConnackArrives(c)
    ensures IsDown(Next(s, e), c)
  {}

  lemma {:induction false} DownStep(s: State, e: Event, c: nat)
    requires IsDown(s, c) && e != ConnackArrives(c)
    ensures IsDown(Next(s, e), c)
  {
    hide IsDown, AfterSuback, AfterConnect, AfterDisconnect, AfterClear, AfterWish, AfterRead, AfterSubscribe, AfterArrival, AfterBegin;
    hide AfterCopy, AfterSend, AfterEnd, AfterRefusal, AfterLoss, AfterReconnecting, AfterRefresh;
    if e.Suback? {
      DownSuback(s, e.client, e.mid, e.granted, c);
    } else if IsBookkeeping(e) {
      DownBookkeeping(s, e, c);
    } else if IsSnapshot(e) {
      DownSnapshot(s, e, c);
    } else {
      DownConnection(s, e, c);
    }
  }

  /** A refused CONNACK lowers the flag, and until a CONNACK of that client is accepted nothing raises it for the client. */
  lemma {:induction false} RefusedStaysLowered(s: State, c: nat, later: seq<Event>)
    requires Structure(s) && s.client == Some(c) && c !in s.handlers && c !in s.up
    requires forall k :: 0 <= k < |later| ==> later[k] != ConnackArrives(c)
    ensures IsDown(Run(Next(s, ConnackRefused(c)), later), c)
  {
    hide Next, Structure, IsDown;
    if later == [] {
      RefusedIsDown(s, c);
    } else {
      RefusedStaysLowered(s, c, later[..|later| - 1]);
      DownStep(Run(Next(s, ConnackRefused(c)), later[..|later| - 1]), later[|later| - 1], c);
    }
  }

  lemma {:induction false} RefusedIsDown(s: State, c: nat)
    requires Structure(s) && s.client == Some(c) && c !in s.handlers && c !in s.up
    ensures IsDown(Next(s, ConnackRefused(c)), c)
  {}

  lemma {:induction false} InitialIsRight(s: State)
    requires IsInitial(s)
    ensures Structure(s) && IsRight(s)
  {}

  lemma {:induction false} RunOnce(s: State, events: seq<Event>, k: nat)
    requires k < |events|
    ensures Run(s, events[..k + 1]) == Next(Run(s, events[..k]), events[k])
    ensures Run(s, events[..0]) == s
  {
    assert events[..k + 1][..k] == events[..k];
  }

  lemma {:induction false} HarmlessIsRight(s: State, events: seq<Event>, k: nat)
    requires IsInitial(s) && IsHarmlessRun(s, events) && k <= |events|
    ensures IsRight(Run(s, events[..k]))
  {
    hide Next, IsRight, IsHarmless, Run;
    if k == 0 {
      InitialIsRight(s);
      EmptyRun(s, events);
    } else {
      HarmlessIsRight(s, events, k - 1);
      StructureOfRun(s, events[..k - 1]);
      RunOnce(s, events, k - 1);
      RightStep(Run(s, events[..k - 1]), events[k - 1]);
    }
  }

  lemma {:induction false} EmptyRun(s: State, events: seq<Event>)
    ensures Run(s, events[..0]) == s
  {}

  /** The bookkeeping is right throughout a run, whatever is replaced when, if and only if every step is harmless. */
  lemma {:induction false} RightExactlyIfHarmless(s: State, events: seq<Event>)
    requires IsInitial(s)
    ensures IsRightRun(s, events) <==> IsHarmlessRun(s, events)
  {
    hide Next, IsRight, IsHarmless, Run, Structure;
    if IsHarmlessRun(s, events) {
      forall k | 0 <= k <= |events| ensures IsRight(Run(s, events[..k])) {
        HarmlessIsRight(s, events, k);
      }
    }
    if IsRightRun(s, events) {
      forall k | 0 <= k < |events| ensures IsHarmless(Run(s, events[..k]), events[k]) {
        StructureOfRun(s, events[..k]);
        RunOnce(s, events, k);
        RightStep(Run(s, events[..k]), events[k]);
        assert IsRight(Run(s, events[..k + 1]));
      }
    }
  }

  // ---- replacements that wait ----------------------------------------------------------------

  /** No thread is in the middle of something that refers to the current client. */
  ghost predicate IsQuiet(s: State) {
    && (forall i :: 0 <= i < |s.adders| ==> !s.adders[i].WillSubscribe?)
    && forall c :: c in s.handlers ==> s.handlers[c].Arrived?
  }

  /** Disconnects only when no other thread is in the middle of something. */
  ghost predicate IsPoliteRun(s: State, events: seq<Event>) {
    forall k :: 0 <= k < |events| && events[k].Disconnect? ==> IsQuiet(Run(s, events[..k]))
  }

  /** All threads refer to the current client. */
  ghost predicate IsCurrent(s: State) {
    && (forall i :: 0 <= i < |s.adders| && s.adders[i].WillSubscribe? ==> s.client == Some(s.adders[i].client))
    && forall c :: c in s.handlers && !s.handlers[c].Arrived? ==> s.client == Some(c)
  }

  lemma {:induction false} CurrentStep(s: State, e: Event)
    requires IsCurrent(s) && (e.Disconnect? ==> IsQuiet(s))
    ensures IsCurrent(Next(s, e))
  {
    hide IsCurrent, IsQuiet;
    hide AfterConnect, AfterDisconnect, AfterClear, AfterWish, AfterRead, AfterSubscribe, AfterArrival, AfterBegin, AfterCopy;
    hide AfterSend, AfterEnd, AfterRefusal, AfterLoss, AfterReconnecting, AfterRefresh, AfterSuback;
    match e
    case Connect => CurrentConnect(s);
    case Disconnect => CurrentDisconnect(s);
    case ClearTables => CurrentClear(s);
    case AddWish(i, topic) => CurrentWish(s, i, topic);
    case AddRead(i) => CurrentRead(s, i);
    case AddSubscribe(i, queued) => CurrentSubscribe(s, i, queued);
    case ConnackArrives(c) => CurrentArrival(s, c);
    case ConnackBegin(c) => CurrentBegin(s, c);
    case ConnackCopy(c) => CurrentCopy(s, c);
    case ConnackSubscribe(c, topic, queued) => CurrentSend(s, c, topic, queued);
    case ConnackEnd(c) => CurrentEnd(s, c);
    case ConnackRefused(c) => CurrentRefusal(s, c);
    case Lost(c) => CurrentLoss(s, c);
    case Reconnecting(c) => CurrentReconnecting(s, c);
    case Refresh => CurrentRefresh(s);
    case Suback(c, mid, granted) => CurrentSuback(s, c, mid, granted);
  }

  lemma {:induction false} CurrentConnect(s: State)
    requires IsCurrent(s)
    ensures IsCurrent(AfterConnect(s))
  {}

  lemma {:induction false} CurrentDisconnect(s: State)
    requires IsCurrent(s) && IsQuiet(s)
    ensures IsCurrent(AfterDisconnect(s))
  {}

  lemma {:induction false} CurrentClear(s: State)
    requires IsCurrent(s)
    ensures IsCurrent(AfterClear(s))
  {}

  lemma {:induction false} CurrentWish(s: State, i: nat, topic: Topic)
    requires IsCurrent(s)
    ensures IsCurrent(AfterWish(s, i, topic))
  {}

  lemma {:induction false} CurrentRead(s: State, i: nat)
    requires IsCurrent(s)
    ensures IsCurrent(AfterRead(s, i))
  {}

  lemma {:induction false} CurrentSubscribe(s: State, i: nat, queued: bool)
    requires IsCurrent(s)
    ensures IsCurrent(AfterSubscribe(s, i, queued))
  {}

  lemma {:induction false} CurrentArrival(s: State, c: nat)
    requires IsCurrent(s)
    ensures IsCurrent(AfterArrival(s, c))
  {}

  lemma {:induction false} CurrentBegin(s: State, c: nat)
    requires IsCurrent(s)
    ensures IsCurrent(AfterBegin(s, c))
  {}

  lemma {:induction false} CurrentCopy(s: State, c: nat)
    requires IsCurrent(s)
    ensures IsCurrent(AfterCopy(s, c))
  {}

  lemma {:induction false} CurrentSend(s: State, c: nat, topic: Topic, queued: bool)
    requires IsCurrent(s)
    ensures IsCurrent(AfterSend(s, c, topic, queued))
  {}

  lemma {:induction false} CurrentEnd(s: State, c: nat)
    requires IsCurrent(s)
    ensures IsCurrent(AfterEnd(s, c))
  {}

  lemma {:induction false} CurrentRefusal(s: State, c: nat)
    requires IsCurrent(s)
    ensures IsCurrent(AfterRefusal(s, c))
  {}

  lemma {:induction false} CurrentLoss(s: State, c: nat)
    requires IsCurrent(s)
    ensures IsCurrent(AfterLoss(s, c))
  {}

  lemma {:induction false} CurrentReconnecting(s: State, c: nat)
    requires IsCurrent(s)
    ensures IsCurrent(AfterReconnecting(s, c))
  {}

  lemma {:induction false} CurrentRefresh(s: State)
    requires IsCurrent(s)
    ensures IsCurrent(AfterRefresh(s))
  {}

  lemma {:induction false} CurrentSuback(s: State, c: nat, mid: nat, granted: bool)
    requires IsCurrent(s)
    ensures IsCurrent(AfterSuback(s, c, mid, granted))
  {}

  lemma {:induction false} PoliteIsCurrent(s: State, events: seq<Event>, k: nat)
    requires IsInitial(s) && IsPoliteRun(s, events) && k <= |events|
    ensures IsCurrent(Run(s, events[..k]))
  {
    hide Next, Run, IsQuiet;
    EmptyRun(s, events);
    if k > 0 {
      PoliteIsCurrent(s, events, k - 1);
      RunOnce(s, events, k - 1);
      CurrentStep(Run(s, events[..k - 1]), events[k - 1]);
    }
  }

  /** If every replacement waits for the other threads, nothing is ever harmful. */
  lemma {:induction false} PoliteIsHarmless(s: State, events: seq<Event>)
    requires IsInitial(s) && IsPoliteRun(s, events)
    ensures IsHarmlessRun(s, events)
  {
    hide Next, Run, IsPoliteRun;
    forall k | 0 <= k < |events| ensures IsHarmless(Run(s, events[..k]), events[k]) {
      PoliteIsCurrent(s, events, k);
      StructureOfRun(s, events[..k]);
      CurrentIsHarmless(Run(s, events[..k]), events[k]);
    }
  }

  lemma {:induction false} CurrentIsHarmless(s: State, e: Event)
    requires Structure(s) && IsCurrent(s)
    ensures IsHarmless(s, e)
  {
    hide Clashes, Structure;
    match e
    case AddSubscribe(i, _) =>
      if i < |s.adders| && s.adders[i].WillSubscribe? {
        OwnIdIsNew(s, s.adders[i].client, s.adders[i].topic);
      }
    case ConnackSubscribe(c, topic, _) =>
      if IsSending(s, c, topic) {
        OwnIdIsNew(s, c, topic);
      }
    case _ =>
  }

  // ---- what the callers may rely on ----------------------------------------------------------

  /** No thread is inside _add_sub or, for the current client, in _handle_connect. */
  predicate AllDone(s: State) {
    && (s.client.Some? ==> s.client.value !in s.handlers)
    && forall i :: 0 <= i < |s.adders| ==> s.adders[i].Idle?
  }

  /**
   On a live connection, once the threads are through, every wish is pending under an id that was sent for it, or
   confirmed, unless the broker refused it or its subscribe call did not queue.
   */
  lemma {:induction false} WishesAreCovered(s: State, events: seq<Event>, topic: Topic)
    requires IsInitial(s) && IsHarmlessRun(s, events)
    requires var t := Run(s, events); t.live && AllDone(t) && topic in t.subs
    ensures var t := Run(s, events);
      IsPending(t, topic) || topic in t.confirmed || topic in t.refused || topic in t.failed
  {
    hide Run, IsPending;
    assert events[..|events|] == events;
    HarmlessIsRight(s, events, |events|);
    assert IsCovered(Run(s, events), topic);
  }

  /** What counts as confirmed was granted by the broker, to the current client, since the last CONNACK it accepted. */
  lemma {:induction false} ConfirmedWasGranted(s: State, events: seq<Event>)
    requires IsInitial(s) && IsHarmlessRun(s, events)
    ensures Run(s, events).confirmed <= Run(s, events).granted
  {
    hide Run, IsComplete;
    assert events[..|events|] == events;
    HarmlessIsRight(s, events, |events|);
  }

  /** subscriptions_ok */
  predicate SubscriptionsOk(s: State) {
    s.subs - s.confirmed == {}
  }

  /** Its promise: with it, the broker has granted every wish on this connection. */
  lemma {:induction false} OkMeansGranted(s: State, events: seq<Event>, topic: Topic)
    requires IsInitial(s) && IsHarmlessRun(s, events)
    requires SubscriptionsOk(Run(s, events)) && topic in Run(s, events).subs
    ensures topic in Run(s, events).granted
  {
    hide Run, IsHarmlessRun;
    ConfirmedWasGranted(s, events);
    assert topic !in Run(s, events).subs - Run(s, events).confirmed;
  }

  // ---- the class -----------------------------------------------------------------------------

  /** What a SUBACK does to the wrapper's fields. */
  lemma {:induction false} SubackFields(s: State, c: nat, mid: nat, granted: bool)
    requires c !in s.handlers && (c, mid) in s.sent
    ensures var t := Next(s, Suback(c, mid, granted));
      && t.client == s.client && t.clients == s.clients && t.connected == s.connected && t.subs == s.subs
      && t.pending == (if s.client == Some(c) then s.pending - {mid} else s.pending)
      && t.confirmed == s.confirmed + (if s.client == Some(c) && mid in s.pending && granted then {s.pending[mid]} else {})
      && (s.client != Some(c) ==> t == s)
  {
    hide HandleSuback;
    HandledFields(s, mid, s.sent[(c, mid)], granted);
  }

  lemma {:induction false} HandledFields(s: State, mid: nat, topic: Topic, granted: bool)
    ensures var t := HandleSuback(s, mid, topic, granted);
      && t.client == s.client && t.clients == s.clients && t.connected == s.connected && t.subs == s.subs
      && t.pending == s.pending - {mid}
      && t.confirmed == s.confirmed + if mid in s.pending && granted then {s.pending[mid]} else {}
  {
    if mid !in s.pending {
      assert s.pending - {mid} == s.pending;
    }
  }

  /** The wrapper's fields; each method is one access under the lock, or one moment of a callback. */
  class FmdMqttClient {
    var client: Option<nat>
    var clients: nat
    var connected: bool
    var subs: set<Topic>
    var pending: map<nat, Topic>
    var confirmed: set<Topic>
    /** The state machine with the threads and the broker around the fields, and the run so far. */
    ghost var model: State
    ghost const start: State
    ghost var trace: seq<Event>

    /** The fields are those of the run. */
    ghost predicate Valid()
      reads this
    {
      && IsInitial(start) && model == Run(start, trace)
      && client == model.client && clients == model.clients && connected == model.connected
      && subs == model.subs && pending == model.pending && confirmed == model.confirmed
    }

    constructor (callers: nat)
      ensures Valid() && client == None && subs == {}
    {
      client, clients, connected, subs, pending, confirmed := None, 0, false, {}, map[], {};
      model, start, trace := Initial(callers), Initial(callers), [];
    }

    /** The event just carried out on the fields. */
    ghost method Note(e: Event)
      requires IsInitial(start) && model == Run(start, trace)
      requires var t := Next(model, e);
        && client == t.client && clients == t.clients && connected == t.connected
        && subs == t.subs && pending == t.pending && confirmed == t.confirmed
      modifies `model, `trace
      ensures Valid() && trace == old(trace) + [e] && model == Next(old(model), e)
    {
      hide Next;
      assert (trace + [e])[..|trace|] == trace;
      model := Next(model, e);
      trace := trace + [e];
    }

    /** connect: a fresh client; only after disconnect, or at first. */
    method Connect()
      requires Valid() && client.None? && !model.clearing
      modifies `client, `clients, `model, `trace
      ensures Valid() && model == Next(old(model), Event.Connect)
    {
      hide Run;
      client := Some(clients);
      clients := clients + 1;
      Note(Event.Connect);
    }

    /** disconnect, up to the lock: whatever the other threads are doing. */
    method Disconnect()
      requires Valid() && !model.clearing
      modifies `client, `connected, `model, `trace
      ensures Valid() && model == Next(old(model), Event.Disconnect) && model.clearing
    {
      hide Run;
      client, connected := None, false;
      Note(Event.Disconnect);
    }

    /** disconnect, under the lock. */
    method ClearSubscriptions()
      requires Valid() && model.clearing
      modifies `pending, `confirmed, `model, `trace
      ensures Valid() && model == Next(old(model), ClearTables) && !model.clearing
    {
      hide Run;
      confirmed, pending := {}, map[];
      Note(ClearTables);
    }

    /** _add_sub, first part: remember the wish. */
    method RememberWish(topic: Topic, ghost i: nat)
      requires Valid() && i < |model.adders| && model.adders[i].Idle?
      modifies `subs, `model, `trace
      ensures Valid() && model == Next(old(model), AddWish(i, topic))
    {
      hide Run;
      subs := subs + {topic};
      Note(AddWish(i, topic));
    }

    /** _add_sub, second part: is there a connection to subscribe on? */
    method ReadConnection(ghost i: nat) returns (c: Option<nat>)
      requires Valid() && i < |model.adders| && model.adders[i].Wrote?
      modifies `model, `trace
      ensures Valid() && model == Next(old(model), AddRead(i))
      ensures if c.Some? then model.adders[i] == WillSubscribe(old(model).adders[i].topic, c.value) else model.adders[i].Idle?
    {
      hide Run;
      c := if client.Some? && connected then client else None;
      Note(AddRead(i));
    }

    /** _subscribe_now: mid is what the client's subscribe call returned, None if it failed. */
    method SubscribeOn(topic: Topic, mid: Option<nat>, ghost c: nat, ghost e: Event)
      requires Valid() && (mid.Some? ==> mid.value == Mid(model, c))
      requires if e.AddSubscribe?
        then e.i < |model.adders| && model.adders[e.i] == WillSubscribe(topic, c) && e.queued == mid.Some?
        else e == ConnackSubscribe(c, topic, mid.Some?) && IsSending(model, c, topic)
      modifies `pending, `model, `trace
      ensures Valid() && model == Next(old(model), e)
    {
      hide Run;
      if mid.Some? {
        pending := pending[mid.value := topic];
      }
      Note(e);
    }

    /** _refresh_connected: paho is what the client reports. */
    method RefreshConnected(paho: bool)
      requires Valid() && (client.Some? ==> paho == (client.value in model.up))
      modifies `connected, `model, `trace
      ensures Valid() && model == Next(old(model), Refresh)
    {
      hide Run;
      connected := client.Some? && paho;
      Note(Refresh);
    }

    /** _handle_connect, first part: rc tells whether the broker accepts; the guard drops a stale callback. */
    method BeginConnect(c: nat, rc: int)
      requires Valid()
      requires if rc == 0 then c in model.handlers && model.handlers[c].Arrived? else c !in model.handlers && c !in model.up
      modifies `connected, `model, `trace
      ensures Valid() && model == Next(old(model), if rc == 0 then ConnackBegin(c) else ConnackRefused(c))
      ensures old(client) != Some(c) ==> connected == old(connected)
      ensures client == Some(c) ==> connected == (rc == 0)
    {
      hide Run;
      if client == Some(c) {
        connected := rc == 0;
      }
      Note(if rc == 0 then ConnackBegin(c) else ConnackRefused(c));
    }

    /** _handle_connect, second part: the snapshot of the wishes. */
    method CopyWishes(ghost c: nat) returns (topics: set<Topic>)
      requires Valid() && c in model.handlers && model.handlers[c].FlagSet?
      modifies `pending, `confirmed, `model, `trace
      ensures Valid() && model == Next(old(model), ConnackCopy(c))
      ensures c in model.handlers && model.handlers[c] == Sending(topics)
    {
      hide Run;
      confirmed, pending := {}, map[];
      topics := subs;
      Note(ConnackCopy(c));
    }

    /** _handle_disconnect */
    method ConnectionLost(c: nat)
      requires Valid() && c !in model.handlers
      modifies `connected, `pending, `confirmed, `model, `trace
      ensures Valid() && model == Next(old(model), Lost(c)) && (client != Some(c) ==> model == old(model))
    {
      hide Run;
      if client == Some(c) {
        connected := false;
        confirmed, pending := {}, map[];
      }
      Note(Lost(c));
    }

    /** _handle_subscribe */
    method HandleSubscribe(c: nat, mid: nat, granted: bool)
      requires Valid() && c !in model.handlers && (c, mid) in model.sent
      modifies `pending, `confirmed, `model, `trace
      ensures Valid() && model == Next(old(model), Suback(c, mid, granted)) && (client != Some(c) ==> model == old(model))
    {
      hide Run, Next;
      SubackFields(model, c, mid, granted);
      if client == Some(c) {
        if mid in pending {
          var topic := pending[mid];
          pending := pending - {mid};
          if granted {
            confirmed := confirmed + {topic};
          }
        }
      }
      Note(Suback(c, mid, granted));
    }

    /** subscriptions_ok: on harmless runs the broker has then granted every wish. */
    method IsSubscribed() returns (ok: bool)
      requires Valid()
      ensures ok == SubscriptionsOk(model)
      ensures ok && IsHarmlessRun(start, trace) ==> subs <= model.granted
    {
      hide Run, IsHarmlessRun;
      ok := subs - confirmed == {};
      if ok && IsHarmlessRun(start, trace) {
        forall topic | topic in subs ensures topic in model.granted {
          OkMeansGranted(start, trace, topic);
        }
      }
    }
  }

  // ---- a client replaced in the middle of _add_sub -------------------------------------------

  function Initial(callers: nat): State {
    State(None, 0, false, false, {}, map[], {}, map[], map[], seq(callers, _ => Idle), {}, false, map[], {}, {}, {})
  }

  function Blank(): State {
    Initial(0).(adders := [Idle, Idle])
  }

  /** One more event. */
  lemma {:induction false} Then(events: seq<Event>, e: Event, t: State) returns (more: seq<Event>)
    requires Next(Run(Blank(), events), e) == t
    ensures more == events + [e] && Run(Blank(), more) == t
  {
    more := events + [e];
    assert more[..|events|] == events;
  }

  lemma {:induction false} NothingYet()
    ensures Run(Blank(), []) == Blank()
  {}

  /** A client is connected and has no wishes to send. */
  lemma {:induction false} FirstConnection() returns (events: seq<Event>)
    ensures Run(Blank(), events) == Blank().(clients := 1, client := Some(0), connected := true, up := {0}, live := true)
  {
    hide Run;
    NothingYet();
    var c := Blank().(clients := 1, client := Some(0));
    events := Then([], Connect, c);
    events := Then(events, ConnackArrives(0), c.(handlers := map[0 := Arrived], up := {0}));
    var d := c.(connected := true, up := {0}, live := true);
    events := Then(events, ConnackBegin(0), d.(handlers := map[0 := FlagSet]));
    events := Then(events, ConnackCopy(0), d.(handlers := map[0 := Sending({})]));
    assert map[0 := Sending({})] - {0} == map[];
    events := Then(events, ConnackEnd(0), d);
  }

  /** A caller wants topic 7, reads the first client, and stops there; the client is dropped. */
  lemma {:induction false} CallerStops() returns (events: seq<Event>)
    ensures Run(Blank(), events) == Blank().(clients := 1, up := {0}, subs := {7}, adders := [WillSubscribe(7, 0), Idle])
  {
    hide Run;
    events := FirstConnection();
    var d := Blank().(clients := 1, client := Some(0), connected := true, up := {0}, live := true, subs := {7});
    events := Then(events, AddWish(0, 7), d.(adders := [Wrote(7), Idle]));
    events := Then(events, AddRead(0), d.(adders := [WillSubscribe(7, 0), Idle]));
    var f := Blank().(clients := 1, up := {0}, subs := {7}, adders := [WillSubscribe(7, 0), Idle]);
    events := Then(events, Disconnect, f.(clearing := true));
    events := Then(events, ClearTables, f);
  }

  /** What the two threads of the new client have done once topic 8 is sent: topic 7 is next. */
  function Replaced(): State {
    Blank().(clients := 2, client := Some(1), connected := true, up := {0, 1}, live := true, subs := {7, 8},
             handlers := map[1 := Sending({7})], lastMid := map[1 := 1], sent := map[(1, 1) := 8], pending := map[1 := 8],
             adders := [WillSubscribe(7, 0), Idle])
  }

  /** Meanwhile topic 8 is wanted, a new client connects and sends it. */
  lemma {:induction false} ClientReplaced() returns (events: seq<Event>)
    ensures Run(Blank(), events) == Replaced()
  {
    hide Run;
    events := CallerStops();
    var c := Blank().(clients := 1, up := {0}, subs := {7, 8}, adders := [WillSubscribe(7, 0), Idle]);
    events := Then(events, AddWish(1, 8), c.(adders := [WillSubscribe(7, 0), Wrote(8)]));
    events := Then(events, AddRead(1), c);
    var d := c.(clients := 2, client := Some(1));
    events := Then(events, Connect, d);
    events := Then(events, ConnackArrives(1), d.(up := {0, 1}, handlers := map[1 := Arrived]));
    var f := d.(up := {0, 1}, connected := true, live := true);
    events := Then(events, ConnackBegin(1), f.(handlers := map[1 := FlagSet]));
    events := Then(events, ConnackCopy(1), f.(handlers := map[1 := Sending({7, 8})]));
    assert {7, 8} - {8} == {7};
    events := Then(events, ConnackSubscribe(1, 8, true), Replaced());
  }

  /** The late subscribe call puts the old client's message id over the entry of topic 8. */
  lemma {:induction false} LateSubscribe() returns (events: seq<Event>)
    ensures Run(Blank(), events) == SubscribeNow(Replaced().(adders := [Idle, Idle]), 0, 7, true)
  {
    hide Run, SubscribeNow;
    events := ClientReplaced();
    assert [WillSubscribe(7, 0), Idle][0 := Idle] == [Idle, Idle];
    events := Then(events, AddSubscribe(0, true), SubscribeNow(Replaced().(adders := [Idle, Idle]), 0, 7, true));
  }

  /** The SUBACK for topic 8 then confirms topic 7: the run was not harmless. */
  lemma {:induction false} ReplacedClientConfirmsWrongly() returns (events: seq<Event>)
    ensures IsInitial(Blank()) && !IsHarmlessRun(Blank(), events)
    ensures 7 in Run(Blank(), events).confirmed && 7 !in Run(Blank(), events).granted
  {
    hide Run, HandleSuback, IsHarmlessRun;
    events := LateSubscribe();
    var g := Run(Blank(), events);
    assert {7} - {7} == {};
    var h := g.(handlers := map[1 := Sending({})], lastMid := g.lastMid[1 := 2], sent := g.sent[(1, 2) := 7], pending := g.pending[2 := 7]);
    events := Then(events, ConnackSubscribe(1, 7, true), h);
    assert map[1 := Sending({})] - {1} == map[];
    var k := h.(handlers := map[]);
    events := Then(events, ConnackEnd(1), k);
    events := Then(events, Suback(1, 1, true), HandleSuback(k, 1, 8, true));
    SubackMeaning(k, 1, 8);
    if IsHarmlessRun(Blank(), events) {
      ConfirmedWasGranted(Blank(), events);
    }
  }

  lemma {:induction false} SubackMeaning(s: State, mid: nat, topic: Topic)
    requires mid in s.pending
    ensures var t := HandleSuback(s, mid, topic, true);
      t.confirmed == s.confirmed + {s.pending[mid]} && t.granted == s.granted + {topic}
  {}
}
