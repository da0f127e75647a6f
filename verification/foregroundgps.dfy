/**
 The foreground GPS chain (_start_foreground_gps, _stop_foreground_gps, _schedule_foreground_tick_locked and
 _foreground_tick, qml/utilities/api.py:809-894).  Each method is one step under _fg_gps_lock, or one moment of
 a tick; any sequence of calls is an interleaving of callers, timers and ticks.
 */
module ForegroundGps {
  import opened Wrappers

  /** A timer that waits, a tick that has fired, a tick that has passed the check and fetches its fix. */
  datatype Phase = Armed | Fired | Running | Gone

  datatype Tick = Tick(gen: nat, phase: Phase)

  predicate IsLive(t: Tick, gen: nat) {
    t.gen == gen && t.phase != Gone
  }

  /** Timers and ticks of a generation that are still around. */
  function Live(ticks: seq<Tick>, gen: nat): nat {
    if ticks == [] then 0
    else Live(ticks[..|ticks| - 1], gen) + if IsLive(ticks[|ticks| - 1], gen) then 1 else 0
  }

  lemma {:induction false} LiveAfter(ticks: seq<Tick>, i: nat, t: Tick, gen: nat)
    requires i < |ticks|
    ensures Live(ticks[i := t], gen) ==
      Live(ticks, gen) + (if IsLive(t, gen) then 1 else 0) - (if IsLive(ticks[i], gen) then 1 else 0)
    decreases |ticks|
  {
    var n := |ticks| - 1;
    if i < n {
      LiveAfter(ticks[..n], i, t, gen);
      assert ticks[i := t][..n] == ticks[..n][i := t];
    } else {
      assert ticks[i := t][..n] == ticks[..n];
    }
  }

  lemma {:induction false} LiveMore(ticks: seq<Tick>, t: Tick, gen: nat)
    ensures Live(ticks + [t], gen) == Live(ticks, gen) + if IsLive(t, gen) then 1 else 0
  {
    assert (ticks + [t])[..|ticks|] == ticks;
  }

  lemma {:induction false} NoneOfLaterGeneration(ticks: seq<Tick>, gen: nat)
    requires forall i :: 0 <= i < |ticks| ==> ticks[i].gen < gen
    ensures Live(ticks, gen) == 0
  {
    if ticks != [] {
      NoneOfLaterGeneration(ticks[..|ticks| - 1], gen);
    }
  }

  /** A generation with one live member: any live tick of it is that one. */
  lemma {:induction false} OnlyOneLive(ticks: seq<Tick>, gen: nat, i: nat, j: nat)
    requires i < |ticks| && j < |ticks| && IsLive(ticks[i], gen) && IsLive(ticks[j], gen)
    requires Live(ticks, gen) <= 1
    ensures i == j
    decreases |ticks|
  {
    var n := |ticks| - 1;
    if i < n && j < n {
      OnlyOneLive(ticks[..n], gen, i, j);
    } else if i < n {
      LiveIsPositive(ticks[..n], gen, i);
    } else if j < n {
      LiveIsPositive(ticks[..n], gen, j);
    }
  }

  lemma {:induction false} LiveIsPositive(ticks: seq<Tick>, gen: nat, i: nat)
    requires i < |ticks| && IsLive(ticks[i], gen)
    ensures Live(ticks, gen) > 0
  {
    var n := |ticks| - 1;
    if i < n {
      LiveIsPositive(ticks[..n], gen, i);
    }
  }

  datatype Event = Start | Stop | Fire(i: nat) | Check(i: nat) | Handover(i: nat) | Finish(i: nat)

  // ---- the chain as a value ------------------------------------------------------------------

  datatype State = State(timer: Option<nat>, gen: nat, ticks: seq<Tick>)

  function SetPhaseOf(ticks: seq<Tick>, i: nat, phase: Phase): seq<Tick>
    requires i < |ticks|
  {
    ticks[i := ticks[i].(phase := phase)]
  }

  /** A timer that has not fired is cancelled. */
  function Cancelled(ticks: seq<Tick>, i: nat): seq<Tick> {
    if i < |ticks| && ticks[i].phase == Armed then SetPhaseOf(ticks, i, Gone) else ticks
  }

  function Started(s: State): State {
    if s.timer.Some? then s else State(Some(|s.ticks|), s.gen + 1, s.ticks + [Tick(s.gen + 1, Armed)])
  }

  function Stopped(s: State): State {
    if s.timer.None? then s else State(None, s.gen + 1, Cancelled(s.ticks, s.timer.value))
  }

  predicate IsIn(s: State, i: nat, phase: Phase) {
    i < |s.ticks| && s.ticks[i].phase == phase
  }

  /** An event that cannot happen at its place changes nothing. */
  function Next(s: State, e: Event): State {
    match e
    case Start => Started(s)
    case Stop => Stopped(s)
    case Fire(i) => if IsIn(s, i, Armed) then s.(ticks := SetPhaseOf(s.ticks, i, Fired)) else s
    case Check(i) =>
      if IsIn(s, i, Fired) then s.(ticks := SetPhaseOf(s.ticks, i, if s.ticks[i].gen == s.gen then Running else Gone)) else s
    case Handover(i) =>
      if IsIn(s, i, Running) then Stopped(s).(ticks := SetPhaseOf(Stopped(s).ticks, i, Gone)) else s
    case Finish(i) =>
      if !IsIn(s, i, Running) then s
      else
        var rest := SetPhaseOf(s.ticks, i, Gone);
        if s.ticks[i].gen == s.gen && s.timer.Some? then State(Some(|rest|), s.gen, rest + [Tick(s.gen, Armed)])
        else s.(ticks := rest)
  }

  function Run(s: State, events: seq<Event>): State {
    if events == [] then s else Next(Run(s, events[..|events| - 1]), events[|events| - 1])
  }

  class Chain {
    /** _fg_gps_timer and _fg_gps_gen. */
    var timer: Option<nat>
    var gen: nat
    /** All timers ever made, with the ticks they became. */
    var ticks: seq<Tick>

    /** One live timer or tick of the current generation while the timer is set, none while it is not. */
    ghost predicate Valid()
      reads this
    {
      && (timer.Some? ==> timer.value < |ticks|)
      && (forall i :: 0 <= i < |ticks| ==> ticks[i].gen <= gen)
      && Live(ticks, gen) == if timer.Some? then 1 else 0
    }

    ghost function AsState(): State
      reads this
    {
      State(timer, gen, ticks)
    }

    constructor ()
      ensures Valid() && timer == None && ticks == []
    {
      timer, gen, ticks := None, 0, [];
    }

    /** _schedule_foreground_tick_locked */
    method Schedule()
      modifies `timer, `ticks
      ensures timer == Some(|old(ticks)|) && ticks == old(ticks) + [Tick(gen, Armed)]
    {
      timer := Some(|ticks|);
      ticks := ticks + [Tick(gen, Armed)];
    }

    /** _start_foreground_gps */
    method StartPolling()
      requires Valid()
      modifies this
      ensures Valid() && timer.Some?
      ensures old(timer).Some? ==> timer == old(timer) && gen == old(gen) && ticks == old(ticks)
      ensures old(timer).None? ==>
        timer == Some(|old(ticks)|) && gen == old(gen) + 1 && ticks == old(ticks) + [Tick(gen, Armed)]
    {
      if timer.Some? {
        return;
      }
      gen := gen + 1;
      NoneOfLaterGeneration(ticks, gen);
      LiveMore(ticks, Tick(gen, Armed), gen);
      Schedule();
    }

    /** _stop_foreground_gps: cancel reaches a timer that has not fired, and nothing else. */
    method StopPolling()
      requires Valid()
      modifies this
      ensures Valid() && timer == None
      ensures old(timer).None? ==> gen == old(gen) && ticks == old(ticks)
      ensures old(timer).Some? ==> gen == old(gen) + 1 && |ticks| == |old(ticks)|
      ensures forall i :: 0 <= i < |ticks| ==>
        ticks[i] == if old(timer) == Some(i) && old(ticks)[i].phase == Armed then old(ticks)[i].(phase := Gone) else old(ticks)[i]
    {
      if timer.None? {
        return;
      }
      var i := timer.value;
      if ticks[i].phase == Armed {
        ticks := ticks[i := ticks[i].(phase := Gone)];
      }
      timer := None;
      gen := gen + 1;
      NoneOfLaterGeneration(ticks, gen);
    }

    method SetPhase(i: nat, phase: Phase)
      requires i < |ticks|
      modifies `ticks
      ensures ticks == old(ticks)[i := old(ticks)[i].(phase := phase)]
      ensures Live(ticks, gen) ==
        Live(old(ticks), gen) + (if IsLive(ticks[i], gen) then 1 else 0) - (if IsLive(old(ticks)[i], gen) then 1 else 0)
    {
      LiveAfter(ticks, i, ticks[i].(phase := phase), gen);
      ticks := ticks[i := ticks[i].(phase := phase)];
    }

    /** The timer runs out; from now on cancel comes too late. */
    method FireTimer(i: nat)
      requires Valid() && i < |ticks| && ticks[i].phase == Armed
      modifies this
      ensures Valid() && timer == old(timer) && gen == old(gen)
      ensures ticks == old(ticks)[i := old(ticks)[i].(phase := Fired)]
    {
      SetPhase(i, Fired);
    }

    /** The start of _foreground_tick: a tick of a retired chain is dropped. */
    method CheckTick(i: nat)
      requires Valid() && i < |ticks| && ticks[i].phase == Fired
      modifies this
      ensures Valid() && timer == old(timer) && gen == old(gen)
      ensures ticks == old(ticks)[i := old(ticks)[i].(phase := if old(ticks)[i].gen == gen then Running else Gone)]
    {
      SetPhase(i, if ticks[i].gen == gen then Running else Gone);
    }

    /** The background daemon has taken over: the tick stops the polling and is gone. */
    method HandoverTick(i: nat)
      requires Valid() && i < |ticks| && ticks[i].phase == Running
      modifies this
      ensures Valid() && timer == None && gen == old(gen) + if old(timer).Some? then 1 else 0
      ensures |ticks| == |old(ticks)| && ticks[i] == old(ticks)[i].(phase := Gone)
      ensures forall k :: 0 <= k < |ticks| && k != i ==>
        ticks[k] == if old(timer) == Some(k) && old(ticks)[k].phase == Armed then old(ticks)[k].(phase := Gone) else old(ticks)[k]
    {
      StopPolling();
      SetPhase(i, Gone);
    }

    /**
     The end of _foreground_tick: only a tick of the current chain arms the next one.  A retired tick leaves
     the chain as it is, so it never forks a second one.
     */
    method FinishTick(i: nat)
      requires Valid() && i < |ticks| && ticks[i].phase == Running
      modifies this
      ensures Valid() && gen == old(gen) && (timer.Some? <==> old(timer).Some?)
      ensures old(ticks)[i].gen != gen || old(timer).None? ==>
        timer == old(timer) && ticks == old(ticks)[i := old(ticks)[i].(phase := Gone)]
      ensures old(ticks)[i].gen == gen && old(timer).Some? ==>
        timer == Some(|old(ticks)|) && ticks == old(ticks)[i := old(ticks)[i].(phase := Gone)] + [Tick(gen, Armed)]
    {
      if ticks[i].gen == gen {
        LiveIsPositive(ticks, gen, i);
      }
      var again := timer.Some? && ticks[i].gen == gen;
      SetPhase(i, Gone);
      if again {
        LiveMore(ticks, Tick(gen, Armed), gen);
        Schedule();
      }
    }

    method Step(e: Event)
      requires Valid()
      modifies this
      ensures Valid() && AsState() == Next(old(AsState()), e)
    {
      hide Live;
      match e
      case Start => StartPolling();
      case Stop =>
        StopPolling();
        assert ticks == Stopped(old(AsState())).ticks;
      case Fire(i) => if i < |ticks| && ticks[i].phase == Armed { FireTimer(i); }
      case Check(i) => if i < |ticks| && ticks[i].phase == Fired { CheckTick(i); }
      case Handover(i) =>
        if i < |ticks| && ticks[i].phase == Running {
          HandoverTick(i);
          assert ticks == Next(old(AsState()), e).ticks;
        }
      case Finish(i) => if i < |ticks| && ticks[i].phase == Running { FinishTick(i); }
    }

    /** Any interleaving: events that cannot happen at their place are skipped. */
    method Interleave(events: seq<Event>)
      requires Valid()
      modifies this
      ensures Valid() && AsState() == Run(old(AsState()), events)
      ensures forall i, j :: 0 <= i < |ticks| && 0 <= j < |ticks| && IsLive(ticks[i], gen) && IsLive(ticks[j], gen) ==>
        i == j && timer.Some?
    {
      hide Next;
      for k := 0 to |events|
        invariant Valid() && AsState() == Run(old(AsState()), events[..k])
      {
        assert events[..k + 1][..k] == events[..k];
        Step(events[k]);
      }
      assert events[..|events|] == events;
      forall i, j | 0 <= i < |ticks| && 0 <= j < |ticks| && IsLive(ticks[i], gen) && IsLive(ticks[j], gen)
        ensures i == j && timer.Some?
      {
        LiveIsPositive(ticks, gen, i);
        OnlyOneLive(ticks, gen, i, j);
      }
    }
  }
}
