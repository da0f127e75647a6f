/**
 The ownership of the mobile data switch (daemon-rpm/src/mobiledata_control.py) as a state machine: any
 number of daemon processes, each possibly killed between any two actions, D-Bus calls that fail with or
 without effect, and a user who moves the switch at any time.  One data service; the record file's
 operations work.
 */
module MobileData {
  import opened Wrappers

  datatype Writer = UserWrote | DaemonWrote

  /** The next action of a process; all but Idle hold the lock. */
  datatype Pc =
    | Idle
    | ReadRecord(session: bool)    // _recover; session is false at daemon start (recover_interrupted)
    | ReadSwitch(session: bool)    // the record names the service
    | SwitchOff(session: bool)     // the switch was found on
    | ClearRecord(session: bool)   // the switch is off again
    | Policy                       // enable_if_needed: WLAN, data service, switch, roaming
    | Truncate                     // _mark_owned opens the file for writing, which empties it,
    | WriteRecord                  // and writes the service into it
    | SwitchOn
    | Running(enabledByUs: bool)   // the caller's network action
    | Restore                      // restore: switch off,
    | ClearOwned                   // then clear the record
    | Release

  datatype State = State(on: bool, lastWriter: Writer, record: bool, lock: Option<nat>, procs: seq<Pc>)

  /** How an action turns out. */
  datatype Choice =
    | Done              // it works; a policy check lets the session go on
    | Refused           // a D-Bus call raises without effect; a policy check ends the session
    | RefusedLate       // a D-Bus call takes effect but raises

  datatype Event = User(on: bool) | Crash(i: nat) | Start(i: nat, session: bool) | Act(i: nat, choice: Choice)

  predicate IsInitial(s: State) {
    && s.lastWriter == UserWrote && !s.record && s.lock == None
    && forall i :: 0 <= i < |s.procs| ==> s.procs[i] == Idle
  }

  function Goto(s: State, i: nat, pc: Pc): State
    requires i < |s.procs|
  {
    s.(procs := s.procs[i := pc])
  }

  function Write(s: State, on: bool): State {
    s.(on := on, lastWriter := DaemonWrote)
  }

  /** After _recover: the session goes on, or the start-up check is over. */
  function AfterRecover(session: bool): Pc {
    if session then Policy else Release
  }

  /** SetProperty on the switch takes effect. */
  predicate Writes(pc: Pc, choice: Choice) {
    (pc.SwitchOff? || pc.SwitchOn? || pc.Restore?) && choice != Refused
  }

  function NextOn(pc: Pc, on: bool, choice: Choice): bool {
    if Writes(pc, choice) then pc.SwitchOn? else on
  }

  function NextWriter(pc: Pc, lastWriter: Writer, choice: Choice): Writer {
    if Writes(pc, choice) then DaemonWrote else lastWriter
  }

  function NextRecord(pc: Pc, record: bool): bool {
    if pc.ClearRecord? || pc.ClearOwned? || pc.Truncate? then false else pc.WriteRecord? || record
  }

  function NextPc(pc: Pc, on: bool, record: bool, choice: Choice): Pc {
    match pc
    case Idle => Idle
    case ReadRecord(session) => if record then ReadSwitch(session) else AfterRecover(session)
    case ReadSwitch(session) =>
      if !choice.Done? then AfterRecover(session) else if on then SwitchOff(session) else ClearRecord(session)
    case SwitchOff(session) => if choice.Done? then ClearRecord(session) else AfterRecover(session)
    case ClearRecord(session) => AfterRecover(session)
    case Policy => if on || !choice.Done? then Running(false) else Truncate
    case Truncate => WriteRecord
    case WriteRecord => SwitchOn
    case SwitchOn => Running(choice.Done?)
    case Running(enabledByUs) => if enabledByUs then Restore else Release
    case Restore => if choice.Done? then ClearOwned else Release
    case ClearOwned => Release
    case Release => Idle
  }

  /** The next action of process i. */
  function Action(s: State, i: nat, choice: Choice): State
    requires i < |s.procs|
  {
    var pc := s.procs[i];
    State(NextOn(pc, s.on, choice), NextWriter(pc, s.lastWriter, choice), NextRecord(pc, s.record),
          if pc.Release? then None else s.lock, s.procs[i := NextPc(pc, s.on, s.record, choice)])
  }

  function Next(s: State, e: Event): State {
    match e
    case User(on) => s.(on := on, lastWriter := UserWrote)
    case Start(i, session) =>
      // without the lock nothing is enabled, or recovered
      if i < |s.procs| && s.procs[i].Idle? && s.lock.None? then Goto(s.(lock := Some(i)), i, ReadRecord(session)) else s
    case Crash(i) =>
      if i < |s.procs| && !s.procs[i].Idle? then Goto(s.(lock := None), i, Idle) else s
    case Act(i, choice) =>
      if i < |s.procs| then Action(s, i, choice) else s
  }

  function Run(s: State, events: seq<Event>): State {
    if events == [] then s else Next(Run(s, events[..|events| - 1]), events[|events| - 1])
  }

  // ---- the invariant -------------------------------------------------------------------------

  /** The switch is on because a daemon wrote it last. */
  predicate LeftOn(s: State) {
    s.on && s.lastWriter == DaemonWrote
  }

  /** The actions before which the record is there, and those before which the switch is not a daemon's. */
  predicate NeedsRecord(pc: Pc) {
    pc.ReadSwitch? || pc.SwitchOff? || pc.SwitchOn? || pc == Running(true) || pc.Restore?
  }

  predicate NeedsClean(pc: Pc) {
    pc.ClearRecord? || pc.ClearOwned? || pc.Truncate? || pc.WriteRecord?
  }

  /** Only the holder of the lock is doing something. */
  ghost predicate Exclusive(s: State) {
    && (s.lock.Some? ==> s.lock.value < |s.procs| && s.procs[s.lock.value] != Idle)
    && forall i :: 0 <= i < |s.procs| && s.lock != Some(i) ==> s.procs[i] == Idle
  }

  /** The action of the holder, if there is one. */
  function Current(s: State): Pc {
    if s.lock.Some? && s.lock.value < |s.procs| then s.procs[s.lock.value] else Idle
  }

  /** The switch, the record and the action in progress agree. */
  predicate Agrees(on: bool, lastWriter: Writer, record: bool, pc: Pc) {
    && (on && lastWriter == DaemonWrote ==> record)
    && (NeedsRecord(pc) ==> record)
    && (NeedsClean(pc) ==> !(on && lastWriter == DaemonWrote))
  }

  ghost predicate Inv(s: State) {
    Exclusive(s) && Agrees(s.on, s.lastWriter, s.record, Current(s))
  }

  /** An action keeps the agreement. */
  lemma {:induction false} ActionAgrees(on: bool, lastWriter: Writer, record: bool, pc: Pc, choice: Choice)
    requires Agrees(on, lastWriter, record, pc)
    ensures Agrees(NextOn(pc, on, choice), NextWriter(pc, lastWriter, choice), NextRecord(pc, record),
                   NextPc(pc, on, record, choice))
  {}

  lemma {:induction false} ActionKeepsInv(s: State, i: nat, choice: Choice)
    requires Inv(s) && s.lock == Some(i)
    ensures Inv(Action(s, i, choice))
  {
    hide Agrees, NextOn, NextWriter, NextRecord;
    ActionAgrees(s.on, s.lastWriter, s.record, s.procs[i], choice);
  }

  lemma {:induction false} StepKeepsInv(s: State, e: Event)
    requires Inv(s)
    ensures Inv(Next(s, e))
  {
    if e.Act? && s.lock == Some(e.i) {
      ActionKeepsInv(s, e.i, e.choice);
    } else {
      hide Agrees;
      WeakerAgrees(s.on, s.lastWriter, s.record, Current(s));
    }
  }

  /** Without an action in progress, and whatever the user does, the agreement stays. */
  lemma {:induction false} WeakerAgrees(on: bool, lastWriter: Writer, record: bool, pc: Pc)
    requires Agrees(on, lastWriter, record, pc)
    ensures Agrees(on, lastWriter, record, Idle)
    ensures forall session :: pc.Idle? ==> Agrees(on, lastWriter, record, ReadRecord(session))
    ensures forall b :: Agrees(b, UserWrote, record, pc)
  {}

  /** In every run: when the switch is on because a daemon wrote it last, the record says so. */
  lemma {:induction false} RecordNamesTheService(s: State, events: seq<Event>)
    requires IsInitial(s)
    ensures Inv(Run(s, events)) && (LeftOn(Run(s, events)) ==> Run(s, events).record)
  {
    hide Next;
    if events != [] {
      RecordNamesTheService(s, events[..|events| - 1]);
      StepKeepsInv(Run(s, events[..|events| - 1]), events[|events| - 1]);
    }
  }

  // ---- what the user may rely on -------------------------------------------------------------

  /** The event makes process i write the switch. */
  predicate WritesSwitch(s: State, e: Event, i: nat) {
    && e.Act? && e.i == i && i < |s.procs| && e.choice != Refused
    && (s.procs[i].SwitchOff? || s.procs[i].SwitchOn? || s.procs[i].Restore?)
  }

  /** A session that finds the switch on and no record: it is the user's own setting, and the session goes on as not enabled by us. */
  lemma {:induction false} FoundOnWithoutRecord(s: State, events: seq<Event>, i: nat, choice: Choice)
    requires IsInitial(s) && i < |Run(s, events).procs|
    requires var t := Run(s, events); t.procs[i] == Policy && t.on && !t.record
    ensures Run(s, events).lastWriter == UserWrote
    ensures Next(Run(s, events), Act(i, choice)) == Goto(Run(s, events), i, Running(false))
  {
    hide Run;
    RecordNamesTheService(s, events);
  }

  /** Such a session never writes the switch, whatever else happens, until it starts anew. */
  lemma {:induction false} NotEnabledNeverWrites(s: State, events: seq<Event>, i: nat)
    requires i < |s.procs| && (s.procs[i] == Running(false) || s.procs[i] == Release || s.procs[i] == Idle)
    requires forall k :: 0 <= k < |events| ==> !IsStart(events[k], i)
    ensures var t := Run(s, events);
      |t.procs| == |s.procs| && (t.procs[i] == Running(false) || t.procs[i] == Release || t.procs[i] == Idle)
    ensures forall e :: !WritesSwitch(Run(s, events), e, i)
    decreases |events|
  {
    if events != [] {
      var n := |events| - 1;
      NotEnabledNeverWrites(s, events[..n], i);
      QuietStep(Run(s, events[..n]), events[n], i);
    }
  }

  lemma {:induction false} QuietStep(s: State, e: Event, i: nat)
    requires i < |s.procs| && (s.procs[i] == Running(false) || s.procs[i] == Release || s.procs[i] == Idle)
    requires !IsStart(e, i)
    ensures var t := Next(s, e);
      |t.procs| == |s.procs| && (t.procs[i] == Running(false) || t.procs[i] == Release || t.procs[i] == Idle)
  {
    if e.Act? && e.i != i && e.i < |s.procs| {
      hide Action;
      OthersStay(s, e.i, e.choice, i);
    }
  }

  lemma {:induction false} OthersStay(s: State, j: nat, choice: Choice, i: nat)
    requires j < |s.procs| && i < |s.procs| && i != j
    ensures |Action(s, j, choice).procs| == |s.procs| && Action(s, j, choice).procs[i] == s.procs[i]
  {}

  predicate IsStart(e: Event, i: nat) {
    e.Start? && e.i == i
  }

  /** In every run a daemon turns the switch off only while the record is there. */
  lemma {:induction false} TurnsOffOnlyWithRecord(s: State, events: seq<Event>, i: nat, choice: Choice)
    requires IsInitial(s)
    ensures var t := Run(s, events); t.on && !Next(t, Act(i, choice)).on ==> t.record
  {
    hide Run;
    RecordNamesTheService(s, events);
  }

  function Undisturbed(i: nat, n: nat): (r: seq<Event>)
    ensures |r| == n
  {
    seq(n, _ => Act(i, Done))
  }

  lemma {:induction false} RunStep(s: State, i: nat, n: nat)
    ensures Run(s, Undisturbed(i, n + 1)) == Next(Run(s, Undisturbed(i, n)), Act(i, Done))
    ensures Run(s, Undisturbed(i, 0)) == s
  {
    assert Undisturbed(i, n + 1)[..n] == Undisturbed(i, n);
  }

  /**
   Recovery looks at the record and the switch, not at who moved the switch last: undisturbed, at daemon start
   or at the beginning of a session, it switches off if and only if the record is there.
   */
  lemma {:induction false} RecoveryGoesByTheRecord(s: State, i: nat, session: bool)
    requires i < |s.procs| && s.procs[i] == ReadRecord(session) && s.on
    ensures Run(s, Undisturbed(i, 3)).on <==> !s.record
    ensures s.record ==> !Run(s, Undisturbed(i, 4)).record
  {
    hide Run, Undisturbed;
    RunStep(s, i, 0);
    RunStep(s, i, 1);
    RunStep(s, i, 2);
    RunStep(s, i, 3);
  }

  /** The end of a session looks at what the session did, not at who moved the switch last. */
  lemma {:induction false} EndGoesByTheSession(s: State, i: nat, enabledByUs: bool)
    requires i < |s.procs| && s.procs[i] == Running(enabledByUs) && s.on
    ensures Run(s, Undisturbed(i, 2)).on <==> !enabledByUs
  {
    hide Run, Undisturbed;
    RunStep(s, i, 0);
    RunStep(s, i, 1);
  }

  /** A session that finds mobile data off gives back what it found. */
  lemma {:induction false} SessionRestores(s: State, i: nat)
    requires i < |s.procs| && s.procs[i] == ReadRecord(true) && s.lock == Some(i) && !s.on && !s.record
    ensures Run(s, Undisturbed(i, 5)) == Goto(Write(s, true).(record := true), i, Running(true))
    ensures Run(s, Undisturbed(i, 9)) == Goto(Write(s, false).(lock := None), i, Idle)
  {
    SessionEnables(s, i);
    hide Run, Undisturbed;
    var t := Write(s, true).(record := true);
    OneAction(t, i, Running(true), Goto(t, i, Restore));
    OneAction(t, i, Restore, Goto(Write(t, false), i, ClearOwned));
    OneAction(Write(t, false), i, ClearOwned, Goto(Write(s, false), i, Release));
    OneAction(Write(s, false), i, Release, Goto(Write(s, false).(lock := None), i, Idle));
    RunStep(s, i, 5);
    RunStep(s, i, 6);
    RunStep(s, i, 7);
    RunStep(s, i, 8);
  }

  lemma {:induction false} SessionEnables(s: State, i: nat)
    requires i < |s.procs| && s.procs[i] == ReadRecord(true) && s.lock == Some(i) && !s.on && !s.record
    ensures Run(s, Undisturbed(i, 5)) == Goto(Write(s, true).(record := true), i, Running(true))
  {
    hide Run, Undisturbed;
    assert Goto(s, i, ReadRecord(true)) == s;
    OneAction(s, i, ReadRecord(true), Goto(s, i, Policy));
    OneAction(s, i, Policy, Goto(s, i, Truncate));
    OneAction(s, i, Truncate, Goto(s, i, WriteRecord));
    OneAction(s, i, WriteRecord, Goto(s.(record := true), i, SwitchOn));
    OneAction(s.(record := true), i, SwitchOn, Goto(Write(s, true).(record := true), i, Running(true)));
    RunStep(s, i, 0);
    RunStep(s, i, 1);
    RunStep(s, i, 2);
    RunStep(s, i, 3);
    RunStep(s, i, 4);
  }

  lemma {:induction false} OneAction(s: State, i: nat, pc: Pc, t: State)
    requires i < |s.procs| && Action(Goto(s, i, pc), i, Done) == t
    ensures Next(Goto(s, i, pc), Act(i, Done)) == t
  {}

  // ---- a setting of the user's that is overwritten -------------------------------------------

  /** Mobile data is on because the user turned it on. */
  predicate IsUsers(s: State) {
    s.on && s.lastWriter == UserWrote
  }

  /** In every run: the actions that turn off what the user turned on, for a left-over record or a live session. */
  lemma {:induction false} OverwritingActions(s: State, events: seq<Event>, e: Event)
    requires IsInitial(s) && IsUsers(Run(s, events)) && !e.User?
    ensures var t := Run(s, events);
      && (!Next(t, e).on <==> e.Act? && t.lock == Some(e.i) && (Current(t).SwitchOff? || Current(t).Restore?) && e.choice != Refused)
      && (!Next(t, e).on ==> t.record)
  {
    hide Run;
    RecordNamesTheService(s, events);
  }

  /** The ownership record is there, or a session has found mobile data off and is about to write it. */
  predicate IsExposed(s: State) {
    s.record || Current(s).Truncate? || Current(s).WriteRecord?
  }

  predicate NoUser(events: seq<Event>) {
    forall k :: 0 <= k < |events| ==> !events[k].User?
  }

  /**
   What the user turned on stays on, whatever the daemons do until the user moves the switch again, if and only
   if no record is there and none is about to be written.
   */
  lemma {:induction false} UsersSettingStays(s: State, events: seq<Event>)
    requires IsInitial(s) && |s.procs| > 0 && IsUsers(Run(s, events))
    ensures (forall later :: NoUser(later) ==> IsUsers(Run(Run(s, events), later))) <==> !IsExposed(Run(s, events))
  {
    hide Run, IsExposed, IsUsers;
    RecordNamesTheService(s, events);
    ProcsStay(s, events);
    var t := Run(s, events);
    if IsExposed(t) {
      var later := TurnedOffLater(t);
      assert NoUser(later) && !IsUsers(Run(t, later));
    } else {
      forall later | NoUser(later) ensures IsUsers(Run(t, later)) {
        SettingIsSafe(t, later);
      }
    }
  }

  lemma {:induction false} ProcsStay(s: State, events: seq<Event>)
    ensures |Run(s, events).procs| == |s.procs|
  {
    if events != [] {
      ProcsStay(s, events[..|events| - 1]);
    }
  }

  lemma {:induction false} SafeStep(s: State, e: Event)
    requires Inv(s) && IsUsers(s) && !IsExposed(s) && !e.User?
    ensures Inv(Next(s, e)) && IsUsers(Next(s, e)) && !IsExposed(Next(s, e))
  {
    StepKeepsInv(s, e);
    hide Inv;
  }

  lemma {:induction false} SettingIsSafe(s: State, later: seq<Event>)
    requires Inv(s) && IsUsers(s) && !IsExposed(s) && NoUser(later)
    ensures Inv(Run(s, later)) && IsUsers(Run(s, later)) && !IsExposed(Run(s, later))
  {
    hide Inv, IsUsers, IsExposed, Next;
    if later != [] {
      SettingIsSafe(s, later[..|later| - 1]);
      SafeStep(Run(s, later[..|later| - 1]), later[|later| - 1]);
    }
  }

  /** Otherwise the daemons can turn it off, knowing nothing of the user: the session is killed, the next start recovers. */
  lemma {:induction false} TurnedOffLater(s: State) returns (later: seq<Event>)
    requires Inv(s) && |s.procs| > 0 && IsUsers(s) && IsExposed(s)
    ensures NoUser(later) && !Run(s, later).on && !IsUsers(Run(s, later))
    decreases if s.record then 0 else if Current(s).WriteRecord? then 1 else 2
  {
    hide Run;
    if !s.record {
      var e := Act(s.lock.value, Done);
      StepKeepsInv(s, e);
      var more := TurnedOffLater(Next(s, e));
      RunFrom(s, e, more);
      later := [e] + more;
    } else if s.lock.Some? {
      var e := Crash(s.lock.value);
      StepKeepsInv(s, e);
      assert s.lock.value != 0 ==> s.procs[0] == Idle;
      var more := RecoveryTurnsOff(Next(s, e));
      RunFrom(s, e, more);
      later := [e] + more;
    } else {
      later := RecoveryTurnsOff(s);
    }
  }

  lemma {:induction false} RecoveryTurnsOff(s: State) returns (later: seq<Event>)
    requires |s.procs| > 0 && s.record && s.on && s.lock.None? && s.procs[0].Idle?
    ensures NoUser(later) && !Run(s, later).on
  {
    hide Run;
    var t := Next(s, Start(0, false));
    RecoveryGoesByTheRecord(t, 0, false);
    later := [Start(0, false)] + Undisturbed(0, 3);
    RunFrom(s, Start(0, false), Undisturbed(0, 3));
  }

  lemma {:induction false} RunFrom(s: State, e: Event, later: seq<Event>)
    ensures Run(s, [e] + later) == Run(Next(s, e), later)
  {
    hide Next;
    if later == [] {
      assert [e] + later == [e] && [e][..0] == [];
      NoEvents(s, []);
    } else {
      var n := |later| - 1;
      assert ([e] + later)[..n + 1] == [e] + later[..n];
      RunFrom(s, e, later[..n]);
    }
  }

  lemma {:induction false} RunOn(s: State, events: seq<Event>, e: Event)
    ensures Run(s, events + [e]) == Next(Run(s, events), e)
  {
    assert (events + [e])[..|events|] == events;
  }

  /** A session is killed while mobile data is on; the user turns it off and on again; then a daemon starts. */
  function StaleRecord(): seq<Event> {
    [Start(0, true), Act(0, Done), Act(0, Done), Act(0, Done), Act(0, Done), Act(0, Done), Crash(0),
     User(false), User(true), Start(0, false), Act(0, Done), Act(0, Done)]
  }

  lemma {:induction false} KilledSession()
    ensures Run(State(false, UserWrote, false, None, [Idle]), StaleRecord()[..7]) == State(true, DaemonWrote, true, None, [Idle])
  {
    hide Run;
    EnabledSession();
    StaleStep(State(false, UserWrote, false, None, [Idle]), 6, State(true, DaemonWrote, true, None, [Idle]));
  }

  lemma {:induction false} EnabledSession()
    ensures Run(State(false, UserWrote, false, None, [Idle]), StaleRecord()[..6]) ==
      State(true, DaemonWrote, true, Some(0), [Running(true)])
  {
    hide Run;
    var s := State(false, UserWrote, false, None, [Idle]);
    NoEvents(s, StaleRecord()[..0]);
    StaleStep(s, 0, State(false, UserWrote, false, Some(0), [ReadRecord(true)]));
    StaleStep(s, 1, State(false, UserWrote, false, Some(0), [Policy]));
    StaleStep(s, 2, State(false, UserWrote, false, Some(0), [Truncate]));
    StaleStep(s, 3, State(false, UserWrote, false, Some(0), [WriteRecord]));
    StaleStep(s, 4, State(false, UserWrote, true, Some(0), [SwitchOn]));
    StaleStep(s, 5, State(true, DaemonWrote, true, Some(0), [Running(true)]));
  }

  lemma {:induction false} NoEvents(s: State, events: seq<Event>)
    requires events == []
    ensures Run(s, events) == s
  {}

  /** One more event of the run leads to t. */
  lemma {:induction false} StaleStep(s: State, k: nat, t: State)
    requires k < |StaleRecord()| && Next(Run(s, StaleRecord()[..k]), StaleRecord()[k]) == t
    ensures Run(s, StaleRecord()[..k + 1]) == t
  {
    assert StaleRecord()[..k + 1] == StaleRecord()[..k] + [StaleRecord()[k]];
    RunOn(s, StaleRecord()[..k], StaleRecord()[k]);
  }

  lemma {:induction false} StaleRecordOverwritesUser()
    ensures var s := State(false, UserWrote, false, None, [Idle]);
      var t := Run(s, StaleRecord());
      IsInitial(s) && t.on && t.lastWriter == UserWrote && !Next(t, Act(0, Done)).on
  {
    hide Run;
    var s := State(false, UserWrote, false, None, [Idle]);
    KilledSession();
    StaleStep(s, 7, State(false, UserWrote, true, None, [Idle]));
    StaleStep(s, 8, State(true, UserWrote, true, None, [Idle]));
    StaleStep(s, 9, State(true, UserWrote, true, Some(0), [ReadRecord(false)]));
    StaleStep(s, 10, State(true, UserWrote, true, Some(0), [ReadSwitch(false)]));
    StaleStep(s, 11, State(true, UserWrote, true, Some(0), [SwitchOff(false)]));
    assert StaleRecord()[..12] == StaleRecord();
  }

  /** No session is interrupted: while one runs, the user turns mobile data off and on again. */
  lemma {:induction false} LiveSessionOverwritesUser()
    ensures var s := State(false, UserWrote, false, None, [Idle]);
      var t := Run(s, StaleRecord()[..6] + [User(false), User(true), Act(0, Done)]);
      IsInitial(s) && IsUsers(t) && t.procs == [Restore] && !Next(t, Act(0, Done)).on
  {
    hide Run;
    var s := State(false, UserWrote, false, None, [Idle]);
    EnabledSession();
    var events := StaleRecord()[..6];
    RunOn(s, events, User(false));
    RunOn(s, events + [User(false)], User(true));
    RunOn(s, events + [User(false)] + [User(true)], Act(0, Done));
    assert events + [User(false)] + [User(true)] + [Act(0, Done)] == events + [User(false), User(true), Act(0, Done)];
  }

  // ---- the program of one process ------------------------------------------------------------

  /** What may happen before an operation: the user moves the switch, the process is killed; and how it turns out. */
  datatype Moment = Moment(toggle: Option<bool>, kill: bool, choice: Choice)

  /** The actions that only look. */
  lemma {:induction false} LooksOnly(pc: Pc, on: bool, lastWriter: Writer, record: bool, choice: Choice)
    requires pc.ReadRecord? || pc.ReadSwitch? || pc.Policy? || pc.Running? || pc.Release?
    ensures NextOn(pc, on, choice) == on && NextWriter(pc, lastWriter, choice) == lastWriter && NextRecord(pc, record) == record
  {}

  /** What a process does to the switch and to the record. */
  datatype Effect = Switch(value: bool) | Record(value: bool)

  function Effects(pc: Pc, choice: Choice): seq<Effect> {
    if Writes(pc, choice) then [Switch(pc.SwitchOn?)]
    else if pc.Truncate? || pc.ClearRecord? || pc.ClearOwned? then [Record(false)]
    else if pc.WriteRecord? then [Record(true)]
    else []
  }

  function EventEffects(s: State, e: Event): seq<Effect> {
    if e.Act? && e.i < |s.procs| then Effects(s.procs[e.i], e.choice) else []
  }

  /** What the processes have done to them in a run. */
  function Log(s: State, events: seq<Event>): seq<Effect> {
    if events == [] then []
    else
      Log(s, events[..|events| - 1]) + EventEffects(Run(s, events[..|events| - 1]), events[|events| - 1])
  }

  lemma {:induction false} LogOn(s: State, events: seq<Event>, e: Event)
    ensures Log(s, events + [e]) == Log(s, events) + EventEffects(Run(s, events), e)
  {
    assert (events + [e])[..|events|] == events;
  }

  /** What enable_if_needed finds besides the switch: WLAN, a service for the data SIM, roaming. */
  datatype Surroundings = Surroundings(wlan: bool, service: bool, roaming: bool)

  predicate MayEnable(env: Surroundings) {
    !env.wlan && env.service && !env.roaming
  }

  /** The user's hand on the switch. */
  function Toggled(on: bool, m: Moment): bool {
    if m.toggle.Some? then m.toggle.value else on
  }

  /** What recovery does, undisturbed. */
  function Recovery(on: bool, record: bool): seq<Effect> {
    if !record then [] else if on then [Switch(false), Record(false)] else [Record(false)]
  }

  /** What a session does that switches mobile data on, undisturbed: the record is written first and cleared last. */
  function Enabling(): seq<Effect> {
    [Record(false), Record(true), Switch(true)]
  }

  function Restoring(): seq<Effect> {
    [Switch(false), Record(false)]
  }

  /** Since then nothing has been switched on and nothing recorded. */
  predicate OnlyOff(before: seq<Effect>, now: seq<Effect>) {
    before <= now && forall k :: |before| <= k < |now| ==> now[k] == Switch(false) || now[k] == Record(false)
  }

  /** Since then some of the given effects have happened, in their order. */
  predicate Within(before: seq<Effect>, now: seq<Effect>, part: seq<Effect>) {
    before <= now <= before + part
  }

  lemma {:induction false} OffIsOff(effects: seq<Effect>)
    ensures OnlyOff(effects, effects)
    ensures OnlyOff(effects, effects + [Switch(false)]) && OnlyOff(effects, effects + [Record(false)])
    ensures OnlyOff(effects, effects + [Switch(false)] + [Record(false)])
  {}

  class Session {
    var enabledByUs: bool

    constructor ()
      ensures !enabledByUs
    {
      enabledByUs := false;
    }
  }

  /** The switch, the record file, and one process; its operations are actions of the state machine. */
  class Phone {
    var on: bool
    var lastWriter: Writer
    var record: bool
    var killed: bool
    const fate: nat -> Moment
    var clock: nat
    ghost var pc: Pc
    ghost const start: State
    ghost var trace: seq<Event>
    ghost var effects: seq<Effect>

    ghost function AsState(): State
      reads this
    {
      State(on, lastWriter, record, if pc == Idle then None else Some(0), [pc])
    }

    /** Everything that has happened is a run of the state machine. */
    ghost predicate Valid()
      reads this
    {
      IsInitial(start) && AsState() == Run(start, trace) && effects == Log(start, trace) && (killed ==> pc == Idle)
    }

    /** From a time on the user leaves the switch alone, every operation works and the process lives. */
    ghost predicate Calm(from: nat) {
      forall t: nat :: from <= t ==> fate(t) == Moment(None, false, Done)
    }

    constructor (on: bool, fate: nat -> Moment)
      ensures Valid() && pc == Idle && !killed
    {
      this.on, lastWriter, record, killed, this.fate, clock := on, UserWrote, false, false, fate, 0;
      pc, start, trace, effects := Idle, State(on, UserWrote, false, None, [Idle]), [], [];
    }

    /** So the record covers the switch at all times, wherever the process is killed. */
    lemma {:induction false} RecordCovers()
      requires Valid()
      ensures on && lastWriter == DaemonWrote ==> record
    {
      hide Run;
      RecordNamesTheService(start, trace);
    }

    lemma {:induction false} KilledIsIdle()
      requires Valid() && killed
      ensures pc == Idle
    {}

    /** Add an event to the run. */
    ghost method Note(e: Event, before: State)
      requires IsInitial(start) && before == Run(start, trace) && effects == Log(start, trace) && AsState() == Next(before, e) && (killed ==> pc == Idle)
      modifies `trace, `effects
      ensures Valid() && trace == old(trace) + [e]
      ensures effects == old(effects) + EventEffects(before, e)
    {
      hide Next, EventEffects, Run, Log;
      RunOn(start, trace, e);
      LogOn(start, trace, e);
      trace := trace + [e];
      effects := effects + EventEffects(before, e);
    }

    method UserMoves(value: bool)
      requires Valid()
      modifies `on, `lastWriter, `trace, `effects
      ensures Valid() && old(trace) <= trace && effects == old(effects) && on == value
    {
      hide Run, IsInitial, Log, Effects;
      ghost var before := AsState();
      on, lastWriter := value, UserWrote;
      Note(User(value), before);
    }

    method Die()
      requires Valid() && !killed && pc != Idle
      modifies `killed, `pc, `trace, `effects
      ensures Valid() && old(trace) <= trace && effects == old(effects) && killed && pc == Idle
    {
      hide Run, IsInitial, Log, Effects;
      ghost var before := AsState();
      killed := true;
      pc := Idle;
      Note(Crash(0), before);
    }

    /** Time passes before an operation of the process. */
    method Meanwhile() returns (choice: Choice)
      requires Valid() && !killed && pc != Idle
      modifies `on, `lastWriter, `killed, `clock, `pc, `trace, `effects
      ensures Valid() && old(trace) <= trace && (killed ==> pc == Idle) && (!killed ==> pc == old(pc))
      ensures effects == old(effects) && clock == old(clock) + 1
      ensures killed == fate(old(clock)).kill && choice == fate(old(clock)).choice && on == Toggled(old(on), fate(old(clock)))
    {
      hide Run, IsInitial, Log;
      var m := fate(clock);
      clock := clock + 1;
      choice := m.choice;
      if m.toggle.Some? {
        UserMoves(m.toggle.value);
      }
      if m.kill {
        Die();
      }
    }

    /** The operation just carried out is the next action of the machine. */
    ghost method Took(choice: Choice, before: State)
      requires IsInitial(start) && before == Run(start, trace) && effects == Log(start, trace) && !killed && before.procs == [pc] && pc != Idle
      requires on == NextOn(pc, before.on, choice) && lastWriter == NextWriter(pc, before.lastWriter, choice)
      requires record == NextRecord(pc, before.record)
      modifies `pc, `trace, `effects
      ensures Valid() && old(trace) <= trace && pc == NextPc(old(pc), before.on, before.record, choice)
      ensures effects == old(effects) + Effects(old(pc), choice)
    {
      hide Effects;
      assert before.lock == Some(0) by { hide Run; RecordNamesTheService(start, trace); }
      pc := NextPc(pc, before.on, before.record, choice);
      Note(Act(0, choice), before);
    }

    /** The next action only looks. */
    ghost method Looked(choice: Choice)
      requires Valid() && !killed && (pc.ReadRecord? || pc.ReadSwitch? || pc.Policy? || pc.Running? || pc.Release?)
      modifies `pc, `trace, `effects
      ensures Valid() && old(trace) <= trace && pc == NextPc(old(pc), on, record, choice) && effects == old(effects)
    {
      hide Run, IsInitial, NextOn, NextWriter, NextRecord, NextPc, Log;
      LooksOnly(pc, on, lastWriter, record, choice);
      Took(choice, AsState());
    }

    /** _set_autoconnect; ok is false if it raises, or the process is gone. */
    method SetAutoConnect(value: bool, ghost done: Pc, ghost raised: Pc) returns (ok: bool)
      requires Valid() && !killed
      requires if value then pc == SwitchOn && done == Running(true) && raised == Running(false)
        else (exists session :: pc == SwitchOff(session) && done == ClearRecord(session) && raised == AfterRecover(session))
             || (pc == Restore && done == ClearOwned && raised == Release)
      modifies `on, `lastWriter, `killed, `clock, `pc, `trace, `effects
      ensures Valid() && old(trace) <= trace && (!killed ==> pc == if ok then done else raised)
      ensures killed == fate(old(clock)).kill && ok == (!killed && fate(old(clock)).choice == Done) && clock == old(clock) + 1
      ensures !killed && fate(old(clock)).choice != Refused ==> on == value && effects == old(effects) + [Switch(value)]
      ensures killed || fate(old(clock)).choice == Refused ==> on == Toggled(old(on), fate(old(clock))) && effects == old(effects)
    {
      hide Run, IsInitial, Log;
      var choice := Meanwhile();
      if killed {
        return false;
      }
      ghost var before := AsState();
      if choice != Refused {
        on, lastWriter := value, DaemonWrote;
      }
      ok := choice == Done;
      Took(choice, before);
    }

    /** One operation on the record file. */
    method SetRecord(value: bool)
      requires Valid() && !killed
      requires if value then pc == WriteRecord else pc == Truncate || pc.ClearRecord? || pc == ClearOwned
      modifies `on, `lastWriter, `killed, `clock, `record, `pc, `trace, `effects
      ensures Valid() && old(trace) <= trace && (!killed ==> pc == NextPc(old(pc), on, false, Done))
      ensures killed == fate(old(clock)).kill && clock == old(clock) + 1 && on == Toggled(old(on), fate(old(clock)))
      ensures !killed ==> record == value && effects == old(effects) + [Record(value)]
      ensures killed ==> record == old(record) && effects == old(effects)
    {
      hide Run, IsInitial, Log;
      var choice := Meanwhile();
      if killed {
        return;
      }
      ghost var before := AsState();
      record := value;
      Took(Done, before);
    }

    /** _mark_owned: the file is emptied, then written. */
    method MarkOwned()
      requires Valid() && !killed && pc == Truncate
      modifies `on, `lastWriter, `killed, `clock, `record, `pc, `trace, `effects
      ensures Valid() && old(trace) <= trace && (!killed ==> pc == SwitchOn)
      ensures old(clock) <= clock && killed == (fate(old(clock)).kill || fate(old(clock) + 1).kill)
      ensures Within(old(effects), effects, [Record(false), Record(true)])
      ensures !killed ==> record && effects == old(effects) + [Record(false), Record(true)] && clock == old(clock) + 2
      ensures Calm(old(clock)) ==> on == old(on)
    {
      hide Phone.Valid;
      SetRecord(false);
      if killed {
        return;
      }
      SetRecord(true);
    }

    /** _clear_owned */
    method ClearOwnership()
      requires Valid() && !killed && (pc.ClearRecord? || pc == ClearOwned)
      modifies `on, `lastWriter, `killed, `clock, `record, `pc, `trace, `effects
      ensures Valid() && old(trace) <= trace && (!killed ==> pc == if old(pc).ClearRecord? then AfterRecover(old(pc).session) else Release)
      ensures killed == fate(old(clock)).kill && clock == old(clock) + 1 && on == Toggled(old(on), fate(old(clock)))
      ensures !killed ==> !record && effects == old(effects) + [Record(false)]
      ensures killed ==> record == old(record) && effects == old(effects)
    {
      hide Phone.Valid;
      SetRecord(false);
    }

    /** _recover */
    method Recover(ghost session: bool)
      requires Valid() && !killed && pc == ReadRecord(session)
      modifies `on, `lastWriter, `killed, `clock, `record, `pc, `trace, `effects
      ensures Valid() && old(trace) <= trace && (!killed ==> pc == AfterRecover(session))
      ensures old(clock) <= clock && OnlyOff(old(effects), effects)
      ensures !killed ==> old(clock) + (if old(record) then 2 else 1) <= clock
      ensures !old(record) ==> effects == old(effects) && !record
      ensures Calm(old(clock)) ==> !killed && effects == old(effects) + Recovery(old(on), old(record))
      ensures Calm(old(clock)) ==> on == (old(on) && !old(record)) && !record
    {
      hide Phone.Valid, OnlyOff;
      OffIsOff(effects);
      var choice := Meanwhile();
      if killed {
        return;
      }
      Looked(Done);
      if !record {
        return;
      }
      choice := Meanwhile();
      if killed {
        return;
      }
      var found := on;
      Looked(choice);
      if choice != Done {
        return;
      }
      if found {
        var ok := SetAutoConnect(false, ClearRecord(session), AfterRecover(session));
        if !ok {
          return;
        }
      }
      ClearOwnership();
    }

    /**
     enable_if_needed.  Where the checks forbid it, nothing is written.  Otherwise a switch that is found off is
     recorded and switched on, unless a call fails or the process is killed.
     */
    method EnableIfNeeded(session: Session, env: Surroundings)
      requires Valid() && !killed && pc == Policy && !session.enabledByUs
      modifies `on, `lastWriter, `killed, `clock, `record, `pc, `trace, `effects, session
      ensures Valid() && old(trace) <= trace && (!killed ==> pc == Running(session.enabledByUs))
      ensures old(clock) <= clock && Within(old(effects), effects, Enabling())
      ensures !MayEnable(env) ==> effects == old(effects) && record == old(record) && !session.enabledByUs
      ensures Toggled(old(on), fate(old(clock))) || fate(old(clock)).choice != Done ==>
        effects == old(effects) && record == old(record) && !session.enabledByUs
      ensures MayEnable(env) && !Toggled(old(on), fate(old(clock))) && fate(old(clock)).choice == Done && !killed ==>
        && session.enabledByUs == (fate(old(clock) + 3).choice == Done) && record
        && effects == old(effects) + if fate(old(clock) + 3).choice == Refused then Enabling()[..2] else Enabling()
      ensures Calm(old(clock)) ==> !killed && on == (old(on) || MayEnable(env))
    {
      hide Phone.Valid;
      var choice := Meanwhile();
      if killed {
        return;
      }
      var found := on;
      var goOn := choice == Done && !env.wlan && env.service && !found && !env.roaming;
      Looked(if goOn then Done else Refused);
      if !goOn {
        return;
      }
      MarkOwned();
      if killed {
        return;
      }
      var ok := SetAutoConnect(true, Running(true), Running(false));
      session.enabledByUs := ok;
    }

    /** restore */
    method RestoreSwitch(session: Session)
      requires Valid() && !killed && pc == Running(session.enabledByUs)
      modifies `on, `lastWriter, `killed, `clock, `record, `pc, `trace, `effects, session
      ensures Valid() && old(trace) <= trace && (!killed ==> pc == Release)
      ensures Within(old(effects), effects, Restoring())
      ensures !old(session.enabledByUs) ==> effects == old(effects) && on == old(on) && record == old(record) && !killed
      ensures Calm(old(clock)) && old(session.enabledByUs) ==>
        !killed && effects == old(effects) + Restoring() && !on && !record && !session.enabledByUs
    {
      hide Phone.Valid;
      Looked(Done);
      if !session.enabledByUs {
        return;
      }
      var ok := SetAutoConnect(false, ClearOwned, Release);
      if ok {
        session.enabledByUs := false;
        ClearOwnership();
      }
    }

    /** Taking and giving back the lock; it may stay busy. */
    method Enter(free: bool, ghost session: bool)
      requires Valid() && !killed && pc == Idle
      modifies `pc, `trace, `effects
      ensures Valid() && pc == if free then ReadRecord(session) else Idle
      ensures trace == old(trace) + if free then [Start(0, session)] else []
      ensures effects == old(effects)
    {
      hide Run, IsInitial, Log, Effects;
      if free {
        ghost var before := AsState();
        pc := ReadRecord(session);
        Note(Start(0, session), before);
      }
    }

    method Exit()
      requires Valid() && !killed && pc == Release
      modifies `pc, `trace, `effects
      ensures Valid() && old(trace) <= trace && pc == Idle && effects == old(effects)
    {
      hide Phone.Valid;
      Looked(Done);
    }

    /** The session of temporarily_enabled, with the caller's action in it. */
    method WithSession(env: Surroundings)
      requires Valid() && !killed && pc == Policy
      modifies `on, `lastWriter, `killed, `clock, `record, `pc, `trace, `effects
      ensures Valid() && old(trace) <= trace && (!killed ==> pc == Release)
      ensures !MayEnable(env) ==> effects == old(effects) && record == old(record)
      ensures Calm(old(clock)) ==>
        && effects == old(effects) + (if MayEnable(env) && !old(on) then Enabling() + Restoring() else [])
        && !killed && on == old(on) && (if MayEnable(env) && !old(on) then !record else record == old(record))
    {
      hide Phone.Valid, Within;
      var session := new Session();
      EnableIfNeeded(session, env);
      if killed {
        return;
      }
      var choice := Meanwhile();
      if killed {
        return;
      }
      RestoreSwitch(session);
    }

    /**
     temporarily_enabled, with the caller's action between.  Where the checks forbid it, nothing is switched on.
     Undisturbed, mobile data is on during the action if it was the user's or the checks allow it, and afterwards
     it is what it was, except that an interrupted session's is off.
     */
    method TemporarilyEnabled(allowed: bool, free: bool, env: Surroundings)
      requires Valid() && !killed && pc == Idle
      modifies `on, `lastWriter, `killed, `clock, `record, `pc, `trace, `effects
      ensures Valid() && pc == Idle
      ensures if allowed && free then old(trace) + [Start(0, true)] <= trace else trace == old(trace)
      ensures !allowed || !free || !MayEnable(env) ==> OnlyOff(old(effects), effects)
      ensures allowed && free && Calm(old(clock)) ==>
        && effects == old(effects) + Recovery(old(on), old(record))
             + (if MayEnable(env) && (!old(on) || old(record)) then Enabling() + Restoring() else [])
        && !killed && on == (old(on) && !old(record)) && !record
    {
      hide Phone.Valid, OnlyOff, Within;
      OffIsOff(effects);
      if !allowed || !free {
        return;
      }
      Enter(free, true);
      Recover(true);
      if killed {
        KilledIsIdle();
        return;
      }
      WithSession(env);
      if killed {
        KilledIsIdle();
        return;
      }
      Exit();
    }

    /** recover_interrupted */
    method RecoverInterrupted(free: bool)
      requires Valid() && !killed && pc == Idle
      modifies `on, `lastWriter, `killed, `clock, `record, `pc, `trace, `effects
      ensures Valid() && pc == Idle
      ensures if free then old(trace) + [Start(0, false)] <= trace else trace == old(trace)
      ensures OnlyOff(old(effects), effects)
      ensures free && Calm(old(clock)) ==>
        && effects == old(effects) + Recovery(old(on), old(record))
        && !killed && on == (old(on) && !old(record)) && !record
    {
      hide Phone.Valid, OnlyOff, Within;
      OffIsOff(effects);
      if !free {
        return;
      }
      Enter(free, false);
      Recover(false);
      if killed {
        KilledIsIdle();
        return;
      }
      Exit();
    }
  }
}
