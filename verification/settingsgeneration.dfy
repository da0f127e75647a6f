/**
 The "applied settings" handshake between the UI and the daemons (generation, bump_generation,
 write_heartbeat, _status_from, daemon_status and daemon_snapshot, qml/utilities/fmd/runtime.py; save_settings
 and _apply_settings_side_effects, qml/utilities/api.py; the loops of daemon_gps.py and daemon_cmd.py).  Each
 method of Store is one transaction; any sequence of calls is an interleaving of saves and daemon cycles.
 */
module SettingsGeneration {
  import opened Wrappers

  // ---- the status ----------------------------------------------------------------------------

  datatype Status = Running | Deactivated | Applying | Stopped

  const HEARTBEAT_FRESH_S := 90

  /** A heartbeat as the UI reads it; cycle is the daemon cycle that reported the applied generation. */
  datatype Heartbeat = Heartbeat(age: Option<nat>, active: bool, applied: Option<nat>, cycle: nat)

  /** _status_from */
  function StatusFrom(hb: Heartbeat, generation: nat): (r: Status)
    ensures r.Running? || r.Deactivated? ==>
      hb.age.Some? && hb.age.value <= HEARTBEAT_FRESH_S && (hb.applied.Some? ==> hb.applied.value == generation)
    ensures r.Running? ==> hb.active
    ensures r.Deactivated? ==> !hb.active
    ensures r.Applying? <==> !r.Stopped? && hb.applied.Some? && hb.applied.value != generation
    ensures r.Stopped? <==> hb.age.None? || hb.age.value > HEARTBEAT_FRESH_S
  {
    if hb.age.None? || hb.age.value > HEARTBEAT_FRESH_S then Stopped
    else if hb.applied.Some? && hb.applied.value != generation then Applying
    else if hb.active then Running else Deactivated
  }

  // ---- the tables ----------------------------------------------------------------------------

  /** One pass through a daemon's loop: the generation it read first, and the saves behind the settings it has read since. */
  datatype Cycle = Cycle(gen: nat, seen: seq<nat>)

  /** A daemon: its current cycle, and what its heartbeat thread stamps. */
  datatype Daemon = Daemon(cycle: Option<nat>, active: bool, stamp: Option<nat>)

  datatype Event =
    | Save
    | BumpRead(save: nat)
    | BumpWrite
    | StartCycle(d: nat)
    | ReadSetting(d: nat)
    | Report(d: nat, active: bool)
    | ReportError(d: nat, active: bool)
    | Restamp(d: nat)

  class Store {
    /** Saves written so far: the settings table holds what save number `saves` left. */
    var saves: nat
    /** The generation, and for each generation the save whose bump produced it; 0 has none. */
    var gen: nat
    ghost var producer: seq<nat>
    /** A bump that has read the generation; _settings_apply_lock lets one in at a time. */
    var bumping: Option<(nat, nat)>
    var cycles: seq<Cycle>
    var daemons: seq<Daemon>
    /** The heartbeat rows. */
    var rows: seq<Heartbeat>
    /** The events of interleavings so far. */
    ghost var history: seq<Event>

    /** The settings are at least as new as the save behind every generation, and a cycle's reads as the one behind its own. */
    ghost predicate Valid()
      reads this
    {
      && |producer| == gen + 1
      && (forall g :: 0 <= g <= gen ==> producer[g] <= saves)
      && (bumping.Some? ==> bumping.value.0 <= saves && bumping.value.1 == gen)
      && (forall c :: 0 <= c < |cycles| ==> IsUpToDate(cycles[c], producer, saves))
      && |rows| == |daemons|
      && (forall d :: 0 <= d < |daemons| ==>
            && (daemons[d].cycle.Some? ==> daemons[d].cycle.value < |cycles|)
            && (daemons[d].stamp.Some? ==> daemons[d].stamp.value < |cycles|)
            && (rows[d].applied.Some? ==> rows[d].cycle < |cycles| && rows[d].applied == Some(cycles[rows[d].cycle].gen)))
    }

    constructor (n: nat)
      ensures Valid() && |daemons| == n
    {
      saves, gen, producer, bumping, cycles := 0, 0, [0], None, [];
      daemons := seq(n, _ => Daemon(None, false, None));
      rows := seq(n, _ => Heartbeat(None, false, None, 0));
      history := [];
    }

    /** save_settings: the settings in one transaction; the bump follows in a thread of its own. */
    method SaveSettings() returns (save: nat)
      requires Valid()
      modifies `saves
      ensures Valid() && save == saves == old(saves) + 1
    {
      saves := saves + 1;
      save := saves;
    }

    /** bump_generation, first half: read the counter. */
    method BeginBump(save: nat)
      requires Valid() && save <= saves && bumping.None?
      modifies `bumping
      ensures Valid() && bumping == Some((save, gen))
    {
      bumping := Some((save, gen));
    }

    /** bump_generation, second half: write it. */
    method EndBump()
      requires Valid() && bumping.Some?
      modifies `gen, `producer, `bumping
      ensures Valid() && gen == old(gen) + 1 && bumping.None?
      ensures producer == old(producer) + [old(bumping).value.0]
    {
      producer := producer + [bumping.value.0];
      gen := bumping.value.1 + 1;
      bumping := None;
      assert forall c :: 0 <= c < |cycles| ==> IsUpToDate(cycles[c], old(producer), saves);
    }

    /** The top of a daemon's loop: read the generation before any setting. */
    method BeginCycle(d: nat)
      requires Valid() && d < |daemons|
      modifies `cycles, `daemons
      ensures Valid() && cycles == old(cycles) + [Cycle(gen, [])]
      ensures daemons == old(daemons)[d := old(daemons)[d].(cycle := Some(|old(cycles)|))]
    {
      cycles := cycles + [Cycle(gen, [])];
      daemons := daemons[d := daemons[d].(cycle := Some(|cycles| - 1))];
    }

    /** The cycle reads a setting. */
    method Read(d: nat)
      requires Valid() && d < |daemons| && daemons[d].cycle.Some?
      modifies `cycles
      ensures Valid() && |cycles| == |old(cycles)|
      ensures forall c :: 0 <= c < |cycles| ==> cycles[c].gen == old(cycles)[c].gen
      ensures var c := daemons[d].cycle.value; cycles[c].seen == old(cycles)[c].seen + [saves]
      ensures forall c :: 0 <= c < |cycles| && Some(c) != daemons[d].cycle ==> cycles[c] == old(cycles)[c]
    {
      var c := daemons[d].cycle.value;
      cycles := cycles[c := cycles[c].(seen := cycles[c].seen + [saves])];
    }

    /** write_heartbeat with the generation of the cycle; the heartbeat thread keeps stamping it. */
    method Beat(d: nat, active: bool)
      requires Valid() && d < |daemons| && daemons[d].cycle.Some?
      modifies `rows, `daemons
      ensures Valid() && |daemons| == |old(daemons)|
      ensures rows[d].active == active && rows[d].cycle < |cycles| && rows[d].applied == Some(cycles[rows[d].cycle].gen)
      ensures Some(rows[d].cycle) == daemons[d].cycle == old(daemons)[d].cycle
      ensures rows[d].age == Some(0) && rows == old(rows)[d := rows[d]] && daemons == old(daemons)[d := daemons[d]]
      ensures daemons[d].stamp == daemons[d].cycle && daemons[d].active == active
    {
      var c := daemons[d].cycle.value;
      daemons := daemons[d := daemons[d].(active := active, stamp := Some(c))];
      rows := rows[d := Heartbeat(Some(0), active, Some(cycles[c].gen), c)];
    }

    /** write_heartbeat without a generation (error paths): the applied one is left as it is. */
    method BeatWithoutGeneration(d: nat, active: bool)
      requires Valid() && d < |daemons|
      modifies `rows
      ensures Valid() && rows == old(rows)[d := old(rows)[d].(age := Some(0), active := active)]
    {
      rows := rows[d := rows[d].(age := Some(0), active := active)];
    }

    /** The heartbeat thread writes again what the loop recorded last. */
    method RestampBeat(d: nat)
      requires Valid() && d < |daemons|
      modifies `rows
      ensures Valid() && rows == old(rows)[d := rows[d]] && rows[d].age == Some(0) && rows[d].active == daemons[d].active
      ensures daemons[d].stamp.Some? ==>
        Some(rows[d].cycle) == daemons[d].stamp && rows[d].applied == Some(cycles[rows[d].cycle].gen)
      ensures daemons[d].stamp.None? ==> rows[d].applied == old(rows)[d].applied && rows[d].cycle == old(rows)[d].cycle
    {
      if daemons[d].stamp.Some? {
        var c := daemons[d].stamp.value;
        rows := rows[d := Heartbeat(Some(0), daemons[d].active, Some(cycles[c].gen), c)];
      } else {
        BeatWithoutGeneration(d, daemons[d].active);
      }
    }

    /** One event; one that cannot happen at its place is skipped. */
    method Step(e: Event)
      requires Valid()
      modifies this
      ensures Valid() && |daemons| == |old(daemons)| && history == old(history) + [e]
      ensures saves == old(saves) + if e.Save? then 1 else 0
      ensures e.BumpRead? && e.save <= saves && old(bumping).None? ==> bumping == Some((e.save, gen))
      ensures !e.BumpRead? && !e.BumpWrite? ==> bumping == old(bumping)
      ensures gen == old(gen) + if e.BumpWrite? && old(bumping).Some? then 1 else 0
      ensures e.BumpWrite? && old(bumping).Some? ==> bumping.None? && producer == old(producer) + [old(bumping).value.0]
      ensures !e.BumpWrite? ==> producer == old(producer)
      ensures cycles == old(cycles) + (if e.StartCycle? && e.d < |daemons| then [Cycle(gen, [])] else []) || e.ReadSetting?
      ensures |old(cycles)| <= |cycles| && forall c :: 0 <= c < |old(cycles)| ==> cycles[c].gen == old(cycles)[c].gen
      ensures e.StartCycle? && e.d < |daemons| ==> daemons[e.d].cycle == Some(|old(cycles)|)
      ensures e.ReadSetting? && e.d < |daemons| && old(daemons)[e.d].cycle.Some? ==>
        var c := old(daemons)[e.d].cycle.value; c < |old(cycles)| && cycles[c].seen == old(cycles)[c].seen + [saves]
      ensures e.Report? && e.d < |daemons| && daemons[e.d].cycle.Some? ==>
        Some(rows[e.d].cycle) == daemons[e.d].cycle && rows[e.d].active == e.active && rows[e.d].age == Some(0)
      ensures e.ReportError? && e.d < |daemons| ==> rows == old(rows)[e.d := old(rows)[e.d].(age := Some(0), active := e.active)]
      ensures e.Restamp? && e.d < |daemons| ==> rows[e.d].age == Some(0) && rows[e.d].active == daemons[e.d].active
    {
      hide IsUpToDate;
      history := history + [e];
      match e
      case Save => var save := SaveSettings();
      case BumpRead(save) => if save <= saves && bumping.None? { BeginBump(save); }
      case BumpWrite => if bumping.Some? { EndBump(); }
      case StartCycle(d) => if d < |daemons| { BeginCycle(d); }
      case ReadSetting(d) => if d < |daemons| && daemons[d].cycle.Some? { Read(d); }
      case Report(d, active) => if d < |daemons| && daemons[d].cycle.Some? { Beat(d, active); }
      case ReportError(d, active) => if d < |daemons| { BeatWithoutGeneration(d, active); }
      case Restamp(d) => if d < |daemons| { RestampBeat(d); }
    }

    /** Any interleaving. */
    method Interleave(events: seq<Event>)
      requires Valid()
      modifies this
      ensures Valid() && |daemons| == |old(daemons)| && |old(cycles)| <= |cycles|
      ensures forall c :: 0 <= c < |old(cycles)| ==> cycles[c].gen == old(cycles)[c].gen
      ensures history == old(history) + events
    {
      for k := 0 to |events|
        invariant Valid() && |daemons| == |old(daemons)| && |old(cycles)| <= |cycles|
        invariant forall c :: 0 <= c < |old(cycles)| ==> cycles[c].gen == old(cycles)[c].gen
        invariant history == old(history) + events[..k]
      {
        Step(events[k]);
      }
    }

    /** The promise of a status: what the reporting cycle has read is as new as the save behind the generation. */
    ghost predicate Promises(status: Status, hb: Heartbeat, generation: nat)
      reads this
    {
      status.Running? || status.Deactivated? ==>
        hb.applied.Some? ==>
          && hb.cycle < |cycles| && generation < |producer|
          && forall k :: 0 <= k < |cycles[hb.cycle].seen| ==> producer[generation] <= cycles[hb.cycle].seen[k]
    }

    /** daemon_snapshot: heartbeat and generation in one transaction. */
    method DaemonSnapshot(d: nat, age: Option<nat>) returns (status: Status)
      requires Valid() && d < |daemons|
      ensures Promises(status, rows[d].(age := age), gen) && status == StatusFrom(rows[d].(age := age), gen)
    {
      status := StatusFrom(rows[d].(age := age), gen);
      if rows[d].applied.Some? {
        assert IsUpToDate(cycles[rows[d].cycle], producer, saves);
      }
    }

    /** daemon_status: the heartbeat, and later, after anything else, the generation. */
    method DaemonStatus(d: nat, age: Option<nat>, meanwhile: seq<Event>) returns (status: Status, ghost hb: Heartbeat)
      requires Valid() && d < |daemons|
      modifies this
      ensures Valid() && hb == old(rows)[d].(age := age) && Promises(status, hb, gen)
      ensures status == StatusFrom(hb, gen) && history == old(history) + meanwhile
    {
      var read := rows[d].(age := age);
      hb := read;
      Interleave(meanwhile);
      status := StatusFrom(read, gen);
      if hb.applied.Some? {
        assert IsUpToDate(cycles[hb.cycle], producer, saves);
      }
    }
  }

  /** A cycle has read nothing older than the save behind the generation it started from. */
  ghost predicate IsUpToDate(c: Cycle, producer: seq<nat>, saves: nat) {
    && c.gen < |producer|
    && forall k :: 0 <= k < |c.seen| ==> producer[c.gen] <= c.seen[k] <= saves
  }
}
