/**
 The spool of privileged requests (queue in daemon-rpm/src/priv_client.py; main and _process in
 daemon-rpm/src/priv_service.py).  Clients work while the service runs; a run of the service may be killed
 between any two of its operations, and clients may stop anywhere.  A request's file name is its number.
 */
module PrivSpool {
  datatype Extension = Tmp | Json | Work

  type Name = (nat, Extension)

  /** A file under construction, or one that holds the whole request. */
  datatype Content = Partial | Whole(request: string)

  /** A step of a client inside queue(); a client that is killed simply takes no further step. */
  datatype ClientStep = Create(request: string) | WriteRequest(id: nat) | Publish(id: nat) | Discard(id: nat)

  /** What happens before an operation of the service: client steps, perhaps its end; and whether the operation works. */
  datatype Moment = Moment(steps: seq<ClientStep>, kill: bool, works: bool)

  // ---- the spool as values -------------------------------------------------------------------

  /** A published or claimed file holds its whole request. */
  ghost predicate AreWhole(files: map<Name, Content>, requests: seq<string>) {
    forall n: Name :: n in files ==> IsWhole(n, files[n], requests)
  }

  ghost predicate IsWhole(n: Name, content: Content, requests: seq<string>) {
    n.0 < |requests| && (content == Whole(requests[n.0]) || (n.1 == Tmp && content == Partial))
  }

  /** What was read for each action is the request that was queued. */
  ghost predicate AreRead(started: seq<nat>, read: seq<string>, requests: seq<string>) {
    |read| == |started| && forall i :: 0 <= i < |started| ==> started[i] < |requests| && read[i] == requests[started[i]]
  }

  /** A request is in one of its files. */
  ghost predicate InOnePlace(files: map<Name, Content>) {
    forall id, e, f :: (id, e) in files && (id, f) in files ==> e == f
  }

  /** No request is started twice, and one that is started cannot be listed again, but for those that could not be claimed. */
  ghost predicate StartedOnce(files: map<Name, Content>, started: seq<nat>, unclaimed: set<nat>) {
    && NoRepeatsBut(started, unclaimed)
    && forall id :: id in started && id !in unclaimed ==> (id, Json) !in files && (id, Tmp) !in files
  }

  ghost predicate NoRepeatsBut(s: seq<nat>, but: set<nat>) {
    forall i, j :: 0 <= i < j < |s| && s[i] == s[j] ==> s[i] in but
  }

  /** The listed requests that the checks accept, in order; each takes three operations from a time on. */
  function Accepted(ids: seq<nat>, fate: nat -> Moment, from: nat): (r: seq<nat>)
    ensures (forall t :: fate(t).works) ==> r == ids
  {
    if ids == [] then []
    else
      var last := |ids| - 1;
      Accepted(ids[..last], fate, from) + if fate(from + 3 * last + 1).works then [ids[last]] else []
  }

  lemma {:induction false} AcceptedMore(ids: seq<nat>, k: nat, fate: nat -> Moment, from: nat)
    requires k < |ids|
    ensures Accepted(ids[..k + 1], fate, from) ==
      Accepted(ids[..k], fate, from) + if fate(from + 3 * k + 1).works then [ids[k]] else []
  {
    assert ids[..k + 1][..k] == ids[..k];
  }

  lemma {:induction false} NoneAccepted(fate: nat -> Moment)
    ensures forall from :: Accepted([], fate, from) == []
  {}

  /** The requests that clients begin to queue. */
  function Created(steps: seq<ClientStep>): seq<string> {
    if steps == [] then []
    else
      var last := |steps| - 1;
      Created(steps[..last]) + if steps[last].Create? then [steps[last].request] else []
  }

  predicate IsIncreasing(s: seq<nat>) {
    forall i, j :: 0 <= i < j < |s| ==> s[i] < s[j]
  }

  class Spool {
    var files: map<Name, Content>
    /** The requests ever queued, by number. */
    var requests: seq<string>
    /** The actions started, in order, with what was read. */
    var started: seq<nat>
    var read: seq<string>
    var killed: bool
    const fate: nat -> Moment
    var clock: nat
    /** The requests for which a claiming rename has failed. */
    ghost var unclaimed: set<nat>

    ghost predicate Valid()
      reads this
    {
      && AreWhole(files, requests) && InOnePlace(files)
      && StartedOnce(files, started, unclaimed)
      && AreRead(started, read, requests)
    }

    ghost predicate OperationsWork() {
      forall t :: fate(t).works
    }

    ghost predicate NeverKilled() {
      forall t :: !fate(t).kill
    }

    /** A request that cannot be listed any more. */
    ghost predicate IsPast(id: nat)
      reads this
    {
      id < |requests| && (id, Json) !in files && (id, Tmp) !in files
    }

    constructor (fate: nat -> Moment)
      ensures Valid() && started == [] && unclaimed == {}
    {
      files, requests, started, read, killed, this.fate, clock := map[], [], [], [], false, fate, 0;
      unclaimed := {};
    }

    /** One step of queue(): mkstemp, write and close, rename, or remove after an error. */
    method ClientTakesStep(step: ClientStep)
      requires Valid()
      modifies `files, `requests
      ensures Valid() && old(requests) <= requests
      ensures forall id :: (id, Json) in old(files) ==> (id, Json) in files
      ensures forall id :: (id, Work) in files <==> (id, Work) in old(files)
      ensures forall id :: old(IsPast(id)) ==> IsPast(id)
      ensures step.Create? ==> requests == old(requests) + [step.request] && (|old(requests)|, Tmp) in files
      ensures !step.Create? ==> requests == old(requests)
      ensures step.WriteRequest? && (step.id, Tmp) in old(files) ==>
        (step.id, Tmp) in files && files[(step.id, Tmp)] == Whole(requests[step.id])
      ensures step.Publish? && (step.id, Tmp) in old(files) && old(files)[(step.id, Tmp)].Whole? ==>
        (step.id, Json) in files && files[(step.id, Json)] == old(files)[(step.id, Tmp)]
      ensures step.Discard? ==> (step.id, Tmp) !in files
    {
      match step
      case Create(request) =>
        files := files[(|requests|, Tmp) := Partial];
        requests := requests + [request];
      case WriteRequest(id) =>
        if (id, Tmp) in files {
          files := files[(id, Tmp) := Whole(requests[id])];
        }
      case Publish(id) =>
        if (id, Tmp) in files && files[(id, Tmp)].Whole? {
          files := files[(id, Json) := files[(id, Tmp)]] - {(id, Tmp)};
        }
      case Discard(id) =>
        files := files - {(id, Tmp)};
    }

    /** Time passes before an operation of the service. */
    method Meanwhile() returns (works: bool)
      requires Valid()
      modifies `files, `requests, `killed, `clock
      ensures Valid() && requests == old(requests) + Created(fate(old(clock)).steps) && clock == old(clock) + 1
      ensures works == fate(old(clock)).works && killed == (old(killed) || fate(old(clock)).kill)
      ensures forall id :: (id, Json) in old(files) ==> (id, Json) in files
      ensures forall id :: (id, Work) in files <==> (id, Work) in old(files)
      ensures forall id :: old(IsPast(id)) ==> IsPast(id)
    {
      var m := fate(clock);
      clock := clock + 1;
      for k := 0 to |m.steps|
        invariant Valid() && requests == old(requests) + Created(m.steps[..k]) && killed == old(killed) && clock == old(clock) + 1
        invariant forall id :: (id, Json) in old(files) ==> (id, Json) in files
        invariant forall id :: (id, Work) in files <==> (id, Work) in old(files)
        invariant forall id :: old(IsPast(id)) ==> IsPast(id)
      {
        assert m.steps[..k + 1][..k] == m.steps[..k];
        ClientTakesStep(m.steps[k]);
      }
      assert m.steps[..|m.steps|] == m.steps;
      killed := killed || m.kill;
      works := m.works;
    }

    /** The entries with an extension, sorted. */
    method Listing(ext: Extension) returns (ids: seq<nat>)
      requires Valid()
      ensures forall id: nat :: id in ids <==> (id, ext) in files
      ensures IsIncreasing(ids)
    {
      ids := [];
      for id := 0 to |requests|
        invariant forall i: nat :: i in ids <==> i < id && (i, ext) in files
        invariant IsIncreasing(ids) && forall k :: 0 <= k < |ids| ==> ids[k] < id
      {
        if (id, ext) in files {
          ids := ids + [id];
        }
      }
      forall id: nat ensures (id, ext) in files ==> id < |requests| {
        assert (id, ext) in files ==> IsWhole((id, ext), files[(id, ext)], requests);
      }
    }

    /** Remove a file; it may fail. */
    method Remove(id: nat, ext: Extension)
      requires Valid()
      modifies `files, `requests, `killed, `clock
      ensures Valid() && killed == (old(killed) || fate(old(clock)).kill) && clock == old(clock) + 1
      ensures !killed && fate(old(clock)).works ==> (id, ext) !in files
      ensures (killed || !fate(old(clock)).works) && ext != Tmp && (id, ext) in old(files) ==> (id, ext) in files
      ensures forall i :: (i, Json) in old(files) && (ext != Json || i != id) ==> (i, Json) in files
      ensures forall i :: (i, Work) in files ==> (i, Work) in old(files)
      ensures forall i :: old(IsPast(i)) ==> IsPast(i)
    {
      var works := Meanwhile();
      if !killed && works {
        files := files - {(id, ext)};
      }
    }

    /**
     Claim a request: rename its .json to .work; where that fails the service goes on with the .json.
     */
    method Claim(id: nat) returns (ext: Extension)
      requires Valid() && (id, Json) in files
      modifies `files, `requests, `killed, `clock, `unclaimed
      ensures Valid() && killed == (old(killed) || fate(old(clock)).kill) && clock == old(clock) + 1
      ensures ext == Work || ext == Json
      ensures !killed ==> (id, ext) in files && (ext == Work ==> IsPast(id))
      ensures !killed ==> (ext == Work <==> fate(old(clock)).works)
      ensures unclaimed == old(unclaimed) + if !killed && ext == Json then {id} else {}
      ensures !killed && id !in unclaimed ==> ext == Work && id !in started
      ensures forall i :: i != id && (i, Json) in old(files) ==> (i, Json) in files
      ensures forall i :: i != id && (i, Work) in files ==> (i, Work) in old(files)
      ensures forall i :: old(IsPast(i)) ==> IsPast(i)
    {
      var works := Meanwhile();
      ext := Json;
      if killed {
        return;
      }
      assert IsWhole((id, Json), files[(id, Json)], requests);
      if works {
        ext := Work;
        files := files[(id, Work) := files[(id, Json)]] - {(id, Json)};
      } else {
        unclaimed := unclaimed + {id};
      }
    }

    /** _process: read the claimed file and start its action, unless the checks refuse it. */
    method Process(id: nat, ext: Extension)
      requires Valid() && (id, ext) in files && ext != Tmp
      requires id !in unclaimed ==> ext == Work && id !in started && (id, Json) !in files
      modifies `files, `requests, `killed, `clock, `started, `read
      ensures Valid() && killed == (old(killed) || fate(old(clock)).kill) && clock == old(clock) + 1
      ensures started == old(started) + if !killed && fate(old(clock)).works then [id] else []
      ensures forall i :: (i, Json) in old(files) ==> (i, Json) in files
      ensures forall i :: (i, Work) in files ==> (i, Work) in old(files)
      ensures forall i :: old(IsPast(i)) ==> IsPast(i)
    {
      var accepted := Meanwhile();
      if killed || !accepted || (id, ext) !in files {
        return;
      }
      assert IsWhole((id, ext), files[(id, ext)], requests);
      read := read + [files[(id, ext)].request];
      started := started + [id];
    }

    /** Leftovers of an interrupted run are dropped, not repeated. */
    method RemoveStale()
      requires Valid() && !killed
      modifies `files, `requests, `killed, `clock
      ensures Valid() && (NeverKilled() ==> !killed)
      ensures forall i :: (i, Json) in old(files) ==> (i, Json) in files
      ensures !killed && OperationsWork() ==> forall i :: (i, Work) !in files
    {
      var stale := Listing(Work);
      for k := 0 to |stale|
        invariant Valid() && !killed
        invariant forall i :: (i, Json) in old(files) ==> (i, Json) in files
        invariant forall i :: (i, Work) in files ==> i in stale
        invariant OperationsWork() ==> forall i :: 0 <= i < k ==> (stale[i], Work) !in files
      {
        Remove(stale[k], Work);
        if killed {
          return;
        }
      }
    }

    /** One entry of the listing: claim, process, and always remove. */
    method Handle(id: nat) returns (ghost processed: bool)
      requires Valid() && (id, Json) in files && !killed
      modifies `files, `requests, `killed, `clock, `unclaimed, `started, `read
      ensures Valid() && old(unclaimed) <= unclaimed && (OperationsWork() ==> unclaimed == old(unclaimed))
      ensures started == old(started) + if processed && fate(old(clock) + 1).works then [id] else []
      ensures !killed ==> processed && clock == old(clock) + 3
      ensures NeverKilled() ==> !killed
      ensures forall i :: i != id && (i, Json) in old(files) ==> (i, Json) in files
      ensures forall i :: old(IsPast(i)) ==> IsPast(i)
      ensures unclaimed <= old(unclaimed) + {id}
      ensures !killed && id !in unclaimed ==> IsPast(id)
      ensures !killed && OperationsWork() ==> forall i :: (i, Work) in files ==> (i, Work) in old(files) && i != id
    {
      processed := false;
      var ext := Claim(id);
      if killed {
        return;
      }
      Process(id, ext);
      if killed {
        return;
      }
      processed := true;
      Remove(id, ext);
    }

    /**
     main.  It ends by itself or is killed; in the first case the action of every listed request that the checks
     accept has been started, in the order of the listing, and none of the .json files it listed is left (or can
     come back), but for requests whose claiming rename failed.  A killed run has done so for the first entries.
     */
    method ServiceRun() returns (listed: seq<nat>, ghost from: nat, ghost done: nat)
      requires Valid() && !killed
      modifies `files, `requests, `killed, `clock, `unclaimed, `started, `read
      ensures Valid() && old(unclaimed) <= unclaimed && (OperationsWork() ==> unclaimed == old(unclaimed))
      ensures !killed ==> forall k :: 0 <= k < |listed| && listed[k] !in unclaimed ==> IsPast(listed[k])
      ensures IsIncreasing(listed) && (!killed ==> forall id :: (id, Json) in old(files) ==> id in listed)
      ensures done <= |listed| && started == old(started) + Accepted(listed[..done], fate, from)
      ensures !killed ==> started == old(started) + Accepted(listed, fate, from)
      ensures !killed ==> clock == from + 3 * |listed|
      ensures !killed && OperationsWork() ==> started == old(started) + listed && forall i :: (i, Work) !in files
      ensures NeverKilled() ==> !killed
    {
      hide Spool.Valid, Accepted;
      listed, from, done := [], 0, 0;
      NoneAccepted(fate);
      RemoveStale();
      if killed {
        return;
      }
      listed := Listing(Json);
      from := clock;
      for k := 0 to |listed|
        invariant Valid() && !killed && old(unclaimed) <= unclaimed && (OperationsWork() ==> unclaimed == old(unclaimed))
        invariant forall i :: k <= i < |listed| ==> (listed[i], Json) in files
        invariant forall i :: 0 <= i < k && listed[i] !in unclaimed ==> IsPast(listed[i])
        invariant done == k && clock == from + 3 * k
        invariant OperationsWork() ==> forall i :: (i, Work) !in files
        invariant started == old(started) + Accepted(listed[..k], fate, from)
      {
        AcceptedMore(listed, k, fate, from);
        ghost var processed := Handle(listed[k]);
        if processed {
          done := k + 1;
        }
        if killed {
          return;
        }
      }
      assert listed[..|listed|] == listed;
    }

    /**
     Any number of runs, each possibly killed: a request whose claiming renames never fail is started at most once.
     Without a kill or a failure the first run starts every request that had been published.
     */
    method Runs(n: nat)
      requires Valid()
      modifies `files, `requests, `killed, `clock, `unclaimed, `started, `read
      ensures Valid() && (OperationsWork() ==> unclaimed == old(unclaimed))
      ensures forall i, j :: 0 <= i < j < |started| && started[i] == started[j] ==> started[i] in unclaimed
      ensures forall i :: 0 <= i < |started| ==> started[i] < |requests| && read[i] == requests[started[i]]
      ensures old(started) <= started
      ensures n > 0 && NeverKilled() && OperationsWork() ==> forall id :: (id, Json) in old(files) ==> id in started
    {
      for k := 0 to n
        invariant Valid() && (OperationsWork() ==> unclaimed == old(unclaimed))
        invariant k == 0 ==> files == old(files)
        invariant old(started) <= started
        invariant k > 0 && NeverKilled() && OperationsWork() ==> forall id :: (id, Json) in old(files) ==> id in started
      {
        killed := false;
        ghost var from, done;
        var listed;
        listed, from, done := ServiceRun();
      }
    }
  }
}
