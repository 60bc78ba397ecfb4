/** Run, checkpoint and worker records in the key-value store, with the cached
    state machines that guard the run state. */
module Coordinator {
  import opened Sequences
  import opened RunStates

  datatype RunStatus = RunStatus(state: RunState, currentStep: int, updatedAt: int, numWorkers: nat,
                                 lastCheckpoint: Option<string>, error: Option<string>)

  datatype CheckpointState = PENDING | IN_PROGRESS | COMMITTED | FAILED

  datatype Checkpoint = Checkpoint(runId: string, step: int, state: CheckpointState, numShards: nat, totalBytes: nat,
                                   shardIds: seq<string>)

  datatype WorkerStatus = ACTIVE | DEAD | SUPERSEDED | DEREGISTERED

  datatype Worker = Worker(runId: string, rank: int, status: WorkerStatus, lastHeartbeat: int, currentStep: int)

  datatype Change = Done | NotFound | Rejected

  /** The states persisted for a run are a path in the transition table that
      ends in the current one. */
  ghost predicate Traced(runs: map<string, RunStatus>, persisted: map<string, seq<RunState>>)
  {
    && persisted.Keys == runs.Keys
    && forall r {:trigger LeadsTo(persisted[r], runs[r].state)} :: r in runs ==> LeadsTo(persisted[r], runs[r].state)
  }

  ghost predicate LeadsTo(trail: seq<RunState>, state: RunState)
  {
    Path(trail) && trail[|trail| - 1] == state
  }

  lemma TracedNext(runs: map<string, RunStatus>, persisted: map<string, seq<RunState>>, run: string, next: RunStatus)
    requires Traced(runs, persisted) && run in runs && next.state in Allowed(runs[run].state)
    ensures Traced(runs[run := next], persisted[run := persisted[run] + [next.state]])
  {
    assert LeadsTo(persisted[run], runs[run].state);
    PathExtends(persisted[run], next.state);
    var runs', persisted' := runs[run := next], persisted[run := persisted[run] + [next.state]];
    forall r | r in runs' ensures LeadsTo(persisted'[r], runs'[r].state) {
      if r != run { assert LeadsTo(persisted[r], runs[r].state); }
    }
  }

  function Updated(cp: Checkpoint, state: CheckpointState, details: Option<(nat, nat, seq<string>)>): Checkpoint
  {
    if details.None? then cp.(state := state)
    else cp.(state := state, numShards := details.value.0, totalBytes := details.value.1, shardIds := details.value.2)
  }

  class Coordinator {
    var runs: map<string, RunStatus>
    var checkpoints: map<string, Checkpoint>
    var workers: map<string, Worker>
    var machines: map<string, RunStateMachine>
    /** Every state ever persisted for a run, first to current. */
    ghost var persisted: map<string, seq<RunState>>
    /** The machines this coordinator has created. */
    ghost var owned: set<RunStateMachine>

    /** Each cached machine is in the persisted state, no two runs share one,
        and what was persisted for a run is a path in the transition table. */
    ghost predicate Valid()
      reads this`runs, this`machines, this`persisted, this`owned, owned
    {
      CacheAgrees() && Traced(runs, persisted)
    }

    ghost predicate CacheAgrees()
      reads this`runs, this`machines, this`owned, owned
    {
      && (forall r :: r in machines ==> r in runs && machines[r] in owned && machines[r].state == runs[r].state)
      && (forall r, r' :: r in machines && r' in machines && machines[r] == machines[r'] ==> r == r')
    }

    constructor ()
      ensures Valid() && owned == {} && runs == map[] && checkpoints == map[] && workers == map[] && machines == map[] && persisted == map[]
    {
      runs, checkpoints, workers, machines, persisted, owned := map[], map[], map[], map[], map[], {};
    }

    /** A control-plane restart keeps the store and loses the cache. */
    method Restart()
      requires Valid()
      modifies this`machines
      ensures Valid() && machines == map[]
    {
      machines := map[];
    }

    method CreateRun(id: string, numWorkers: nat, now: int)
      requires Valid() && id !in runs
      modifies this`runs, this`machines, this`persisted, this`owned
      ensures Valid() && fresh(owned - old(owned))
      ensures runs == old(runs)[id := RunStatus(CREATED, 0, now, numWorkers, None, None)]
      ensures persisted == old(persisted)[id := [CREATED]]
    {
      var machine := new RunStateMachine(CREATED);
      machines, owned := machines[id := machine], owned + {machine};
      runs := runs[id := RunStatus(CREATED, 0, now, numWorkers, None, None)];
      persisted := persisted[id := [CREATED]];
    }

    /** The cached machine decides; by validity that is the persisted state's
        table entry. A refused transition changes nothing. */
    method TransitionRun(run: string, target: RunState, now: int) returns (r: Change)
      requires Valid()
      modifies this`runs, this`machines, this`persisted, this`owned, owned`state, owned`history
      ensures Valid() && fresh(owned - old(owned))
      ensures r == if run !in old(runs) then NotFound
                   else if target in Allowed(old(runs)[run].state) then Done else Rejected
      ensures r.Done? ==> runs == old(runs)[run := old(runs)[run].(state := target, updatedAt := now)]
                          && persisted == old(persisted)[run := old(persisted)[run] + [target]]
      ensures !r.Done? ==> runs == old(runs) && persisted == old(persisted)
    {
      if run !in runs { return NotFound; }
      var machine := EnsureMachine(run);
      var ok := machine.Transition(target);
      if !ok { return Rejected; }
      TracedNext(runs, persisted, run, runs[run].(state := target, updatedAt := now));
      runs := runs[run := runs[run].(state := target, updatedAt := now)];
      persisted := persisted[run := persisted[run] + [target]];
      r := Done;
    }

    method EnsureMachine(run: string) returns (machine: RunStateMachine)
      requires Valid() && run in runs
      modifies this`machines, this`owned
      ensures Valid() && run in machines && machine == machines[run]
      ensures fresh(owned - old(owned))
    {
      if run !in machines {
        machine := new RunStateMachine(runs[run].state);
        machines, owned := machines[run := machine], owned + {machine};
      }
      machine := machines[run];
    }

    method UpdateRunStep(run: string, step: int, now: int) returns (r: Change)
      requires Valid()
      modifies this`runs
      ensures Valid()
      ensures r == if run in old(runs) then Done else NotFound
      ensures runs == if r.Done? then old(runs)[run := old(runs)[run].(currentStep := step, updatedAt := now)] else old(runs)
    {
      if run !in runs { return NotFound; }
      runs := runs[run := runs[run].(currentStep := step, updatedAt := now)];
      r := Done;
    }

    method SetRunError(run: string, message: string, now: int) returns (r: Change)
      requires Valid()
      modifies this`runs, this`machines, this`persisted, this`owned, owned`state, owned`history
      ensures Valid() && fresh(owned - old(owned))
      ensures r == if run !in old(runs) then NotFound
                   else if RunState.FAILED in Allowed(old(runs)[run].state) then Done else Rejected
      ensures r.Done? ==> runs == old(runs)[run := old(runs)[run].(state := RunState.FAILED, updatedAt := now, error := Some(message))]
                          && persisted == old(persisted)[run := old(persisted)[run] + [RunState.FAILED]]
      ensures !r.Done? ==> runs == old(runs) && persisted == old(persisted)
    {
      r := TransitionRun(run, RunState.FAILED, now);
      if r.Done? {
        runs := runs[run := runs[run].(error := Some(message))];
      }
    }

    /** A new PENDING record; the run remembers it as its last checkpoint. */
    method CreateCheckpoint(id: string, run: string, step: int, now: int) returns (r: Change)
      requires Valid() && id !in checkpoints
      modifies this`runs, this`checkpoints
      ensures Valid()
      ensures r == if run in old(runs) then Done else NotFound
      ensures r.Done? ==> checkpoints == old(checkpoints)[id := Checkpoint(run, step, PENDING, 0, 0, [])]
                          && runs == old(runs)[run := old(runs)[run].(lastCheckpoint := Some(id), updatedAt := now)]
      ensures !r.Done? ==> checkpoints == old(checkpoints) && runs == old(runs)
    {
      if run !in runs { return NotFound; }
      checkpoints := checkpoints[id := Checkpoint(run, step, PENDING, 0, 0, [])];
      runs := runs[run := runs[run].(lastCheckpoint := Some(id), updatedAt := now)];
      r := Done;
    }

    /** Set the state and, when given, the shard count, size and ids. */
    method UpdateCheckpointState(id: string, state: CheckpointState, details: Option<(nat, nat, seq<string>)>) returns (r: Change)
      modifies this`checkpoints
      ensures r == if id in old(checkpoints) then Done else NotFound
      ensures checkpoints == if r.Done? then old(checkpoints)[id := Updated(old(checkpoints)[id], state, details)] else old(checkpoints)
      ensures r.Done? ==> checkpoints[id].state == state && checkpoints[id].runId == old(checkpoints[id].runId) && checkpoints[id].step == old(checkpoints[id].step)
      ensures r.Done? ==> (checkpoints[id].numShards, checkpoints[id].totalBytes, checkpoints[id].shardIds)
                          == if details.Some? then details.value else old((checkpoints[id].numShards, checkpoints[id].totalBytes, checkpoints[id].shardIds))
    {
      if id !in checkpoints { return NotFound; }
      var info := checkpoints[id].(state := state);
      if details.Some? {
        var (numShards, totalBytes, shardIds) := details.value;
        info := info.(numShards := numShards, totalBytes := totalBytes, shardIds := shardIds);
      }
      checkpoints := checkpoints[id := info];
      r := Done;
    }

    method DeleteCheckpoint(id: string)
      modifies this`checkpoints
      ensures checkpoints == old(checkpoints) - {id}
    {
      checkpoints := checkpoints - {id};
    }

    /** A new ACTIVE worker record under a new random id. */
    method RegisterWorker(id: string, run: string, rank: int, now: int) returns (worker: Worker)
      requires id !in workers
      modifies this`workers
      ensures worker == Worker(run, rank, ACTIVE, now, 0) && workers == old(workers)[id := worker]
    {
      worker := Worker(run, rank, ACTIVE, now, 0);
      workers := workers[id := worker];
    }

    /** A heartbeat sets the record ACTIVE, whatever it was. */
    method Heartbeat(run: string, id: string, step: int, now: int) returns (updated: Option<Worker>)
      modifies this`workers
      ensures updated.Some? <==> id in old(workers) && old(workers)[id].runId == run
      ensures updated.Some? ==> updated.value == old(workers)[id].(lastHeartbeat := now, currentStep := step, status := ACTIVE)
      ensures workers == if updated.Some? then old(workers)[id := updated.value] else old(workers)
    {
      if id !in workers || workers[id].runId != run { return None; }
      var worker := workers[id].(lastHeartbeat := now, currentStep := step, status := ACTIVE);
      workers := workers[id := worker];
      updated := Some(worker);
    }

    method MarkWorkerDead(run: string, id: string, status: WorkerStatus) returns (r: Change)
      modifies this`workers
      ensures r == if id in old(workers) && old(workers)[id].runId == run then Done else NotFound
      ensures workers == if r.Done? then old(workers)[id := old(workers)[id].(status := status)] else old(workers)
    {
      if id !in workers || workers[id].runId != run { return NotFound; }
      workers := workers[id := workers[id].(status := status)];
      r := Done;
    }

    /** The ids of the workers of one run, or of all, each once. */
    method ListWorkers(run: Option<string>) returns (ids: seq<string>)
      ensures forall id :: id in ids <==> id in workers && (run.None? || workers[id].runId == run.value)
      ensures forall i, j :: 0 <= i < j < |ids| ==> ids[i] != ids[j]
    {
      ids := [];
      var left := workers.Keys;
      while left != {}
        invariant left <= workers.Keys
        invariant forall id :: id in ids <==> id in workers && id !in left && (run.None? || workers[id].runId == run.value)
        invariant forall i, j :: 0 <= i < j < |ids| ==> ids[i] != ids[j]
      {
        var id :| id in left;
        left := left - {id};
        if run.None? || workers[id].runId == run.value { ids := ids + [id]; }
      }
    }

    /** The run's checkpoints by ascending step; the store's scan order breaks
        ties. */
    method ListCheckpoints(run: string) returns (ids: seq<string>)
      ensures Listing(checkpoints, run, ids)
    {
      ids := [];
      var left := checkpoints.Keys;
      while left != {}
        invariant left <= checkpoints.Keys
        invariant forall k :: k in ids <==> k in checkpoints && k !in left && checkpoints[k].runId == run
        invariant ByStep(checkpoints, ids) && Once(ids)
      {
        var id :| id in left;
        left := left - {id};
        if checkpoints[id].runId == run {
          InsertedOnce(checkpoints, ids, id);
          ids := InsertByStep(checkpoints, ids, id);
        }
      }
    }
  }

  ghost predicate ByStep(checkpoints: map<string, Checkpoint>, ids: seq<string>)
  {
    && (forall i :: 0 <= i < |ids| ==> ids[i] in checkpoints)
    && (forall i, j :: 0 <= i < j < |ids| ==> checkpoints[ids[i]].step <= checkpoints[ids[j]].step)
  }

  /** The run's checkpoints, each once, by ascending step. */
  ghost predicate Listing(checkpoints: map<string, Checkpoint>, run: string, ids: seq<string>)
  {
    && (forall k :: k in ids <==> k in checkpoints && checkpoints[k].runId == run)
    && ByStep(checkpoints, ids) && Once(ids)
  }

  predicate Once(ids: seq<string>) { forall i, j :: 0 <= i < j < |ids| ==> ids[i] != ids[j] }

  /** One step of the stable sort by step: after the entries it may follow. */
  function InsertByStep(checkpoints: map<string, Checkpoint>, ids: seq<string>, id: string): (all: seq<string>)
    requires ByStep(checkpoints, ids) && id in checkpoints
    ensures ByStep(checkpoints, all)
    ensures forall k :: k in all <==> k in ids || k == id
  {
    if ids == [] || checkpoints[id].step < checkpoints[ids[0]].step then [id] + ids
    else
      var rest := InsertByStep(checkpoints, ids[1..], id);
      assert forall k :: k in rest ==> checkpoints[ids[0]].step <= checkpoints[k].step;
      assert ids == [ids[0]] + ids[1..];
      [ids[0]] + rest
  }

  lemma {:induction false} InsertedOnce(checkpoints: map<string, Checkpoint>, ids: seq<string>, id: string)
    requires ByStep(checkpoints, ids) && id in checkpoints && Once(ids) && id !in ids
    ensures Once(InsertByStep(checkpoints, ids, id))
  {
    if ids != [] && checkpoints[id].step >= checkpoints[ids[0]].step {
      var tail := ids[1..];
      assert forall i :: 0 <= i < |tail| ==> tail[i] == ids[i + 1];
      InsertedOnce(checkpoints, tail, id);
      OnceInFront(ids[0], InsertByStep(checkpoints, tail, id));
    } else {
      OnceInFront(id, ids);
    }
  }

  lemma OnceInFront(id: string, ids: seq<string>)
    requires Once(ids) && id !in ids
    ensures Once([id] + ids)
  {
  }
}
