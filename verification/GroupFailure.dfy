/** From an expired lease to a restarted worker group: the failure protocol of
    one run. */
module GroupFailure {
  import opened Sequences
  import opened RunStates
  import opened Coordinator
  import opened Heartbeats
  import opened WorkerViews
  import opened WorkerManager
  import opened GroupRestart
  import opened RestartSlot
  import opened Protocol
  import ControlPlane

  /** These checkpoints of the run, if open, are given up. */
  function GivenUpAmong(checkpoints: map<string, Checkpoint>, ids: seq<string>): map<string, Checkpoint>
  {
    map c | c in checkpoints ::
      if c in ids && Open(checkpoints[c].state) then checkpoints[c].(state := CheckpointState.FAILED) else checkpoints[c]
  }

  lemma GivenUpNext(checkpoints: map<string, Checkpoint>, ids: seq<string>, i: nat)
    requires i < |ids| && ids[i] in checkpoints
    ensures var id := ids[i]; var now := GivenUpAmong(checkpoints, ids[..i]);
            GivenUpAmong(checkpoints, ids[..i + 1]) == if Open(now[id].state) then now[id := now[id].(state := CheckpointState.FAILED)] else now
  {
    assert ids[..i + 1] == ids[..i] + [ids[i]];
  }

  lemma GivenUpAll(checkpoints: map<string, Checkpoint>, run: string, ids: seq<string>)
    requires forall c :: c in ids <==> c in checkpoints && checkpoints[c].runId == run
    ensures GivenUpAmong(checkpoints, ids) == GivenUp(checkpoints, run)
  {
  }

  /** The states a failure takes a run through. */
  function FailurePath(state: RunState, recovers: bool): (path: seq<RunState>)
  {
    if state == RunState.FAILED then (if recovers then [RECOVERING] else [])
    else if recovers then [RunState.FAILED, RECOVERING] else [RunState.FAILED]
  }

  /** A failure of this run's workers is acted upon. */
  predicate CanFail(runs: map<string, RunStatus>, run: string)
  {
    run in runs && (runs[run].state == RunState.FAILED || RunState.FAILED in Allowed(runs[run].state))
  }

  class RecoveryManager {
    const supervisor: GroupSupervisor
    const workerManager: WorkerManager := supervisor.workerManager
    const heartbeats: HeartbeatManager := supervisor.workerManager.heartbeats
    const coordinator: Coordinator := supervisor.workerManager.coordinator
    const supervised: bool
    const autoRecover: bool
    var recovering: set<string>
    var recoveryCheckpoints: map<string, Option<string>>

    constructor (supervisor: GroupSupervisor, supervised: bool, autoRecover: bool)
      ensures this.supervisor == supervisor && this.supervised == supervised && this.autoRecover == autoRecover && recovering == {}
    {
      this.supervisor, this.supervised, this.autoRecover := supervisor, supervised, autoRecover;
      recovering, recoveryCheckpoints := {}, map[];
    }

    method AbortPendingCheckpoints(run: string)
      modifies coordinator`checkpoints
      ensures coordinator.checkpoints == GivenUp(old(coordinator.checkpoints), run)
      ensures coordinator.checkpoints.Keys == old(coordinator.checkpoints).Keys
      ensures forall c :: c in coordinator.checkpoints ==>
                coordinator.checkpoints[c] == if old(coordinator.checkpoints)[c].runId == run && old(coordinator.checkpoints)[c].state in {PENDING, IN_PROGRESS}
                                              then old(coordinator.checkpoints)[c].(state := CheckpointState.FAILED) else old(coordinator.checkpoints)[c]
    {
      var ids := coordinator.ListCheckpoints(run);
      ghost var before := coordinator.checkpoints;
      for i := 0 to |ids|
        invariant coordinator.checkpoints == GivenUpAmong(before, ids[..i])
      {
        assert ids[i] in ids;
        GivenUpNext(before, ids, i);
        if coordinator.checkpoints[ids[i]].state in {PENDING, IN_PROGRESS} {
          var updated := coordinator.UpdateCheckpointState(ids[i], CheckpointState.FAILED, None);
        }
      }
      assert ids[..|ids|] == ids;
      GivenUpAll(before, run, ids);
    }

    /** Remember the committed checkpoint of the highest step. */
    method RecordRecoveryCheckpoint(run: string)
      modifies this`recoveryCheckpoints
      ensures run in recoveryCheckpoints && recoveryCheckpoints == old(recoveryCheckpoints)[run := recoveryCheckpoints[run]]
      ensures recoveryCheckpoints[run].Some? ==> RecoversFrom(coordinator.checkpoints, run, recoveryCheckpoints[run].value)
      ensures recoveryCheckpoints[run].None? ==>
                forall c :: c in coordinator.checkpoints && coordinator.checkpoints[c].runId == run ==> !coordinator.checkpoints[c].state.COMMITTED?
    {
      var ids := coordinator.ListCheckpoints(run);
      var latest: Option<string> := None;
      for i := 0 to |ids|
        invariant latest.Some? ==> latest.value in ids[..i] && coordinator.checkpoints[latest.value].state.COMMITTED?
        invariant forall j :: 0 <= j < i && coordinator.checkpoints[ids[j]].state.COMMITTED? ==>
                                latest.Some? && coordinator.checkpoints[ids[j]].step <= coordinator.checkpoints[latest.value].step
      {
        assert ids[..i + 1] == ids[..i] + [ids[i]];
        if coordinator.checkpoints[ids[i]].state.COMMITTED?
           && (latest.None? || coordinator.checkpoints[ids[i]].step > coordinator.checkpoints[latest.value].step) {
          latest := Some(ids[i]);
        }
      }
      assert ids[..|ids|] == ids;
      recoveryCheckpoints := recoveryCheckpoints[run := latest];
    }

    method MoveRun(run: string, target: RunState, now: int) returns (moved: bool)
      requires coordinator.Valid() && run in coordinator.runs
      modifies coordinator`runs, coordinator`machines, coordinator`persisted, coordinator`owned, coordinator.owned
      ensures coordinator.Valid() && fresh(coordinator.owned - old(coordinator.owned))
      ensures moved <==> target in Allowed(old(coordinator.runs)[run].state)
      ensures moved ==> Took(old(coordinator.runs), old(coordinator.persisted), coordinator.runs, coordinator.persisted, run, [target])
      ensures !moved ==> coordinator.runs == old(coordinator.runs) && coordinator.persisted == old(coordinator.persisted)
    {
      var change := coordinator.TransitionRun(run, target, now);
      moved := change.Done?;
    }

    /** FAILED, unless it is that already. */
    method FailState(run: string, now: int) returns (failed: bool)
      requires coordinator.Valid()
      modifies coordinator`runs, coordinator`machines, coordinator`persisted, coordinator`owned, coordinator.owned
      ensures coordinator.Valid() && fresh(coordinator.owned - old(coordinator.owned))
      ensures failed == CanFail(old(coordinator.runs), run)
      ensures !failed ==> coordinator.runs == old(coordinator.runs) && coordinator.persisted == old(coordinator.persisted)
      ensures failed ==> Took(old(coordinator.runs), old(coordinator.persisted), coordinator.runs, coordinator.persisted, run,
                              FailurePath(old(coordinator.runs)[run].state, false))
    {
      if run !in coordinator.runs { return false; }
      if Terminal(coordinator.runs[run].state) { return false; }
      if coordinator.runs[run].state != RunState.FAILED {
        failed := MoveRun(run, RunState.FAILED, now);
      } else {
        failed := true;
        TookNothing(coordinator.runs, coordinator.persisted, run);
      }
    }

    /** Fail the run, then give up its open checkpoints. */
    method FailRun(run: string, now: int) returns (failed: bool)
      requires coordinator.Valid()
      modifies coordinator`runs, coordinator`checkpoints, coordinator`machines, coordinator`persisted, coordinator`owned, coordinator.owned
      ensures coordinator.Valid() && fresh(coordinator.owned - old(coordinator.owned))
      ensures failed == CanFail(old(coordinator.runs), run)
      ensures !failed ==> coordinator.runs == old(coordinator.runs) && coordinator.persisted == old(coordinator.persisted)
      ensures failed ==> Took(old(coordinator.runs), old(coordinator.persisted), coordinator.runs, coordinator.persisted, run,
                              FailurePath(old(coordinator.runs)[run].state, false))
      ensures coordinator.checkpoints == if failed then GivenUp(old(coordinator.checkpoints), run) else old(coordinator.checkpoints)
    {
      failed := FailState(run, now);
      if failed { AbortPendingCheckpoints(run); }
    }

    /** RECOVERING, and the recovery checkpoint is chosen. */
    method BeginRecovery(run: string, now: int)
      requires coordinator.Valid() && run in coordinator.runs && coordinator.runs[run].state == RunState.FAILED
      modifies this`recoveryCheckpoints
      modifies coordinator`runs, coordinator`machines, coordinator`persisted, coordinator`owned, coordinator.owned
      ensures coordinator.Valid() && fresh(coordinator.owned - old(coordinator.owned))
      ensures Took(old(coordinator.runs), old(coordinator.persisted), coordinator.runs, coordinator.persisted, run, [RECOVERING])
      ensures run in recoveryCheckpoints && recoveryCheckpoints == old(recoveryCheckpoints)[run := recoveryCheckpoints[run]]
      ensures recoveryCheckpoints[run].Some? ==> RecoversFrom(coordinator.checkpoints, run, recoveryCheckpoints[run].value)
    {
      var moved := MoveRun(run, RECOVERING, now);
      RecordRecoveryCheckpoint(run);
    }

    /** Fail the run and give up its open checkpoints; if recovery is configured,
        begin it. */
    method BringDown(run: string, now: int) returns (failed: bool)
      requires coordinator.Valid()
      modifies this`recoveryCheckpoints
      modifies coordinator`runs, coordinator`checkpoints, coordinator`machines, coordinator`persisted, coordinator`owned, coordinator.owned
      ensures coordinator.Valid() && fresh(coordinator.owned - old(coordinator.owned))
      ensures failed == CanFail(old(coordinator.runs), run)
      ensures Handled(old(coordinator.runs), old(coordinator.persisted), coordinator.runs, coordinator.persisted, run, Recovers())
      ensures coordinator.checkpoints == if failed then GivenUp(old(coordinator.checkpoints), run) else old(coordinator.checkpoints)
    {
      failed := FailRun(run, now);
      if failed && autoRecover && supervised {
        ghost var runs, persisted := coordinator.runs, coordinator.persisted;
        BeginRecovery(run, now);
        TookBoth(old(coordinator.runs), old(coordinator.persisted), runs, persisted, coordinator.runs, coordinator.persisted, run);
      }
    }

    /** Ask the supervisor, if recovery is configured. */
    method RestartWorkers(down: bool, run: string, now: int) returns (ghost claimed: bool)
      requires workerManager.Valid()
      modifies supervisor`slot, supervisor`calls, workerManager`workers, coordinator`workers, heartbeats`leases, heartbeats.owned`isAlive
      ensures heartbeats.Valid()
      ensures RestartedIf(claimed, old(heartbeats.leases), old(workerManager.View()), heartbeats.leases, workerManager.View(), run)
      ensures RequestedIf(down && Recovers(), supervisor.GateOf(), old(supervisor.slot), old(supervisor.calls), supervisor.slot,
                          supervisor.calls, run, now, claimed)
    {
      claimed := false;
      if down && autoRecover && supervised {
        var scheduled;
        scheduled, claimed := supervisor.ScheduleWorkerGroupRestart(run, now);
      }
    }

    /** Failed runs are recovered automatically. */
    predicate Recovers() { autoRecover && supervised }

    /** Fail the run, give up its open checkpoints, recover it. */
    method HandleFailure(run: string, now: int) returns (ghost claimed: bool, ghost failed: bool)
      requires coordinator.Valid() && workerManager.Valid()
      modifies this`recoveryCheckpoints, supervisor`slot, supervisor`calls, workerManager`workers
      modifies coordinator, coordinator.owned, heartbeats`leases, heartbeats.owned`isAlive
      ensures coordinator.Valid() && fresh(coordinator.owned - old(coordinator.owned))
      ensures heartbeats.Valid()
      ensures RestartedIf(claimed, old(heartbeats.leases), old(workerManager.View()), heartbeats.leases, workerManager.View(), run)
      ensures failed == CanFail(old(coordinator.runs), run)
      ensures RequestedIf(failed && Recovers(), supervisor.GateOf(), old(supervisor.slot), old(supervisor.calls), supervisor.slot,
                          supervisor.calls, run, now, claimed)
      ensures coordinator.checkpoints == if failed then GivenUp(old(coordinator.checkpoints), run) else old(coordinator.checkpoints)
      ensures Handled(old(coordinator.runs), old(coordinator.persisted), coordinator.runs, coordinator.persisted, run, Recovers())
    {
      var down := BringDown(run, now);
      failed := down;
      assert workerManager.View() == old(workerManager.View());
      claimed := RestartWorkers(down, run, now);
    }

    /** The failure callback for one worker of the run. */
    method OnWorkerFailure(run: string, now: int) returns (ghost claimed: bool, ghost failed: bool)
      requires coordinator.Valid() && workerManager.Valid() && recovering == {}
      modifies this, supervisor`slot, supervisor`calls, workerManager`workers
      modifies coordinator, coordinator.owned, heartbeats`leases, heartbeats.owned`isAlive
      ensures coordinator.Valid() && fresh(coordinator.owned - old(coordinator.owned)) && recovering == {}
      ensures heartbeats.Valid()
      ensures RestartedIf(claimed, old(heartbeats.leases), old(workerManager.View()), heartbeats.leases, workerManager.View(), run)
      ensures failed == CanFail(old(coordinator.runs), run)
      ensures RequestedIf(failed && Recovers(), supervisor.GateOf(), old(supervisor.slot), old(supervisor.calls), supervisor.slot,
                          supervisor.calls, run, now, claimed)
      ensures coordinator.checkpoints == if failed then GivenUp(old(coordinator.checkpoints), run) else old(coordinator.checkpoints)
      ensures Handled(old(coordinator.runs), old(coordinator.persisted), coordinator.runs, coordinator.persisted, run, Recovers())
    {
      claimed, failed := false, false;
      if run !in recovering {
        recovering := recovering + {run};
        claimed, failed := HandleFailure(run, now);
        ghost var after := workerManager.View();
        recovering := recovering - {run};
        assert workerManager.View() == after;
      }
    }
  }

  /** A restart call was made, or none. */
  ghost predicate RequestedIf(asked: bool, gate: Gate, slot: Slot, calls: seq<(string, bool)>, slot': Slot, calls': seq<(string, bool)>,
                              run: string, now: int, claimed: bool)
  {
    if asked then Requested(gate, slot, calls, slot', calls', run, now, claimed) else slot' == slot && calls' == calls && !claimed
  }

  /** What a failure does to the runs. */
  ghost predicate Handled(runs: map<string, RunStatus>, persisted: map<string, seq<RunState>>,
                          runs': map<string, RunStatus>, persisted': map<string, seq<RunState>>, run: string, recovers: bool)
  {
    if CanFail(runs, run) then Took(runs, persisted, runs', persisted', run, FailurePath(runs[run].state, recovers))
    else runs' == runs && persisted' == persisted
  }

  /** The run went through these states, one after the other; no other run moved. */
  ghost predicate Took(runs: map<string, RunStatus>, persisted: map<string, seq<RunState>>,
                       runs': map<string, RunStatus>, persisted': map<string, seq<RunState>>, run: string, path: seq<RunState>)
  {
    && run in runs && run in persisted && run in runs' && runs'.Keys == runs.Keys
    && (forall r :: r in runs && r != run ==> runs'[r] == runs[r])
    && persisted' == persisted[run := persisted[run] + path]
    && runs'[run].state == if path == [] then runs[run].state else path[|path| - 1]
  }

  /** What HandleFailure promises of runs and records is the protocol's failure
      step, whatever the shard lists and the bucket hold; or nothing changes. */
  lemma FailureIsFailStep(runs: map<string, RunStatus>, persisted: map<string, seq<RunState>>, runs': map<string, RunStatus>,
                          persisted': map<string, seq<RunState>>, run: string, recovers: bool, w: World, w': World)
    requires Handled(runs, persisted, runs', persisted', run, recovers)
    requires w.runs == ControlPlane.StatesOf(runs) && w'.runs == ControlPlane.StatesOf(runs')
    requires w'.checkpoints == if CanFail(runs, run) then GivenUp(w.checkpoints, run) else w.checkpoints
    requires w'.shards == w.shards && w'.bucket == w.bucket
    ensures if CanFail(runs, run) then FailStep(w, run, w') else w' == w
  {
    if CanFail(runs, run) {
      var last := if recovers then RECOVERING else RunState.FAILED;
      assert runs'[run].state == last;
      assert w'.runs == w.runs[run := last];
    }
  }

  /** Told state by state: a run in the middle of its work is FAILED and, where
      recovery is configured, then RECOVERING; one that has failed only goes on to
      RECOVERING; one that was never started or has ended stays as it is, and so
      do all other runs. */
  lemma HandledExactly(runs: map<string, RunStatus>, persisted: map<string, seq<RunState>>, runs': map<string, RunStatus>,
                       persisted': map<string, seq<RunState>>, run: string, recovers: bool)
    requires Handled(runs, persisted, runs', persisted', run, recovers)
    ensures runs'.Keys == runs.Keys && forall r :: r in runs && r != run ==> runs'[r] == runs[r]
    ensures run in runs && runs[run].state in {RUNNING, CHECKPOINTING, RunState.COMMITTED, RECOVERING} ==>
              && runs'[run].state == (if recovers then RECOVERING else RunState.FAILED)
              && run in persisted && persisted' == persisted[run := persisted[run] + if recovers then [RunState.FAILED, RECOVERING] else [RunState.FAILED]]
    ensures run in runs && runs[run].state == RunState.FAILED ==>
              && runs'[run].state == (if recovers then RECOVERING else RunState.FAILED)
              && run in persisted && persisted' == persisted[run := persisted[run] + if recovers then [RECOVERING] else []]
    ensures run !in runs || runs[run].state in {CREATED, CANCELLED, COMPLETED} ==> runs' == runs && persisted' == persisted
  {
    if run in runs { EnteredFrom(runs[run].state); }
  }

  lemma TookNothing(runs: map<string, RunStatus>, persisted: map<string, seq<RunState>>, run: string)
    requires run in runs && run in persisted
    ensures Took(runs, persisted, runs, persisted, run, [])
  {
    assert persisted[run] + [] == persisted[run];
  }

  lemma TookBoth(runs: map<string, RunStatus>, persisted: map<string, seq<RunState>>, between: map<string, RunStatus>,
                 persistedBetween: map<string, seq<RunState>>, runs': map<string, RunStatus>, persisted': map<string, seq<RunState>>,
                 run: string)
    requires run in runs && Took(runs, persisted, between, persistedBetween, run, FailurePath(runs[run].state, false))
    requires Took(between, persistedBetween, runs', persisted', run, [RECOVERING])
    ensures Took(runs, persisted, runs', persisted', run, FailurePath(runs[run].state, true))
  {
    assert persisted[run] + FailurePath(runs[run].state, true) == persistedBetween[run] + [RECOVERING];
  }
}
