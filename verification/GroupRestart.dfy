/** Restarting all workers of a run as one generation: claim the restart slot,
    mark the whole group dead, start the restart thread. */
module GroupRestart {
  import opened Sequences
  import RunStates
  import opened Coordinator
  import opened Heartbeats
  import opened WorkerViews
  import opened WorkerManager
  import opened RestartSlot

  /** What a restart call checks besides the slot. */
  datatype Gate = Gate(sharedPathSet: bool, sharedRunId: string, containers: nat)

  /** The call for this run is let through and finds the slot free and the run
      not cooling down. */
  predicate Claimable(gate: Gate, slot: Slot, run: string, now: int)
  {
    !(gate.sharedPathSet && gate.sharedRunId != run) && gate.containers > 0 && Ask(slot, run, now).Claimed?
  }

  /** A restart call: it claims the slot exactly when it can, and gives it back
      at once when its thread cannot be started. */
  ghost predicate Requested(gate: Gate, slot: Slot, calls: seq<(string, bool)>, slot': Slot, calls': seq<(string, bool)>,
                            run: string, now: int, claimed: bool)
  {
    && claimed == Claimable(gate, slot, run, now)
    && calls' == calls + [(run, claimed)]
    && (slot' == slot || claimed) && (claimed ==> slot' == Take(slot, run, now) || slot' == Release(Take(slot, run, now), run, false))
  }

  /** A restart that claims the slot retires the whole group of the run in all
      views; one that does not leaves them alone. Leases are only removed. */
  ghost predicate RestartedIf(claimed: bool, leases: map<string, WorkerLease>, v: Views, leases': map<string, WorkerLease>, v': Views,
                              run: string)
  {
    OnlyFewer(leases, leases') && v' == if claimed then GroupRestarted(v, run) else v
  }

  function ActiveAmong(workers: Workers, ids: seq<string>): set<string>
  {
    set id | id in ids && id in workers && workers[id].status.ACTIVE?
  }

  lemma ActiveWith(workers: Workers, ids: seq<string>, id: string)
    requires id in workers && id !in ids
    ensures |ActiveAmong(workers, ids + [id])| == |ActiveAmong(workers, ids)| + if workers[id].status.ACTIVE? then 1 else 0
  {
    var some, more := ActiveAmong(workers, ids), ActiveAmong(workers, ids + [id]);
    assert more == if workers[id].status.ACTIVE? then some + {id} else some;
  }

  lemma ActiveNext(workers: Workers, ids: seq<string>, i: nat)
    requires i < |ids| && ids[i] in workers && forall j, k :: 0 <= j < k < |ids| ==> ids[j] != ids[k]
    ensures |ActiveAmong(workers, ids[..i + 1])| == |ActiveAmong(workers, ids[..i])| + if workers[ids[i]].status.ACTIVE? then 1 else 0
  {
    assert ids[..i + 1] == ids[..i] + [ids[i]];
    ActiveWith(workers, ids[..i], ids[i]);
  }

  lemma ListedOfRun(workers: Workers, run: string, ids: seq<string>)
    requires forall id :: id in ids <==> id in workers && workers[id].runId == run
    ensures |ids| > 0 <==> exists id :: id in workers && workers[id].runId == run
    ensures ActiveAmong(workers, ids) == ActiveOf(workers, run)
  {
    if |ids| > 0 { assert ids[0] in ids; }
  }

  class GroupSupervisor {
    const workerManager: WorkerManager
    const containers: nat
    const sharedPathSet: bool
    /** The system never runs out of threads. */
    const threadsStart: bool
    var sharedRunId: string
    var slot: Slot
    /** Every restart asked for, and whether it claimed the slot. */
    ghost var calls: seq<(string, bool)>

    constructor (workerManager: WorkerManager, containers: nat, sharedPathSet: bool, sharedRunId: string, threadsStart: bool)
      ensures this.workerManager == workerManager && this.threadsStart == threadsStart && slot == Slot(None, map[]) && calls == []
      ensures GateOf() == Gate(sharedPathSet, sharedRunId, containers)
    {
      this.workerManager, this.containers, this.sharedPathSet, this.sharedRunId := workerManager, containers, sharedPathSet, sharedRunId;
      this.threadsStart := threadsStart;
      slot, calls := Slot(None, map[]), [];
    }

    ghost function GateOf(): Gate
      reads this`sharedRunId
    {
      Gate(sharedPathSet, sharedRunId, containers)
    }

    /** Only a call that claims the slot touches the workers, and it retires the
        whole group. Whether the thread can be started is up to the system. */
    method ScheduleWorkerGroupRestart(run: string, now: int) returns (scheduled: bool, ghost claimed: bool)
      requires workerManager.Valid()
      modifies this`slot, this`calls, workerManager`workers, workerManager.coordinator`workers, workerManager.heartbeats`leases,
               workerManager.heartbeats.owned`isAlive
      ensures workerManager.heartbeats.Valid()
      ensures RestartedIf(claimed, old(workerManager.heartbeats.leases), old(workerManager.View()),
                          workerManager.heartbeats.leases, workerManager.View(), run)
      ensures Requested(GateOf(), old(slot), old(calls), slot, calls, run, now, claimed)
      ensures claimed <==> !(sharedPathSet && sharedRunId != run) && containers > 0 && old(slot).inFlight.None?
                           && now - (if run in old(slot).lastAttempt then old(slot).lastAttempt[run] else 0) >= RETRY_SECONDS
      ensures claimed && threadsStart ==> scheduled
      ensures !claimed ==> scheduled == (!(sharedPathSet && sharedRunId != run) && containers > 0
                                         && Ask(old(slot), run, now) != Occupied(false))
      ensures claimed ==> slot == if scheduled then Take(old(slot), run, now) else Release(Take(old(slot), run, now), run, false)
    {
      claimed := false;
      if (sharedPathSet && sharedRunId != run) || containers == 0 {
        calls := calls + [(run, false)];
        return false, false;
      }
      if slot.inFlight.Some? {
        calls := calls + [(run, false)];
        return run == slot.inFlight.value, false;
      }
      var lastAttempt := if run in slot.lastAttempt then slot.lastAttempt[run] else 0;
      if now - lastAttempt < RETRY_SECONDS {
        calls := calls + [(run, false)];
        return true, false;
      }
      claimed, calls := true, calls + [(run, true)];
      slot := Slot(Some(run), slot.lastAttempt[run := now]);
      MarkGroupDead(run);
      scheduled := *;
      scheduled := scheduled || threadsStart;
      if !scheduled {
        slot := Slot(None, slot.lastAttempt - {run});
      }
    }

    /** One round of the reconciliation loop: the supervised run is restarted
        again while it is RECOVERING with some but too few active workers. */
    method ReconcileOnce(now: int) returns (ghost asked: bool, ghost claimed: bool)
      requires workerManager.Valid()
      modifies this`slot, this`calls, workerManager`workers, workerManager.coordinator`workers, workerManager.heartbeats`leases,
               workerManager.heartbeats.owned`isAlive
      ensures workerManager.heartbeats.Valid()
      ensures asked <==> && sharedPathSet && sharedRunId != "" && sharedRunId in workerManager.coordinator.runs
                         && workerManager.coordinator.runs[sharedRunId].state == RunStates.RECOVERING
                         && (exists id :: id in old(workerManager.coordinator.workers) && old(workerManager.coordinator.workers)[id].runId == sharedRunId)
                         && |ActiveOf(old(workerManager.coordinator.workers), sharedRunId)| < workerManager.coordinator.runs[sharedRunId].numWorkers
      ensures asked ==> Requested(GateOf(), old(slot), old(calls), slot, calls, sharedRunId, now, claimed)
      ensures !asked ==> calls == old(calls) && slot == old(slot) && !claimed
      ensures RestartedIf(claimed, old(workerManager.heartbeats.leases), old(workerManager.View()),
                          workerManager.heartbeats.leases, workerManager.View(), sharedRunId)
    {
      var run := sharedRunId;
      asked, claimed := false, false;
      if !sharedPathSet || run == "" || run !in workerManager.coordinator.runs { return; }
      if workerManager.coordinator.runs[run].state != RunStates.RECOVERING { return; }
      var registered, active := CountWorkers(run);
      if registered > 0 && active < workerManager.coordinator.runs[run].numWorkers {
        asked := true;
        var scheduled;
        scheduled, claimed := ScheduleWorkerGroupRestart(run, now);
      }
    }

    method CountWorkers(run: string) returns (registered: nat, active: nat)
      ensures registered > 0 <==> exists id :: id in workerManager.coordinator.workers && workerManager.coordinator.workers[id].runId == run
      ensures active == |ActiveOf(workerManager.coordinator.workers, run)|
    {
      var ids := workerManager.coordinator.ListWorkers(Some(run));
      registered, active := |ids|, 0;
      for i := 0 to |ids|
        invariant active == |ActiveAmong(workerManager.coordinator.workers, ids[..i])|
      {
        ActiveNext(workerManager.coordinator.workers, ids, i);
        if workerManager.coordinator.workers[ids[i]].status == ACTIVE { active := active + 1; }
      }
      assert ids[..|ids|] == ids;
      ListedOfRun(workerManager.coordinator.workers, run, ids);
    }

    /** Every worker of the run: DEAD in its record if it was active, DEAD in the
        index, and without a lease. */
    method MarkGroupDead(run: string)
      requires workerManager.Valid()
      modifies workerManager`workers, workerManager.coordinator`workers, workerManager.heartbeats`leases, workerManager.heartbeats.owned`isAlive
      ensures workerManager.heartbeats.Valid()
      ensures OnlyFewer(old(workerManager.heartbeats.leases), workerManager.heartbeats.leases)
      ensures workerManager.View() == GroupRestarted(old(workerManager.View()), run)
    {
      ghost var before := workerManager.View();
      var ids := workerManager.coordinator.ListWorkers(Some(run));
      ghost var done: set<string> := {};
      NoneRestarted(before);
      for i := 0 to |ids|
        invariant workerManager.heartbeats.Valid()
        invariant OnlyFewer(old(workerManager.heartbeats.leases), workerManager.heartbeats.leases)
        invariant forall id :: id in done <==> id in ids[..i]
        invariant workerManager.View() == PartlyRestarted(before, done)
      {
        assert ids[..i + 1] == ids[..i] + [ids[i]];
        assert ids[i] in before.kv && before.kv[ids[i]].runId == run && ids[i] !in done;
        assert AgreeOn(before, ids[i]);
        OneMoreRestarted(before, done, ids[i]);
        MarkDead(ids[i], run);
        done := done + {ids[i]};
      }
      assert ids[..|ids|] == ids;
      assert done == OfRun(before.kv, run);
      GroupIsPart(before, run);
    }

    method MarkDead(id: string, run: string)
      requires workerManager.heartbeats.Valid()
      requires id in workerManager.coordinator.workers && workerManager.coordinator.workers[id].runId == run && id in workerManager.workers
      modifies workerManager`workers, workerManager.coordinator`workers, workerManager.heartbeats`leases, workerManager.heartbeats.owned`isAlive
      ensures workerManager.heartbeats.Valid() && workerManager.heartbeats.leases == old(workerManager.heartbeats.leases) - {id}
      ensures workerManager.View() == DeadIn(old(workerManager.View()), id)
    {
      if workerManager.coordinator.workers[id].status == ACTIVE {
        var marked := workerManager.coordinator.MarkWorkerDead(run, id, DEAD);
      }
      workerManager.OnWorkerFailure(id);
      workerManager.heartbeats.Unregister(id);
    }
  }

  function DeadIn(v: Views, id: string): Views
    requires id in v.kv && id in v.index
  {
    v.(kv := if v.kv[id].status.ACTIVE? then v.kv[id := v.kv[id].(status := DEAD)] else v.kv,
       index := v.index[id := v.index[id].(status := DEAD)], live := v.live - {id})
  }

  /** The restart has got to these workers. */
  function PartlyRestarted(v: Views, ids: set<string>): Views
  {
    v.(kv := WithStatus(v.kv, (set id | id in ids && IsActive(v.kv, id)), DEAD), index := WithStatus(v.index, ids, DEAD), live := v.live - ids)
  }

  lemma NoneRestarted(v: Views)
    ensures PartlyRestarted(v, {}) == v
  {
  }

  lemma GroupIsPart(v: Views, run: string)
    ensures PartlyRestarted(v, OfRun(v.kv, run)) == GroupRestarted(v, run)
  {
    assert (set id | id in OfRun(v.kv, run) && IsActive(v.kv, id)) == ActiveOf(v.kv, run);
  }

  lemma OneMoreRestarted(v: Views, ids: set<string>, id: string)
    requires id in v.kv && id in v.index && id !in ids
    ensures PartlyRestarted(v, ids + {id}) == DeadIn(PartlyRestarted(v, ids), id)
  {
    var some, more := PartlyRestarted(v, ids), PartlyRestarted(v, ids + {id});
    assert more.kv == DeadIn(some, id).kv;
    assert more.index == DeadIn(some, id).index;
  }
}
