/** Worker registration, heartbeats and departure across the coordinator's
    records, the in-memory index and the leases. */
module WorkerManager {
  import opened Sequences
  import opened Coordinator
  import opened Heartbeats
  import opened WorkerViews

  class WorkerManager {
    const coordinator: Coordinator
    const heartbeats: HeartbeatManager
    var workers: Workers
    var runWorkers: map<string, set<string>>
    var rankCounters: map<string, int>

    ghost function View(): Views
      reads this`workers, this`runWorkers, this`rankCounters, coordinator`workers
      reads heartbeats`leases, heartbeats`owned, heartbeats.owned
      requires heartbeats.Valid()
    {
      Views(coordinator.workers, workers, heartbeats.Live(), runWorkers, rankCounters)
    }

    /** The views agree worker by worker; every sequence of the changes below
        keeps it so (AlwaysAgree). */
    ghost predicate Valid()
      reads this`workers, this`runWorkers, this`rankCounters, coordinator`workers
      reads heartbeats`leases, heartbeats`owned, heartbeats.owned
    {
      heartbeats.Valid() && AgreeOnAll(View()) && MembersKnown(View())
    }

    /** A registration under a new random id; with an explicit rank the holders
        of that rank are superseded first. */
    method RegisterWorker(run: string, rank: Option<int>, id: string, now: int) returns (worker: Worker)
      requires Valid() && id !in coordinator.workers
      modifies this, coordinator`workers, heartbeats, heartbeats.owned`isAlive
      ensures heartbeats.Valid() && fresh(heartbeats.owned - old(heartbeats.owned))
      ensures View() == Registered(old(View()), id, run, rank, now)
      ensures worker == Worker(run, RankFor(old(View()), run, rank), ACTIVE, now, 0)
      ensures id in heartbeats.leases && heartbeats.leases[id].runId == run && heartbeats.leases[id].lastHeartbeat == now
      ensures OnlyFewer(old(heartbeats.leases), heartbeats.leases - {id})
    {
      assert AgreeOn(View(), id);
      var given: int;
      if rank.None? {
        given := NextRank(run);
      } else {
        given := rank.value;
        CountersApart(View(), rankCounters[run := Max(Counter(rankCounters, run), given + 1)]);
        rankCounters := rankCounters[run := Max(Counter(rankCounters, run), given + 1)];
        SupersedeRank(run, given);
      }
      worker := AddWorker(id, run, given, now);
    }

    method NextRank(run: string) returns (rank: int)
      modifies this`rankCounters
      ensures rank == Counter(old(rankCounters), run)
      ensures rankCounters == old(rankCounters)[run := rank + 1]
    {
      rank := if run in rankCounters then rankCounters[run] else 0;
      rankCounters := rankCounters[run := rank + 1];
    }

    /** Record, index entry, membership and lease of the new worker. */
    method AddWorker(id: string, run: string, rank: int, now: int) returns (worker: Worker)
      requires heartbeats.Valid() && id !in coordinator.workers
      modifies this`workers, this`runWorkers, coordinator`workers, heartbeats
      ensures heartbeats.Valid() && fresh(heartbeats.owned - old(heartbeats.owned))
      ensures worker == Worker(run, rank, ACTIVE, now, 0)
      ensures id in heartbeats.leases && heartbeats.leases[id].runId == run && heartbeats.leases[id].lastHeartbeat == now
      ensures OnlyFewer(old(heartbeats.leases), heartbeats.leases - {id})
      ensures View() == old(View()).(kv := old(View()).kv[id := worker], index := old(View()).index[id := worker],
                                     live := old(View()).live + {id},
                                     members := old(View()).members[run := MembersOf(old(View()).members, run) + {id}])
    {
      worker := coordinator.RegisterWorker(id, run, rank, now);
      workers := workers[id := worker];
      runWorkers := runWorkers[run := MembersOf(runWorkers, run) + {id}];
      assert heartbeats.Valid() && heartbeats.Live() == old(heartbeats.Live());
      heartbeats.Register(id, run, now);
    }

    /** Retire the active workers that hold this rank. */
    method SupersedeRank(run: string, rank: int)
      requires Valid()
      modifies this`workers, coordinator`workers, heartbeats`leases, heartbeats.owned`isAlive
      ensures heartbeats.Valid()
      ensures View() == Retired(old(View()), Holders(old(View()), run, rank), SUPERSEDED)
      ensures OnlyFewer(old(heartbeats.leases), heartbeats.leases)
    {
      ghost var before := View();
      var holders := Holding(run, rank);
      ghost var all := holders;
      while holders != {}
        invariant heartbeats.Valid() && holders <= all
        invariant View() == Retired(before, all - holders, SUPERSEDED)
        invariant OnlyFewer(old(heartbeats.leases), heartbeats.leases)
      {
        var id :| id in holders;
        assert AgreeOn(before, id);
        OneMoreRetired(before, all - holders, id, SUPERSEDED);
        assert all - (holders - {id}) == all - holders + {id};
        RetireOne(id, run, SUPERSEDED);
        holders := holders - {id};
      }
      assert all - holders == all;
    }

    /** The run's indexed active workers with this rank. */
    method Holding(run: string, rank: int) returns (holders: set<string>)
      ensures holders == Holders(View0(), run, rank)
    {
      holders := set id | id in MembersOf(runWorkers, run) && id in workers && workers[id].rank == rank && workers[id].status.ACTIVE?;
    }

    ghost function View0(): Views
      reads this
    {
      Views(map[], workers, {}, runWorkers, rankCounters)
    }

    /** Status in index and record, and no lease any more. */
    method RetireOne(id: string, run: string, status: WorkerStatus)
      requires heartbeats.Valid() && id in workers && id in coordinator.workers && coordinator.workers[id].runId == run
      modifies this`workers, coordinator`workers, heartbeats`leases, heartbeats.owned`isAlive
      ensures heartbeats.Valid() && heartbeats.leases == old(heartbeats.leases) - {id} && heartbeats.Table() == old(heartbeats.Table()) - {id}
      ensures View() == old(View()).(kv := old(View()).kv[id := old(View()).kv[id].(status := status)],
                                     index := old(View()).index[id := old(View()).index[id].(status := status)],
                                     live := old(View()).live - {id})
    {
      workers := workers[id := workers[id].(status := status)];
      var marked := coordinator.MarkWorkerDead(run, id, status);
      heartbeats.Unregister(id);
    }

    /** A worker that leaves: DEREGISTERED in index and record, in no run's members,
        and without a lease; nothing else changes. */
    method DeregisterWorker(id: string)
      requires Valid()
      modifies this`workers, this`runWorkers, coordinator`workers, heartbeats`leases, heartbeats.owned`isAlive
      ensures heartbeats.Valid() && View() == Deregistered(old(View()), id)
      ensures workers == if id in old(workers) then old(workers)[id := old(workers)[id].(status := DEREGISTERED)] else old(workers)
      ensures coordinator.workers == if id in old(coordinator.workers)
                                     then old(coordinator.workers)[id := old(coordinator.workers)[id].(status := DEREGISTERED)]
                                     else old(coordinator.workers)
      ensures heartbeats.leases == old(heartbeats.leases) - {id} && heartbeats.Table() == old(heartbeats.Table()) - {id}
      ensures forall run :: MembersOf(runWorkers, run) == MembersOf(old(runWorkers), run) - {id}
    {
      ghost var before := View();
      assert AgreeOn(before, id);
      if id in workers {
        var run := workers[id].runId;
        RetiredOne(before, id, DEREGISTERED);
        if run in runWorkers { runWorkers := runWorkers[run := runWorkers[run] - {id}]; }
        RetireOne(id, run, DEREGISTERED);
      } else {
        heartbeats.Unregister(id);
      }
    }

    /** A heartbeat counts only for a worker the index has as ACTIVE. It is put on
        record with its time and step, raises the run's step to its own if that is
        higher, and renews the worker's lease; nothing else changes. */
    method UpdateWorkerHeartbeat(id: string, step: int, now: int) returns (updated: Option<Worker>)
      requires Valid() && coordinator.Valid()
      modifies this`workers, coordinator`workers, coordinator`runs, heartbeats.owned
      ensures heartbeats.Valid() && coordinator.Valid() && View() == Beaten(old(View()), id, step, now)
      ensures updated.Some? <==> IsActive(old(workers), id)
      ensures updated.None? ==> coordinator.workers == old(coordinator.workers) && workers == old(workers)
                                && coordinator.runs == old(coordinator.runs) && heartbeats.Table() == old(heartbeats.Table())
      ensures updated.Some? ==> OnRecord(old(coordinator.workers), coordinator.workers, workers, id, step, now, updated.value)
                                && coordinator.runs == StepRaised(old(coordinator.runs), updated.value.runId, step, now)
      ensures updated.Some? ==> RenewedOnly(old(heartbeats.Table()), heartbeats.Table(), id, now, heartbeats.deadThreshold)
      ensures updated.Some? ==> id in heartbeats.leases && heartbeats.leases[id].lastHeartbeat == now && heartbeats.leases[id].isAlive
    {
      assert AgreeOn(View(), id);
      if id in workers && workers[id].status.ACTIVE? {
        updated := BeatRecord(id, step, now);
        if updated.Some? { Renew(id, updated.value.runId, step, now); }
      } else {
        updated := None;
      }
    }

    /** The step of the run and the lease of its live worker. */
    method Renew(id: string, run: string, step: int, now: int)
      requires heartbeats.Valid() && coordinator.Valid() && id in heartbeats.Live()
      modifies coordinator`runs, heartbeats.owned
      ensures heartbeats.Valid() && coordinator.Valid() && View() == old(View())
      ensures coordinator.runs == StepRaised(old(coordinator.runs), run, step, now)
      ensures RenewedOnly(old(heartbeats.Table()), heartbeats.Table(), id, now, heartbeats.deadThreshold)
      ensures id in heartbeats.leases && heartbeats.leases[id].lastHeartbeat == now && heartbeats.leases[id].isAlive
    {
      if step > 0 { RaiseStep(run, step, now); }
      var known := heartbeats.RecordHeartbeat(id, step, now);
    }

    method BeatRecord(id: string, step: int, now: int) returns (updated: Option<Worker>)
      requires id in workers
      modifies this`workers, coordinator`workers
      ensures updated.Some? <==> id in old(coordinator.workers) && old(coordinator.workers)[id].runId == old(workers)[id].runId
      ensures updated.Some? ==> updated.value == old(coordinator.workers)[id].(lastHeartbeat := now, currentStep := step, status := ACTIVE)
                                && coordinator.workers == old(coordinator.workers)[id := updated.value]
                                && workers == old(workers)[id := updated.value]
      ensures updated.None? ==> coordinator.workers == old(coordinator.workers) && workers == old(workers)
    {
      updated := coordinator.Heartbeat(workers[id].runId, id, step, now);
      if updated.Some? { workers := workers[id := updated.value]; }
    }

    method RaiseStep(run: string, step: int, now: int)
      requires coordinator.Valid() && step > 0
      modifies coordinator`runs
      ensures coordinator.Valid() && coordinator.runs == StepRaised(old(coordinator.runs), run, step, now)
    {
      if run in coordinator.runs && step > coordinator.runs[run].currentStep {
        var updated := coordinator.UpdateRunStep(run, step, now);
      }
    }

    /** The failure callback: DEAD in the index. */
    method OnWorkerFailure(id: string)
      modifies this`workers
      ensures workers == if id in old(workers) then old(workers)[id := old(workers)[id].(status := DEAD)] else old(workers)
    {
      if id in workers { workers := workers[id := workers[id].(status := DEAD)]; }
    }

    /** A new process rebuilds index, members, counters and leases from the
        records. */
    constructor (coordinator: Coordinator, heartbeats: HeartbeatManager, now: int)
      requires heartbeats.Valid() && heartbeats.leases == map[]
      modifies heartbeats
      ensures this.coordinator == coordinator && this.heartbeats == heartbeats
      ensures heartbeats.Valid() && fresh(heartbeats.owned - old(heartbeats.owned))
      ensures Rehydrated(coordinator.workers, View()) && LeasedAt(now)
    {
      this.coordinator, this.heartbeats := coordinator, heartbeats;
      workers, runWorkers, rankCounters := map[], map[], map[];
      new;
      RehydrateWorkers(now);
    }

    /** Every lease dates from now and names the run of its worker's record. */
    ghost predicate LeasedAt(now: int)
      reads heartbeats`leases, heartbeats.leases.Values`lastHeartbeat, coordinator`workers
    {
      forall id :: id in heartbeats.leases ==> heartbeats.leases[id].lastHeartbeat == now && id in coordinator.workers
                                               && heartbeats.leases[id].runId == coordinator.workers[id].runId
    }

    method RehydrateWorkers(now: int)
      requires heartbeats.Valid() && heartbeats.leases == map[] && workers == map[] && runWorkers == map[] && rankCounters == map[]
      modifies this, heartbeats
      ensures heartbeats.Valid() && fresh(heartbeats.owned - old(heartbeats.owned))
      ensures Rehydrated(coordinator.workers, View()) && LeasedAt(now)
    {
      var ids := coordinator.ListWorkers(None);
      for i := 0 to |ids|
        invariant heartbeats.Valid() && fresh(heartbeats.owned - old(heartbeats.owned))
        invariant Restored(coordinator.workers, ids[..i], View()) && LeasedAt(now)
      {
        RestoredNext(coordinator.workers, ids, i, View());
        RestoreWorker(ids[i], coordinator.workers[ids[i]], now);
      }
      assert ids[..|ids|] == ids;
      RestoredAll(coordinator.workers, ids, View());
    }

    method IndexWorker(id: string, worker: Worker)
      modifies this
      ensures workers == old(workers)[id := worker]
      ensures runWorkers == old(runWorkers)[worker.runId := MembersOf(old(runWorkers), worker.runId) + {id}]
      ensures rankCounters == old(rankCounters)[worker.runId := Max(Counter(old(rankCounters), worker.runId), worker.rank + 1)]
    {
      workers := workers[id := worker];
      runWorkers := runWorkers[worker.runId := MembersOf(runWorkers, worker.runId) + {id}];
      rankCounters := rankCounters[worker.runId := Max(Counter(rankCounters, worker.runId), worker.rank + 1)];
    }

    method RestoreWorker(id: string, worker: Worker, now: int)
      requires heartbeats.Valid()
      requires LeasedAt(now) && id in coordinator.workers && coordinator.workers[id] == worker
      modifies this, heartbeats
      ensures heartbeats.Valid() && fresh(heartbeats.owned - old(heartbeats.owned)) && LeasedAt(now)
      ensures View() == RestoredOne(old(View()), id, worker)
    {
      IndexWorker(id, worker);
      assert heartbeats.Valid() && heartbeats.Live() == old(heartbeats.Live()) && LeasedAt(now);
      if worker.status.ACTIVE? {
        heartbeats.Register(id, worker.runId, now);
      }
    }
  }

  /** The beat is on record and in the index: time, step, ACTIVE. */
  ghost predicate OnRecord(kv: Workers, kv': Workers, index': Workers, id: string, step: int, now: int, worker: Worker)
  {
    && id in kv && worker == kv[id].(lastHeartbeat := now, currentStep := step) && worker.status.ACTIVE?
    && kv' == kv[id := worker] && id in index' && index'[id] == worker
  }

  /** A known run's step becomes this one if that is positive and higher. */
  function StepRaised(runs: map<string, RunStatus>, run: string, step: int, now: int): map<string, RunStatus>
  {
    if step > 0 && run in runs && step > runs[run].currentStep then runs[run := runs[run].(currentStep := step, updatedAt := now)] else runs
  }

  /** So a beat leaves the run at the maximum of the two steps, in the state it was
      in, and no other run is touched. */
  lemma RaisedToMaximum(runs: map<string, RunStatus>, run: string, step: int, now: int)
    ensures var raised := StepRaised(runs, run, step, now);
            && raised.Keys == runs.Keys && (forall r :: r in runs && r != run ==> raised[r] == runs[r])
            && (run in runs ==> raised[run].state == runs[run].state && raised[run].error == runs[run].error
                                && raised[run].currentStep == if step <= 0 then runs[run].currentStep else Max(runs[run].currentStep, step))
  {
  }

  function RestoredOne(v: Views, id: string, worker: Worker): Views
  {
    v.(index := v.index[id := worker], live := if worker.status.ACTIVE? then v.live + {id} else v.live,
       members := v.members[worker.runId := MembersOf(v.members, worker.runId) + {id}],
       counters := v.counters[worker.runId := Max(Counter(v.counters, worker.runId), worker.rank + 1)])
  }

  function Part(kv: Workers, ids: seq<string>): Workers
  {
    map id | id in kv && id in ids :: kv[id]
  }

  /** The first workers of the list have been restored. */
  ghost predicate Restored(kv: Workers, ids: seq<string>, v: Views)
  {
    v.kv == kv && v.index == Part(kv, ids) && Rebuilt(v)
  }

  /** Leases, members and counters are those of the index. */
  ghost predicate Rebuilt(v: Views)
  {
    && v.live == (set id | id in v.index && v.index[id].status.ACTIVE?)
    && (forall run, id :: id in MembersOf(v.members, run) <==> id in v.index && v.index[id].runId == run)
    && Counted(v.index, v.counters)
  }

  lemma RebuiltNext(v: Views, id: string, worker: Worker)
    requires Rebuilt(v) && id !in v.index
    ensures Rebuilt(RestoredOne(v, id, worker))
  {
    var v' := RestoredOne(v, id, worker);
    CountedWithNew(v.index, v.counters, id, worker);
    forall run, other ensures other in MembersOf(v'.members, run) <==> other in v'.index && v'.index[other].runId == run {
      assert other in MembersOf(v.members, run) <==> other in v.index && v.index[other].runId == run;
    }
  }

  lemma RestoredNext(kv: Workers, ids: seq<string>, i: nat, v: Views)
    requires i < |ids| && ids[i] in kv && Restored(kv, ids[..i], v)
    requires forall j, k :: 0 <= j < k < |ids| ==> ids[j] != ids[k]
    ensures Restored(kv, ids[..i + 1], RestoredOne(v, ids[i], kv[ids[i]]))
  {
    assert ids[i] !in ids[..i];
    assert ids[..i + 1] == ids[..i] + [ids[i]];
    RebuiltNext(v, ids[i], kv[ids[i]]);
    assert v.index[ids[i] := kv[ids[i]]] == Part(kv, ids[..i + 1]);
  }

  lemma RestoredAll(kv: Workers, ids: seq<string>, v: Views)
    requires Restored(kv, ids, v) && forall id :: id in ids <==> id in kv
    ensures Rehydrated(kv, v)
  {
    assert Part(kv, ids) == kv;
  }

  // ------------------------------------------------------------------
  // Retiring workers one at a time

  lemma CountersApart(v: Views, counters: map<string, int>)
    requires AgreeOnAll(v) && MembersKnown(v)
    ensures AgreeOnAll(v.(counters := counters)) && MembersKnown(v.(counters := counters))
  {
    forall id ensures AgreeOn(v.(counters := counters), id) {
      assert AgreeOn(v, id);
    }
  }

  lemma RetiredOne(v: Views, id: string, status: WorkerStatus)
    requires id in v.kv && id in v.index
    ensures Retired(v, {id}, status) == v.(kv := v.kv[id := v.kv[id].(status := status)],
                                           index := v.index[id := v.index[id].(status := status)], live := v.live - {id})
  {
  }

  lemma OneMoreRetired(v: Views, done: set<string>, id: string, status: WorkerStatus)
    requires id in v.kv && id in v.index && !status.ACTIVE?
    ensures var some, more := Retired(v, done, status), Retired(v, done + {id}, status);
            more == some.(kv := some.kv[id := some.kv[id].(status := status)], index := some.index[id := some.index[id].(status := status)],
                          live := some.live - {id})
  {
  }
}
