/** The monitor's scan over a snapshot of the leases, while the failure
    callbacks it fires change the leases, the workers and the runs. */
module ExpiryScan {
  import opened Sequences
  import opened RunStates
  import opened Coordinator
  import opened Heartbeats
  import opened WorkerViews
  import opened WorkerManager
  import opened GroupRestart
  import opened RestartSlot
  import opened GroupFailure
  import opened FailureAccount
  import opened ScanOrder

  /** The lease names the run of its worker's record. */
  ghost predicate OfWorker(lease: WorkerLease, s: Scene)
  {
    lease.workerId in s.views.live ==> lease.workerId in s.views.kv && s.views.kv[lease.workerId].runId == lease.runId
  }

  /** How a scan began: the scene, the leases on file, the overdue workers. */
  datatype Beginning = Beginning(start: Scene, leases: map<string, WorkerLease>, overdue: set<string>, now: int)

  class FailureMonitor {
    const recovery: RecoveryManager
    const supervisor: GroupSupervisor := recovery.supervisor
    const workerManager: WorkerManager := recovery.supervisor.workerManager
    const heartbeats: HeartbeatManager := recovery.supervisor.workerManager.heartbeats
    const coordinator: Coordinator := recovery.supervisor.workerManager.coordinator

    constructor (recovery: RecoveryManager)
      ensures this.recovery == recovery
    {
      this.recovery := recovery;
    }

    ghost predicate Ready()
      reads coordinator`runs, coordinator`machines, coordinator`persisted, coordinator`owned, coordinator.owned
      reads recovery`recovering, heartbeats`leases, heartbeats`owned, heartbeats.owned
    {
      coordinator.Valid() && heartbeats.Valid() && recovery.recovering == {}
    }

    ghost function Here(): Scene
      reads workerManager`workers, workerManager`runWorkers, workerManager`rankCounters, workerManager.coordinator`workers
      reads workerManager.heartbeats`leases, workerManager.heartbeats`owned, workerManager.heartbeats.owned
      reads coordinator`runs, coordinator`persisted, supervisor`sharedRunId, supervisor`slot, supervisor`calls
      requires workerManager.heartbeats.Valid()
    {
      Scene(workerManager.View(), coordinator.runs, coordinator.persisted, supervisor.GateOf(), supervisor.slot, supervisor.calls)
    }

    /** The worker is dead: lease, record, index. */
    method MarkExpired(lease: WorkerLease)
      requires heartbeats.Valid() && lease in heartbeats.owned && lease.isAlive
      requires lease.workerId in coordinator.workers && coordinator.workers[lease.workerId].runId == lease.runId
      requires lease.workerId in workerManager.workers
      modifies lease`isAlive, coordinator`workers, workerManager`workers
      ensures heartbeats.Valid() && workerManager.View() == Expired(old(workerManager.View()), lease.workerId)
    {
      RetiredOne(workerManager.View(), lease.workerId, DEAD);
      lease.isAlive := false;
      var marked := coordinator.MarkWorkerDead(lease.runId, lease.workerId, DEAD);
      workerManager.OnWorkerFailure(lease.workerId);
    }

    /** Mark the worker dead, then fire the failure callback. */
    method DeclareDead(lease: WorkerLease, now: int) returns (ghost claimed: bool)
      requires recovery.Recovers() && Ready() && workerManager.Valid() && lease in heartbeats.owned && lease.isAlive
      requires lease.workerId in coordinator.workers && coordinator.workers[lease.workerId].runId == lease.runId
      modifies heartbeats`leases, heartbeats.owned`isAlive, workerManager`workers, supervisor`slot, supervisor`calls
      modifies recovery, coordinator, coordinator.owned
      ensures Ready() && fresh(coordinator.owned - old(coordinator.owned))
      ensures OnlyFewer(old(heartbeats.leases), heartbeats.leases)
      ensures Declared(old(Here()), lease.workerId, lease.runId, now, claimed, Here())
    {
      assert AgreeOn(workerManager.View(), lease.workerId);
      RetiredKnown(workerManager.View(), {lease.workerId}, DEAD);
      MarkExpired(lease);
      claimed := FireFailure(lease, now, old(Here()));
    }

    /** The recovery manager is told. */
    method FireFailure(lease: WorkerLease, now: int, ghost before: Scene) returns (ghost claimed: bool)
      requires recovery.Recovers() && Ready() && workerManager.Valid()
      requires Here() == before.(views := Expired(before.views, lease.workerId))
      modifies heartbeats`leases, heartbeats.owned`isAlive, workerManager`workers, supervisor`slot, supervisor`calls
      modifies recovery, coordinator, coordinator.owned
      ensures Ready() && fresh(coordinator.owned - old(coordinator.owned))
      ensures OnlyFewer(old(heartbeats.leases), heartbeats.leases)
      ensures Declared(before, lease.workerId, lease.runId, now, claimed, Here())
    {
      ghost var failed;
      claimed, failed := recovery.OnWorkerFailure(lease.runId, now);
    }

    /** list(leases.items()): the leases as they are when the scan begins. */
    method Snapshot() returns (all: seq<WorkerLease>, ghost order: seq<string>)
      ensures Arranges(order, heartbeats.leases.Keys) && OnFile(all, order)
    {
      all, order := [], [];
      var left := heartbeats.leases.Keys;
      while left != {}
        invariant left <= heartbeats.leases.Keys && Arranges(order, heartbeats.leases.Keys - left) && OnFile(all, order)
      {
        var id :| id in left;
        left := left - {id};
        all, order := all + [heartbeats.leases[id]], order + [id];
      }
    }

    /** The leases of these workers. */
    ghost predicate OnFile(all: seq<WorkerLease>, order: seq<string>)
      reads heartbeats`leases
    {
      |all| == |order| && forall j :: 0 <= j < |order| ==> order[j] in heartbeats.leases && all[j] == heartbeats.leases[order[j]]
    }

    /** The workers whose last heartbeat is too long ago. */
    ghost function Overdue(now: int): (ids: set<string>)
      reads heartbeats`leases, heartbeats.leases.Values`lastHeartbeat
    {
      set id | id in heartbeats.leases && heartbeats.leases[id].IsExpired(heartbeats.deadThreshold, now)
    }

    /** One scan: the leases are looked at one by one, in some order (see Steps), and
        the account of every run is kept (see Progress); no overdue worker has a
        live lease afterwards. */
    method CheckWorkers(now: int) returns (ghost order: seq<string>, ghost gone: set<string>)
      requires recovery.Recovers() && Ready() && Agree(workerManager.View()) && LeasesNameRuns()
      modifies heartbeats`leases, heartbeats.owned`isAlive, workerManager`workers, supervisor`slot, supervisor`calls
      modifies recovery, coordinator, coordinator.owned
      ensures Ready() && fresh(coordinator.owned - old(coordinator.owned))
      ensures Arranges(order, old(heartbeats.leases.Keys)) && Steps(old(Here()), order, now, old(Overdue(now)), Here())
      ensures Scanned(old(Here()), Here(), now, old(Overdue(now)), gone)
    {
      order := ScanLeases(now);
      gone := StepsScanned(old(Here()), order, now, old(Overdue(now)), Here());
    }

    /** A live lease names the run of its worker's record. */
    ghost predicate LeasesNameRuns()
      reads heartbeats`leases, heartbeats.leases.Values`isAlive, coordinator`workers
    {
      forall id :: id in heartbeats.leases && heartbeats.leases[id].isAlive ==>
                     id in coordinator.workers && coordinator.workers[id].runId == heartbeats.leases[id].runId
    }

    method ScanLeases(now: int) returns (ghost order: seq<string>)
      requires recovery.Recovers() && Ready() && Agree(workerManager.View()) && LeasesNameRuns()
      modifies heartbeats`leases, heartbeats.owned`isAlive, workerManager`workers, supervisor`slot, supervisor`calls
      modifies recovery, coordinator, coordinator.owned
      ensures Ready() && fresh(coordinator.owned - old(coordinator.owned))
      ensures Arranges(order, old(heartbeats.leases.Keys)) && Steps(old(Here()), order, now, old(Overdue(now)), Here())
    {
      var snapshot;
      snapshot, order := Snapshot();
      ghost var b := Beginning(Here(), heartbeats.leases, Overdue(now), now);
      SnapshotTaken(b, snapshot, order);
      ghost var scenes := ScanAll(snapshot, now, order, b);
      TraceSteps(b.start, order, now, b.overdue, scenes);
    }

    lemma SnapshotTaken(b: Beginning, snapshot: seq<WorkerLease>, order: seq<string>)
      requires Ready() && LeasesNameRuns() && OnFile(snapshot, order) && Agree(workerManager.View())
      requires b == Beginning(Here(), heartbeats.leases, Overdue(b.now), b.now)
      ensures Taken(b, snapshot, order) && Midway(b, [], [b.start])
    {
    }

    /** The snapshot holds the leases of these workers. */
    ghost predicate Taken(b: Beginning, snapshot: seq<WorkerLease>, ids: seq<string>)
      reads heartbeats`owned, snapshot`lastHeartbeat
    {
      |ids| == |snapshot| && forall j :: 0 <= j < |ids| ==> ids[j] == snapshot[j].workerId && Listed(b, snapshot[j])
    }

    ghost predicate Listed(b: Beginning, lease: WorkerLease)
      reads heartbeats`owned, lease`lastHeartbeat
    {
      && lease in heartbeats.owned && lease.workerId in b.leases && b.leases[lease.workerId] == lease
      && OfWorker(lease, b.start) && (lease.IsExpired(heartbeats.deadThreshold, b.now) <==> lease.workerId in b.overdue)
    }

    /** The scan has got so far, through these scenes. */
    ghost predicate Midway(b: Beginning, before: seq<string>, scenes: seq<Scene>)
      reads workerManager`workers, workerManager`runWorkers, workerManager`rankCounters, coordinator, coordinator.owned
      reads recovery`recovering, heartbeats`leases, heartbeats`owned, heartbeats.owned, supervisor`sharedRunId, supervisor`slot, supervisor`calls
    {
      && Ready() && OnlyFewer(b.leases, heartbeats.leases)
      && Agree(b.start.views) && Trace(b.start, before, b.now, b.overdue, scenes) && scenes[|before|] == Here()
    }

    method ScanAll(snapshot: seq<WorkerLease>, now: int, ghost ids: seq<string>, ghost b: Beginning) returns (ghost scenes: seq<Scene>)
      requires recovery.Recovers() && Midway(b, [], [b.start]) && Taken(b, snapshot, ids) && b.now == now
      modifies heartbeats`leases, heartbeats.owned`isAlive, workerManager`workers, supervisor`slot, supervisor`calls
      modifies recovery, coordinator, coordinator.owned
      ensures Midway(b, ids, scenes) && fresh(coordinator.owned - old(coordinator.owned))
    {
      scenes := [b.start];
      for i := 0 to |snapshot|
        invariant Midway(b, ids[..i], scenes) && fresh(coordinator.owned - old(coordinator.owned))
      {
        scenes := CheckNext(snapshot[i], now, b, ids[..i], scenes);
        assert ids[..i + 1] == ids[..i] + [ids[i]];
      }
      assert ids[..|ids|] == ids;
    }

    /** The next lease of the snapshot. */
    method CheckNext(lease: WorkerLease, now: int, ghost b: Beginning, ghost before: seq<string>, ghost scenes: seq<Scene>)
      returns (ghost more: seq<Scene>)
      requires recovery.Recovers() && Midway(b, before, scenes) && Listed(b, lease) && b.now == now
      modifies heartbeats`leases, heartbeats.owned`isAlive, workerManager`workers, supervisor`slot, supervisor`calls
      modifies recovery, coordinator, coordinator.owned
      ensures Midway(b, before + [lease.workerId], more) && fresh(coordinator.owned - old(coordinator.owned))
    {
      TraceSane(b.start, before, now, b.overdue, scenes);
      DueIfExpired(lease, b);
      CheckLease(lease, now, b.overdue);
      more := scenes + [Here()];
      TraceNext(b.start, before, now, b.overdue, scenes, lease.workerId, Here());
    }

    /** One lease of the snapshot; it may have been removed meanwhile. */
    method CheckLease(lease: WorkerLease, now: int, ghost overdue: set<string>)
      requires recovery.Recovers() && Ready() && Agree(workerManager.View()) && lease in heartbeats.owned
      requires IsDue(Here(), lease.workerId, overdue) <==> lease.isAlive && lease.IsExpired(heartbeats.deadThreshold, now)
      requires lease.isAlive ==> lease.workerId in coordinator.workers && coordinator.workers[lease.workerId].runId == lease.runId
      modifies heartbeats`leases, heartbeats.owned`isAlive, workerManager`workers, supervisor`slot, supervisor`calls
      modifies recovery, coordinator, coordinator.owned
      ensures Ready() && fresh(coordinator.owned - old(coordinator.owned))
      ensures OnlyFewer(old(heartbeats.leases), heartbeats.leases)
      ensures LeaseStep(old(Here()), lease.workerId, now, overdue, Here())
      ensures lease.Seen() == After(old(lease.Seen()), Scan(now), heartbeats.deadThreshold)
    {
      if lease.isAlive && lease.IsExpired(heartbeats.deadThreshold, now) {
        ghost var claimed := Expire(lease, now);
        IsLeaseStep(old(Here()), lease.workerId, lease.runId, now, overdue, claimed, Here());
      }
    }

    /** The lease's own mark and clock decide whether its worker is due. */
    lemma DueIfExpired(lease: WorkerLease, b: Beginning)
      requires heartbeats.Valid() && Sane(b.start, Here()) && OnlyFewer(b.leases, heartbeats.leases) && Listed(b, lease)
      ensures IsDue(Here(), lease.workerId, b.overdue) <==> lease.isAlive && lease.IsExpired(heartbeats.deadThreshold, b.now)
      ensures lease.isAlive ==> lease.workerId in coordinator.workers && coordinator.workers[lease.workerId].runId == lease.runId
    {
      LiveKnown(workerManager.View());
      heartbeats.LiveIffAlive(lease);
    }

    /** Declare the worker of an expired lease dead. */
    method Expire(lease: WorkerLease, now: int) returns (ghost claimed: bool)
      requires recovery.Recovers() && Ready() && Agree(workerManager.View()) && lease in heartbeats.owned && lease.isAlive
      requires lease.workerId in coordinator.workers && coordinator.workers[lease.workerId].runId == lease.runId
      modifies heartbeats`leases, heartbeats.owned`isAlive, workerManager`workers, supervisor`slot, supervisor`calls
      modifies recovery, coordinator, coordinator.owned
      ensures Ready() && fresh(coordinator.owned - old(coordinator.owned))
      ensures OnlyFewer(old(heartbeats.leases), heartbeats.leases)
      ensures Declared(old(Here()), lease.workerId, lease.runId, now, claimed, Here())
      ensures !lease.isAlive
    {
      claimed := DeclareDead(lease, now);
      ExpiredIsDead(lease, old(workerManager.View()), claimed);
    }

    lemma ExpiredIsDead(lease: WorkerLease, v: Views, claimed: bool)
      requires heartbeats.Valid() && lease in heartbeats.owned && Agree(v)
      requires workerManager.View() == ViewsAfter(v, lease.workerId, lease.runId, claimed)
      ensures !lease.isAlive
    {
      DeclaredViews(v, lease.workerId, lease.runId, claimed);
      heartbeats.DeadIfNotLive(lease);
    }
  }
}
