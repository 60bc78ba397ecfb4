/** A scan that fails one run twice: two expired workers of a run that is not the
    supervised one. */
module FailureExample {
  import opened Sequences
  import opened RunStates
  import opened Coordinator
  import opened Heartbeats
  import opened WorkerViews
  import opened WorkerManager
  import opened GroupRestart
  import opened GroupFailure
  import opened FailureAccount
  import opened ExpiryScan

  const WORKERS: set<string> := {"a", "b"}

  const RECORDS: Workers := map["a" := Worker("run", 0, ACTIVE, 0, 0), "b" := Worker("run", 1, ACTIVE, 0, 0)]

  /** Just built from records with unique ranks, all is in agreement. */
  lemma BuiltAgrees(v: Views)
    requires Rehydrated(v.kv, v) && RanksUnique(v.kv)
    ensures Agree(v)
  {
    forall id ensures AgreeOn(v, id) { }
    forall run, id | id in MembersOf(v.members, run) ensures id in v.index && v.index[id].runId == run { }
  }

  lemma RecordsUnique()
    ensures RanksUnique(RECORDS)
  {
  }

  lemma RecordsLive(v: Views)
    requires Rehydrated(RECORDS, v)
    ensures v.live == WORKERS
  {
  }

  lemma RecordsAgree(v: Views)
    requires Rehydrated(RECORDS, v)
    ensures Agree(v) && v.live == WORKERS
  {
    RecordsUnique();
    RecordsLive(v);
    BuiltAgrees(v);
  }

  /** A manager of the two workers, with leases of time 0 and a heartbeat threshold
      of 15 seconds. */
  ghost predicate TwoLeased(m: WorkerManager)
    reads m, m.coordinator`workers, m.heartbeats, m.heartbeats.owned, m.heartbeats.leases.Values
  {
    && m.heartbeats.Valid() && Rehydrated(RECORDS, m.View()) && m.coordinator.workers == RECORDS && m.LeasedAt(0)
    && m.heartbeats.deadThreshold == 15
  }

  /** Everything is wired up, the run is RUNNING and another run is supervised. */
  ghost predicate Set(monitor: FailureMonitor)
    reads monitor.coordinator, monitor.coordinator.owned, monitor.recovery, monitor.workerManager, monitor.heartbeats
    reads monitor.heartbeats.owned, monitor.heartbeats.leases.Values, monitor.supervisor
  {
    && monitor.recovery.Recovers() && monitor.Ready() && TwoLeased(monitor.workerManager)
    && "run" in monitor.coordinator.runs && monitor.coordinator.runs["run"].state == RUNNING
    && "run" in monitor.coordinator.persisted && monitor.coordinator.persisted["run"] == [CREATED, RUNNING]
    && monitor.supervisor.GateOf() == Gate(true, "other", 2)
  }

  /** The store after the run was started and its workers registered. */
  method Store() returns (coordinator: Coordinator)
    ensures fresh(coordinator) && fresh(coordinator.owned) && coordinator.Valid() && coordinator.workers == RECORDS
    ensures "run" in coordinator.runs && coordinator.runs["run"].state == RUNNING
    ensures "run" in coordinator.persisted && coordinator.persisted["run"] == [CREATED, RUNNING]
  {
    coordinator := new Coordinator();
    coordinator.CreateRun("run", 2, 0);
    var started := coordinator.TransitionRun("run", RUNNING, 0);
    var first := coordinator.RegisterWorker("a", "run", 0, 0);
    var second := coordinator.RegisterWorker("b", "run", 1, 0);
  }

  method Manager(coordinator: Coordinator) returns (m: WorkerManager)
    requires coordinator.workers == RECORDS
    ensures fresh(m) && fresh(m.heartbeats) && fresh(m.heartbeats.owned) && m.coordinator == coordinator && TwoLeased(m)
  {
    var heartbeats := new HeartbeatManager(15);
    m := new WorkerManager(coordinator, heartbeats, 0);
  }

  method Wire(m: WorkerManager) returns (monitor: FailureMonitor)
    ensures fresh(monitor.recovery) && fresh(monitor.supervisor) && monitor.supervisor.workerManager == m
    ensures monitor.recovery.Recovers() && monitor.recovery.recovering == {} && monitor.supervisor.GateOf() == Gate(true, "other", 2)
  {
    var supervisor := new GroupSupervisor(m, 2, true, "other", true);
    var recovery := new RecoveryManager(supervisor, true, true);
    monitor := new FailureMonitor(recovery);
  }

  method SetUp() returns (monitor: FailureMonitor)
    ensures fresh(monitor.workerManager) && fresh(monitor.heartbeats) && fresh(monitor.heartbeats.owned)
    ensures fresh(monitor.coordinator) && fresh(monitor.coordinator.owned) && fresh(monitor.recovery) && fresh(monitor.supervisor)
    ensures Set(monitor)
  {
    var coordinator := Store();
    var m := Manager(coordinator);
    monitor := Wire(m);
  }

  /** The scene and the overdue workers when the scan begins. */
  lemma BothOverdue(monitor: FailureMonitor, s: Scene)
    requires Set(monitor) && s == monitor.Here()
    ensures Agree(s.views)
    ensures monitor.Overdue(100) == WORKERS && Due(s, WORKERS, "run") == WORKERS
    ensures AtWork(s.runs, "run") && !Claimable(s.gate, s.slot, "run", 100) && s.persisted["run"] == [CREATED, RUNNING]
  {
    RecordsAgree(s.views);
    assert s.views.kv["a"].runId == "run" && s.views.kv["b"].runId == "run";
  }

  lemma TwoRounds()
    ensures |WORKERS| == 2 && [CREATED, RUNNING] + Rounds(2) == [CREATED, RUNNING, RunState.FAILED, RECOVERING, RunState.FAILED, RECOVERING]
  {
    assert Rounds(1) == [RunState.FAILED, RECOVERING];
    assert Rounds(2) == Rounds(1) + [RunState.FAILED, RECOVERING];
  }

  /** Scanned at time 100, the run fails and starts to recover twice. */
  method TwoWorkersFailTwice() returns (monitor: FailureMonitor)
    ensures "run" in monitor.coordinator.persisted
    ensures monitor.coordinator.persisted["run"] == [CREATED, RUNNING, RunState.FAILED, RECOVERING, RunState.FAILED, RECOVERING]
  {
    monitor := SetUp();
    ghost var s := monitor.Here();
    BothOverdue(monitor, s);
    ghost var order, gone := monitor.CheckWorkers(100);
    FailsPerWorker(s, monitor.Here(), 100, WORKERS, gone, "run");
    TwoRounds();
  }
}
