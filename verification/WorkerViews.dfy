/** The three views of worker liveness - the persisted records, the worker
    manager's index and the live leases - and what every change does to them. */
module WorkerViews {
  import opened Sequences
  import opened Coordinator

  type Workers = map<string, Worker>

  datatype Views = Views(kv: Workers, index: Workers, live: set<string>, members: map<string, set<string>>, counters: map<string, int>)

  predicate IsActive(workers: Workers, id: string) { id in workers && workers[id].status.ACTIVE? }

  function MembersOf(members: map<string, set<string>>, run: string): set<string>
  {
    if run in members then members[run] else {}
  }

  /** The next free rank: above every rank registered in the run, and no higher
      than needed. */
  ghost predicate CounterIs(kv: Workers, run: string, next: int)
  {
    && 0 <= next
    && (forall id :: id in kv && kv[id].runId == run ==> kv[id].rank < next)
    && (next == 0 || exists id :: id in kv && kv[id].runId == run && kv[id].rank + 1 == next)
  }

  ghost predicate HasWorkers(kv: Workers, run: string)
  {
    exists id :: id in kv && kv[id].runId == run
  }

  ghost predicate Counted(kv: Workers, counters: map<string, int>)
  {
    forall run :: (run in counters <==> HasWorkers(kv, run)) && (run in counters ==> CounterIs(kv, run, counters[run]))
  }

  /** Where the index and the record speak of one worker: same run and rank, and
      ACTIVE in both, with a live lease, or in neither, without one. */
  ghost predicate AgreeOn(v: Views, id: string)
  {
    && (id in v.kv <==> id in v.index)
    && (id in v.kv ==> v.kv[id].runId == v.index[id].runId && v.kv[id].rank == v.index[id].rank)
    && (IsActive(v.kv, id) <==> IsActive(v.index, id))
    && (IsActive(v.kv, id) <==> id in v.live)
    && (IsActive(v.kv, id) ==> v.kv[id] == v.index[id] && id in MembersOf(v.members, v.kv[id].runId))
  }

  /** At most one ACTIVE worker holds a rank of a run. */
  ghost predicate RanksUnique(kv: Workers)
  {
    forall a, b :: IsActive(kv, a) && IsActive(kv, b) && kv[a].runId == kv[b].runId && kv[a].rank == kv[b].rank ==> a == b
  }

  ghost predicate MembersKnown(v: Views)
  {
    forall run, id :: id in MembersOf(v.members, run) ==> id in v.index && v.index[id].runId == run
  }

  ghost predicate AgreeOnAll(v: Views)
  {
    forall id {:trigger AgreeOn(v, id)} :: AgreeOn(v, id)
  }

  ghost predicate Agree(v: Views)
  {
    && AgreeOnAll(v)
    && RanksUnique(v.kv) && MembersKnown(v) && Counted(v.kv, v.counters)
  }

  // ------------------------------------------------------------------
  // The changes

  function WithStatus(workers: Workers, ids: set<string>, status: WorkerStatus): (changed: Workers)
    ensures changed.Keys == workers.Keys
  {
    map id | id in workers :: if id in ids then workers[id].(status := status) else workers[id]
  }

  /** These workers are no longer active in any view. */
  function Retired(v: Views, ids: set<string>, status: WorkerStatus): Views
  {
    v.(kv := WithStatus(v.kv, ids, status), index := WithStatus(v.index, ids, status), live := v.live - ids)
  }

  /** The run's active workers that hold the rank. */
  function Holders(v: Views, run: string, rank: int): set<string>
  {
    set id | id in MembersOf(v.members, run) && id in v.index && v.index[id].rank == rank && v.index[id].status.ACTIVE?
  }

  function Counter(counters: map<string, int>, run: string): int
  {
    if run in counters then counters[run] else 0
  }

  /** The rank a registration gets. */
  function RankFor(v: Views, run: string, rank: Option<int>): int
  {
    if rank.Some? then rank.value else Counter(v.counters, run)
  }

  function Max(a: int, b: int): int { if a >= b then a else b }

  function Registered(v: Views, id: string, run: string, rank: Option<int>, now: int): Views
  {
    var v' := if rank.Some? then Retired(v, Holders(v, run, rank.value), SUPERSEDED) else v;
    Added(v', id, Worker(run, RankFor(v, run, rank), ACTIVE, now, 0))
  }

  function Deregistered(v: Views, id: string): Views
  {
    if id !in v.index then v.(live := v.live - {id})
    else
      var run := v.index[id].runId;
      var v' := Retired(v, {id}, DEREGISTERED);
      if run in v.members then v'.(members := v'.members[run := v'.members[run] - {id}]) else v'
  }

  function Beaten(v: Views, id: string, step: int, now: int): Views
  {
    if !IsActive(v.index, id) || id !in v.kv || v.kv[id].runId != v.index[id].runId then v
    else
      var worker := v.kv[id].(lastHeartbeat := now, currentStep := step, status := ACTIVE);
      v.(kv := v.kv[id := worker], index := v.index[id := worker])
  }

  /** The lease has expired: dead everywhere. */
  function Expired(v: Views, id: string): Views { Retired(v, {id}, DEAD) }

  function OfRun(workers: Workers, run: string): set<string>
  {
    set id | id in workers && workers[id].runId == run
  }

  function ActiveOf(workers: Workers, run: string): set<string>
  {
    set id | id in workers && workers[id].runId == run && workers[id].status.ACTIVE?
  }

  /** A group restart: the run's active records become DEAD, its indexed workers
      DEAD whatever they were, and its leases go. */
  function GroupRestarted(v: Views, run: string): Views
  {
    v.(kv := WithStatus(v.kv, ActiveOf(v.kv, run), DEAD), index := WithStatus(v.index, OfRun(v.kv, run), DEAD),
       live := v.live - OfRun(v.kv, run))
  }

  /** What a restarted manager rebuilds from the records. */
  ghost predicate Rehydrated(kv: Workers, v: Views)
  {
    && v.kv == kv && v.index == kv && v.live == (set id | id in kv && kv[id].status.ACTIVE?)
    && (forall run, id :: id in MembersOf(v.members, run) <==> id in kv && kv[id].runId == run)
    && Counted(kv, v.counters)
  }

  // ------------------------------------------------------------------
  // Every change keeps the views in agreement

  lemma RetiredKnown(v: Views, ids: set<string>, status: WorkerStatus)
    requires AgreeOnAll(v) && MembersKnown(v) && !status.ACTIVE?
    ensures AgreeOnAll(Retired(v, ids, status)) && MembersKnown(Retired(v, ids, status))
  {
    var v' := Retired(v, ids, status);
    forall id ensures AgreeOn(v', id) {
      assert AgreeOn(v, id);
    }
  }

  lemma RetiredAgree(v: Views, ids: set<string>, status: WorkerStatus)
    requires Agree(v) && !status.ACTIVE?
    ensures Agree(Retired(v, ids, status))
  {
    var v' := Retired(v, ids, status);
    RetiredKnown(v, ids, status);
    assert forall a :: IsActive(v'.kv, a) ==> IsActive(v.kv, a) && v'.kv[a] == v.kv[a];
    CountedAfter(v.kv, v'.kv, v.counters);
  }

  /** Statuses do not matter to the counters. */
  lemma CountedAfter(kv: Workers, kv': Workers, counters: map<string, int>)
    requires Counted(kv, counters) && kv'.Keys == kv.Keys
    requires forall id :: id in kv ==> kv'[id].runId == kv[id].runId && kv'[id].rank == kv[id].rank
    ensures Counted(kv', counters)
  {
    forall run
      ensures run in counters <==> HasWorkers(kv', run)
      ensures run in counters ==> CounterIs(kv', run, counters[run])
    {
      if HasWorkers(kv, run) { var id :| id in kv && kv[id].runId == run; assert kv'[id].runId == run; }
      if HasWorkers(kv', run) { var id :| id in kv' && kv'[id].runId == run; assert kv[id].runId == run; }
      if run in counters && counters[run] != 0 {
        var id :| id in kv && kv[id].runId == run && kv[id].rank + 1 == counters[run];
        assert kv'[id].rank + 1 == counters[run];
      }
    }
  }

  lemma CountedWithNew(kv: Workers, counters: map<string, int>, id: string, worker: Worker)
    requires Counted(kv, counters) && id !in kv
    ensures Counted(kv[id := worker], counters[worker.runId := Max(Counter(counters, worker.runId), worker.rank + 1)])
  {
    var kv', counters' := kv[id := worker], counters[worker.runId := Max(Counter(counters, worker.runId), worker.rank + 1)];
    forall run
      ensures run in counters' <==> HasWorkers(kv', run)
      ensures run in counters' ==> CounterIs(kv', run, counters'[run])
    {
      if HasWorkers(kv, run) { var other :| other in kv && kv[other].runId == run; assert kv'[other].runId == run; }
      if run == worker.runId {
        assert kv'[id].runId == run;
        if counters'[run] != 0 && counters'[run] != worker.rank + 1 {
          var other :| other in kv && kv[other].runId == run && kv[other].rank + 1 == counters[run];
          assert kv'[other].rank + 1 == counters'[run];
        }
      } else if run in counters && counters[run] != 0 {
        var other :| other in kv && kv[other].runId == run && kv[other].rank + 1 == counters[run];
        assert kv'[other].rank + 1 == counters'[run];
      }
    }
  }

  /** A new active worker in all views. */
  function Added(v: Views, id: string, worker: Worker): Views
  {
    v.(kv := v.kv[id := worker], index := v.index[id := worker], live := v.live + {id},
       members := v.members[worker.runId := MembersOf(v.members, worker.runId) + {id}],
       counters := v.counters[worker.runId := Max(Counter(v.counters, worker.runId), worker.rank + 1)])
  }

  lemma AddedMembers(v: Views, id: string, worker: Worker)
    requires MembersKnown(v) && id !in v.index
    ensures MembersKnown(Added(v, id, worker))
  {
    var v' := Added(v, id, worker);
    forall run, other | other in MembersOf(v'.members, run) ensures other in v'.index && v'.index[other].runId == run {
      assert other in MembersOf(v.members, run) || other == id;
    }
  }

  lemma AddedRanks(kv: Workers, id: string, worker: Worker)
    requires RanksUnique(kv) && id !in kv
    requires forall other :: IsActive(kv, other) && kv[other].runId == worker.runId ==> kv[other].rank != worker.rank
    ensures RanksUnique(kv[id := worker])
  {
    assert forall a :: a != id && IsActive(kv[id := worker], a) ==> IsActive(kv, a);
  }

  lemma AddedViews(v: Views, id: string, worker: Worker)
    requires AgreeOnAll(v) && id !in v.kv && worker.status.ACTIVE?
    ensures AgreeOnAll(Added(v, id, worker)) && id !in v.index
  {
    var v' := Added(v, id, worker);
    forall other ensures AgreeOn(v', other) {
      assert AgreeOn(v, other);
    }
    assert AgreeOn(v, id);
  }

  /** A rank nobody active holds can be given to a new worker. */
  lemma AddedAgree(v: Views, id: string, worker: Worker)
    requires Agree(v) && id !in v.kv && worker.status.ACTIVE?
    requires forall other :: IsActive(v.kv, other) && v.kv[other].runId == worker.runId ==> v.kv[other].rank != worker.rank
    ensures Agree(Added(v, id, worker))
  {
    AddedViews(v, id, worker);
    AddedRanks(v.kv, id, worker);
    CountedWithNew(v.kv, v.counters, id, worker);
    AddedMembers(v, id, worker);
  }

  lemma RegisteredAgree(v: Views, id: string, run: string, rank: Option<int>, now: int)
    requires Agree(v) && id !in v.kv
    ensures Agree(Registered(v, id, run, rank, now))
  {
    var worker := Worker(run, RankFor(v, run, rank), ACTIVE, now, 0);
    if rank.Some? {
      var v' := Retired(v, Holders(v, run, rank.value), SUPERSEDED);
      RetiredAgree(v, Holders(v, run, rank.value), SUPERSEDED);
      forall other | IsActive(v'.kv, other) && v'.kv[other].runId == run ensures v'.kv[other].rank != worker.rank {
        assert AgreeOn(v, other);
      }
      AddedAgree(v', id, worker);
    } else {
      AutoRankFree(v, run);
      AddedAgree(v, id, worker);
    }
  }

  lemma AutoRankFree(v: Views, run: string)
    requires Agree(v)
    ensures forall other :: other in v.kv && v.kv[other].runId == run ==> v.kv[other].rank < Counter(v.counters, run)
  {
    forall other | other in v.kv && v.kv[other].runId == run ensures v.kv[other].rank < Counter(v.counters, run) {
      assert HasWorkers(v.kv, run);
      assert CounterIs(v.kv, run, v.counters[run]);
    }
  }

  lemma DeregisteredAgree(v: Views, id: string)
    requires Agree(v)
    ensures Agree(Deregistered(v, id))
  {
    assert AgreeOn(v, id);
    if id in v.index {
      var v', v'' := Retired(v, {id}, DEREGISTERED), Deregistered(v, id);
      RetiredAgree(v, {id}, DEREGISTERED);
      forall other ensures AgreeOn(v'', other) {
        assert AgreeOn(v', other) && AgreeOn(v', id);
      }
      forall run, other | other in MembersOf(v''.members, run) ensures other in v''.index && v''.index[other].runId == run {
        assert other in MembersOf(v'.members, run);
      }
    } else {
      assert v.live - {id} == v.live;
    }
  }

  lemma BeatenAgree(v: Views, id: string, step: int, now: int)
    requires Agree(v)
    ensures Agree(Beaten(v, id, step, now))
  {
    assert AgreeOn(v, id);
    var v' := Beaten(v, id, step, now);
    forall other ensures AgreeOn(v', other) {
      assert AgreeOn(v, other);
    }
    assert forall a :: IsActive(v'.kv, a) ==> IsActive(v.kv, a) && v'.kv[a].runId == v.kv[a].runId && v'.kv[a].rank == v.kv[a].rank;
    CountedAfter(v.kv, v'.kv, v.counters);
  }

  lemma GroupRestartedAgree(v: Views, run: string)
    requires Agree(v)
    ensures Agree(GroupRestarted(v, run)) && ActiveOf(GroupRestarted(v, run).kv, run) == {}
    ensures GroupRestarted(v, run).live == set id | id in v.live && id in v.kv && v.kv[id].runId != run
  {
    var v' := GroupRestarted(v, run);
    forall id ensures AgreeOn(v', id) {
      assert AgreeOn(v, id);
    }
    assert forall a :: IsActive(v'.kv, a) ==> IsActive(v.kv, a) && v'.kv[a] == v.kv[a];
    CountedAfter(v.kv, v'.kv, v.counters);
    forall id | id in v.live ensures id in v.kv {
      assert AgreeOn(v, id);
    }
  }

  /** A rehydrated manager agrees with the records, and with the manager it
      replaces: the same workers in the same runs and ranks, active or not, the
      same rank counters, and the same active members. */
  lemma RehydratedAgree(v: Views, v': Views)
    requires Agree(v) && Rehydrated(v.kv, v')
    ensures Agree(v') && v'.live == v.live && v'.counters == v.counters && v'.index.Keys == v.index.Keys
    ensures forall id :: id in v.index ==> SameWorker(v'.index[id], v.index[id])
    ensures forall run, id :: IsActive(v.kv, id) ==> (id in MembersOf(v'.members, run) <==> id in MembersOf(v.members, run))
  {
    forall id ensures AgreeOn(v', id) {
      assert AgreeOn(v, id);
    }
    forall id
      ensures id in v'.live <==> id in v.live
      ensures id in v'.index <==> id in v.index
      ensures id in v.index ==> SameWorker(v'.index[id], v.index[id])
    {
      assert AgreeOn(v, id) && AgreeOn(v', id);
    }
    forall run ensures run in v'.counters <==> run in v.counters
      ensures run in v.counters ==> v'.counters[run] == v.counters[run]
    {
      if run in v.counters { CounterUnique(v.kv, run, v.counters[run], v'.counters[run]); }
    }
    forall run, id | IsActive(v.kv, id) ensures id in MembersOf(v'.members, run) <==> id in MembersOf(v.members, run) {
      assert AgreeOn(v, id);
    }
  }

  /** Equal, except that two inactive workers may differ in why they are. */
  predicate SameWorker(a: Worker, b: Worker)
  {
    a.runId == b.runId && a.rank == b.rank && (a.status.ACTIVE? <==> b.status.ACTIVE?) && (a.status.ACTIVE? ==> a == b)
  }

  lemma CounterUnique(kv: Workers, run: string, a: int, b: int)
    requires CounterIs(kv, run, a) && CounterIs(kv, run, b)
    ensures a == b
  {
  }

  // ------------------------------------------------------------------
  // Whole runs

  datatype Action =
    | Register(id: string, run: string, rank: Option<int>, now: int)
    | Beat(id: string, step: int, now: int)
    | Deregister(id: string)
    | Expire(id: string)
    | RestartGroup(run: string)
    | RestartManager

  /** Ids of new workers are random and have never been used. */
  ghost predicate Step(v: Views, a: Action, v': Views)
  {
    match a
    case Register(id, run, rank, now) => id !in v.kv && v' == Registered(v, id, run, rank, now)
    case Beat(id, step, now) => v' == Beaten(v, id, step, now)
    case Deregister(id) => v' == Deregistered(v, id)
    case Expire(id) => v' == Expired(v, id)
    case RestartGroup(run) => v' == GroupRestarted(v, run)
    case RestartManager => Rehydrated(v.kv, v')
  }

  ghost predicate History(states: seq<Views>, actions: seq<Action>)
  {
    && |states| == |actions| + 1 && states[0] == Views(map[], map[], {}, map[], map[])
    && forall i :: 0 <= i < |actions| ==> Step(states[i], actions[i], states[i + 1])
  }

  lemma StepAgrees(v: Views, a: Action, v': Views)
    requires Agree(v) && Step(v, a, v')
    ensures Agree(v')
  {
    match a
    case Register(id, run, rank, now) => RegisteredAgree(v, id, run, rank, now);
    case Beat(id, step, now) => BeatenAgree(v, id, step, now);
    case Deregister(id) => DeregisteredAgree(v, id);
    case Expire(id) => RetiredAgree(v, {id}, DEAD);
    case RestartGroup(run) => GroupRestartedAgree(v, run);
    case RestartManager => RehydratedAgree(v, v');
  }

  /** After every sequence of changes the three views agree, no rank of a run is
      held by two active workers, and every counter is just above the ranks. */
  lemma {:induction false} AlwaysAgree(states: seq<Views>, actions: seq<Action>, i: nat)
    requires History(states, actions) && i < |states|
    ensures Agree(states[i])
  {
    if i > 0 {
      AlwaysAgree(states, actions, i - 1);
      assert Step(states[i - 1], actions[i - 1], states[i - 1 + 1]);
      StepAgrees(states[i - 1], actions[i - 1], states[i]);
    }
  }

  /** Records are never removed, keep their run and rank, and never become
      active again. */
  ghost predicate NoRevival(kv: Workers, kv': Workers)
  {
    forall id :: id in kv ==> id in kv' && kv'[id].runId == kv[id].runId && kv'[id].rank == kv[id].rank
                              && (IsActive(kv', id) ==> IsActive(kv, id))
  }

  lemma StepRevivesNone(v: Views, a: Action, v': Views)
    requires Agree(v) && Step(v, a, v')
    ensures NoRevival(v.kv, v'.kv)
  {
    match a
    case Beat(id, step, now) => BeatenRevivesNone(v, id, step, now);
    case Register(id, run, rank, now) => RegisteredRevivesNone(v, id, run, rank, now);
    case Deregister(id) => DeregisteredRevivesNone(v, id);
    case _ =>
  }

  lemma BeatenRevivesNone(v: Views, id: string, step: int, now: int)
    requires Agree(v)
    ensures NoRevival(v.kv, Beaten(v, id, step, now).kv)
  {
    assert AgreeOn(v, id);
  }

  lemma DeregisteredRevivesNone(v: Views, id: string)
    ensures NoRevival(v.kv, Deregistered(v, id).kv)
  {
  }

  lemma RegisteredRevivesNone(v: Views, id: string, run: string, rank: Option<int>, now: int)
    requires id !in v.kv
    ensures NoRevival(v.kv, Registered(v, id, run, rank, now).kv)
  {
  }

  lemma InactiveInAllViews(v: Views, id: string)
    requires AgreeOnAll(v) && id in v.kv && !IsActive(v.kv, id)
    ensures !IsActive(v.index, id) && id !in v.live
  {
    assert AgreeOn(v, id);
  }

  lemma StaysInactive(v: Views, a: Action, v': Views, id: string)
    requires Agree(v) && Step(v, a, v') && AgreeOnAll(v') && id in v.kv && !IsActive(v.kv, id)
    ensures id in v'.kv && !IsActive(v'.kv, id) && !IsActive(v'.index, id) && id !in v'.live
  {
    StepRevivesNone(v, a, v');
    InactiveInAllViews(v', id);
  }

  lemma {:induction false} NeverActiveAgain(states: seq<Views>, actions: seq<Action>, i: nat, j: nat, id: string)
    requires History(states, actions) && i <= j < |states|
    requires id in states[i].kv && !states[i].kv[id].status.ACTIVE?
    ensures id in states[j].kv && !IsActive(states[j].kv, id) && !IsActive(states[j].index, id) && id !in states[j].live
  {
    AlwaysAgree(states, actions, j);
    if i < j {
      NeverActiveAgain(states, actions, i, j - 1, id);
      AlwaysAgree(states, actions, j - 1);
      assert Step(states[j - 1], actions[j - 1], states[j - 1 + 1]);
      StaysInactive(states[j - 1], actions[j - 1], states[j], id);
    } else {
      InactiveInAllViews(states[j], id);
    }
  }
}
