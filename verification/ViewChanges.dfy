/** What every change of the worker views does, told worker by worker. */
module ViewChanges {
  import opened Sequences
  import opened Coordinator
  import opened WorkerViews

  /** Record, index entry and lease of this worker are as they were. */
  ghost predicate SameFor(v: Views, v': Views, id: string)
  {
    && (id in v'.kv <==> id in v.kv) && (id in v.kv ==> v'.kv[id] == v.kv[id])
    && (id in v'.index <==> id in v.index) && (id in v.index ==> v'.index[id] == v.index[id])
    && (id in v'.live <==> id in v.live)
  }

  /** The worker has this status in record and index, all else as before, and no
      lease. */
  ghost predicate EndedFor(v: Views, v': Views, id: string, status: WorkerStatus)
  {
    && id in v.kv && id in v'.kv && v'.kv[id] == v.kv[id].(status := status)
    && id in v.index && id in v'.index && v'.index[id] == v.index[id].(status := status)
    && id !in v'.live
  }

  /** Only this worker leaves: DEREGISTERED in both, without a lease, in no run's
      members; one that is not known changes nothing. */
  lemma DeregisteredExactly(v: Views, id: string)
    requires Agree(v)
    ensures var v' := Deregistered(v, id);
            && (id in v.kv ==> EndedFor(v, v', id, DEREGISTERED)) && (id !in v.kv ==> v'.live == v.live && v'.kv == v.kv && v'.index == v.index)
            && (forall other :: other != id ==> SameFor(v, v', other))
            && (forall run, other :: other in MembersOf(v'.members, run) <==> other in MembersOf(v.members, run) && other != id)
            && v'.counters == v.counters
  {
    assert AgreeOn(v, id);
  }

  /** A registration with an explicit rank ends as SUPERSEDED whoever active holds
      that rank of the run, and nobody else; one without ends nobody. */
  lemma RegisteredOthers(v: Views, id: string, run: string, rank: Option<int>, now: int, other: string)
    requires Agree(v) && id !in v.kv && other != id
    ensures var v' := Registered(v, id, run, rank, now);
            if rank.Some? && other in v.kv && v.kv[other].status.ACTIVE? && v.kv[other].runId == run && v.kv[other].rank == rank.value
            then EndedFor(v, v', other, SUPERSEDED) else SameFor(v, v', other)
  {
    assert AgreeOn(v, other);
  }

  /** The new worker: active in record, index and leases and a member of its run,
      under the given rank, or one above all ranks ever given out in the run. */
  lemma RegisteredSelf(v: Views, id: string, run: string, rank: Option<int>, now: int)
    requires Agree(v) && id !in v.kv
    ensures var v' := Registered(v, id, run, rank, now);
            && id in v'.kv && id in v'.index && v'.index[id] == v'.kv[id] && id in v'.live
            && v'.kv[id].runId == run && v'.kv[id].status.ACTIVE? && v'.kv[id].lastHeartbeat == now && v'.kv[id].currentStep == 0
            && (rank.Some? ==> v'.kv[id].rank == rank.value)
            && (rank.None? ==> forall other :: other in v.kv && v.kv[other].runId == run ==> v.kv[other].rank < v'.kv[id].rank)
            && (rank.None? && (forall other :: other in v.kv ==> v.kv[other].runId != run) ==> v'.kv[id].rank == 0)
    ensures var v' := Registered(v, id, run, rank, now);
            forall r, other :: other in MembersOf(v'.members, r) <==> other in MembersOf(v.members, r) || (other == id && r == run)
  {
    AutoRankFree(v, run);
    if run in v.counters { assert HasWorkers(v.kv, run); }
  }

  /** A beat of an active worker sets time and step in record and index. */
  lemma BeatenExactly(v: Views, id: string, step: int, now: int, other: string)
    requires Agree(v)
    ensures var v' := Beaten(v, id, step, now);
            && (if other == id && IsActive(v.kv, id)
                then id in v'.kv && id in v'.index && v'.kv[id] == v.kv[id].(lastHeartbeat := now, currentStep := step) && v'.index[id] == v'.kv[id]
                else SameFor(v, v', other))
            && v'.live == v.live && v'.members == v.members && v'.counters == v.counters
  {
    assert AgreeOn(v, id) && AgreeOn(v, other);
  }

  /** An expired lease makes its worker DEAD, and only that one. */
  lemma ExpiredExactly(v: Views, id: string, other: string)
    requires Agree(v) && id in v.kv
    ensures var v' := Expired(v, id);
            && (if other == id then EndedFor(v, v', id, DEAD) else SameFor(v, v', other))
            && v'.members == v.members && v'.counters == v.counters
  {
    assert AgreeOn(v, id);
  }

  /** A group restart makes the run's active workers DEAD in their records and all
      of its workers DEAD in the index, takes their leases, and leaves the workers
      of other runs alone. */
  lemma GroupRestartedExactly(v: Views, run: string, id: string)
    requires Agree(v)
    ensures var v' := GroupRestarted(v, run);
            && (if id in v.kv && v.kv[id].runId == run
                then && id in v'.kv && v'.kv[id] == (if v.kv[id].status.ACTIVE? then v.kv[id].(status := DEAD) else v.kv[id])
                     && id in v.index && id in v'.index && v'.index[id] == v.index[id].(status := DEAD) && id !in v'.live
                else SameFor(v, v', id))
            && v'.members == v.members && v'.counters == v.counters
  {
    assert AgreeOn(v, id);
  }
}
