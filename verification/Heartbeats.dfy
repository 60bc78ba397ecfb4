/** Leases: when each worker was last heard of, and whether it still counts as
    alive. */
module Heartbeats {
  import opened Sequences

  /** More than the threshold has passed since the last heartbeat. */
  predicate Overdue(lastHeartbeat: int, threshold: int, now: int) { now - lastHeartbeat > threshold }

  datatype Event = Beat(at: int) | Scan(at: int)

  datatype Lease = Lease(last: int, alive: bool)

  /** Heartbeats renew a live lease only; a scan kills an overdue one. */
  function After(lease: Lease, e: Event, threshold: int): Lease
  {
    match e
    case Beat(at) => if lease.alive then lease.(last := at) else lease
    case Scan(at) => lease.(alive := lease.alive && !Overdue(lease.last, threshold, at))
  }

  class WorkerLease {
    const workerId: string
    const runId: string
    var lastHeartbeat: int
    var lastStep: int
    var isAlive: bool

    constructor (workerId: string, runId: string, now: int)
      ensures this.workerId == workerId && this.runId == runId && lastHeartbeat == now && lastStep == 0 && isAlive
    {
      this.workerId, this.runId, lastHeartbeat, lastStep, isAlive := workerId, runId, now, 0, true;
    }

    /** What the lease says of its worker. */
    function Seen(): Lease
      reads this`lastHeartbeat, this`isAlive
    {
      Lease(lastHeartbeat, isAlive)
    }

    method Touch(step: int, now: int)
      modifies this
      ensures lastHeartbeat == now && lastStep == step && isAlive
    {
      lastHeartbeat, lastStep, isAlive := now, step, true;
    }

    predicate IsExpired(timeout: int, now: int)
      reads this`lastHeartbeat
    {
      Overdue(lastHeartbeat, timeout, now)
    }
  }

  /** Leases are only removed. */
  ghost predicate OnlyFewer(leases: map<string, WorkerLease>, leases': map<string, WorkerLease>)
  {
    forall id :: id in leases' ==> id in leases && leases'[id] == leases[id]
  }

  /** One lease has taken the step of a heartbeat, no other has changed. */
  ghost predicate RenewedOnly(table: map<string, Lease>, table': map<string, Lease>, id: string, now: int, threshold: int)
  {
    id in table && table' == table[id := After(table[id], Event.Beat(now), threshold)]
  }

  class HeartbeatManager {
    const deadThreshold: int
    var leases: map<string, WorkerLease>
    /** All leases ever handed out, also those removed from the map, but not those
        replaced in it. */
    ghost var owned: set<WorkerLease>

    /** A lease in the map is filed under its worker's id; one that was removed
        is dead. */
    ghost predicate Valid()
      reads this`leases, this`owned, owned
    {
      Filed()
    }

    ghost predicate Filed()
      reads this`leases, this`owned, owned
    {
      && (forall id :: id in leases ==> leases[id] in owned && leases[id].workerId == id)
      && (forall lease :: lease in owned && lease.isAlive ==> lease.workerId in leases && leases[lease.workerId] == lease)
    }

    /** The workers with a live lease. */
    ghost function Live(): (ids: set<string>)
      reads this`leases, this`owned, owned
      requires Valid()
    {
      set id | id in leases && leases[id].isAlive
    }

    /** What each lease on file says. */
    ghost function Table(): (table: map<string, Lease>)
      reads this`leases, leases.Values`lastHeartbeat, leases.Values`isAlive
    {
      map id | id in leases :: leases[id].Seen()
    }

    constructor (deadThreshold: int)
      ensures Valid() && this.deadThreshold == deadThreshold && leases == map[] && owned == {}
    {
      this.deadThreshold, leases, owned := deadThreshold, map[], {};
    }

    /** A fresh lease. One that was on file under the same id is replaced: nothing
        marks it dead, and it is not accounted for any more. */
    method Register(id: string, run: string, now: int)
      requires Valid()
      modifies this
      ensures Valid() && fresh(owned - old(owned))
      ensures leases.Keys == old(leases.Keys) + {id} && fresh(leases[id])
      ensures leases[id].runId == run && leases[id].lastHeartbeat == now && leases[id].lastStep == 0
      ensures forall other :: other in old(leases) && other != id ==> leases[other] == old(leases)[other]
      ensures Live() == old(Live()) + {id} && Table() == old(Table())[id := Lease(now, true)]
      ensures owned == old(if id in leases then owned - {leases[id]} else owned) + {leases[id]}
      ensures id in old(leases) ==> old(leases)[id].Seen() == old(leases[id].Seen())
    {
      var lease := new WorkerLease(id, run, now);
      owned := (if id in leases then owned - {leases[id]} else owned) + {lease};
      leases := leases[id := lease];
    }

    /** Remove the lease and mark the removed object dead, for scans that still
        hold it. */
    method Unregister(id: string)
      requires Valid()
      modifies this`leases, owned`isAlive
      ensures Valid() && leases == old(leases) - {id}
      ensures Live() == old(Live()) - {id} && Table() == old(Table()) - {id}
      ensures forall lease :: lease in owned ==> lease.lastHeartbeat == old(lease.lastHeartbeat)
                                                 && lease.isAlive == (old(lease.isAlive) && lease.workerId != id)
    {
      if id in leases {
        leases[id].isAlive := false;
        leases := leases - {id};
      }
    }

    /** A lease on file, or one of a worker that has none, is alive exactly when its
        worker has a live one. */
    lemma LiveIffAlive(lease: WorkerLease)
      requires Valid() && lease in owned && (lease.workerId in leases ==> leases[lease.workerId] == lease)
      ensures lease.isAlive <==> lease.workerId in Live()
    {
    }

    /** A lease of a worker that has no live one is dead, on file or not. */
    lemma DeadIfNotLive(lease: WorkerLease)
      requires Valid() && lease in owned && lease.workerId !in Live()
      ensures !lease.isAlive
    {
    }

    method RecordHeartbeat(id: string, step: int, now: int) returns (known: bool)
      requires Valid()
      modifies owned
      ensures Valid() && known == (id in leases)
      ensures Live() == if known then old(Live()) + {id} else old(Live())
      ensures Table() == if known then old(Table())[id := Lease(now, true)] else old(Table())
      ensures known ==> leases[id].lastStep == step
      ensures known && old(leases[id].isAlive) ==> leases[id].Seen() == After(old(leases[id].Seen()), Beat(now), deadThreshold)
    {
      known := id in leases;
      if known { leases[id].Touch(step, now); }
    }
  }
}
