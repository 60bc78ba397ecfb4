/** How soon a silent worker is noticed: one worker's heartbeats and the
    monitor's scans, in order of time. */
module Detection {
  import opened Heartbeats

  /** The lease before event n; it was registered at the start. */
  function LeaseAt(events: seq<Event>, n: nat, start: int, threshold: int): Lease
    requires n <= |events|
  {
    if n == 0 then Lease(start, true) else After(LeaseAt(events, n - 1, start, threshold), events[n - 1], threshold)
  }

  /** Event i is the scan that declares the worker dead. */
  predicate Declares(events: seq<Event>, i: nat, start: int, threshold: int)
    requires i < |events|
  {
    var lease := LeaseAt(events, i, start, threshold);
    events[i].Scan? && lease.alive && Overdue(lease.last, threshold, events[i].at)
  }

  /** When the worker was last heard of before event n. */
  function LastHeard(events: seq<Event>, n: nat, start: int): int
    requires n <= |events|
  {
    if n == 0 then start else if events[n - 1].Beat? then events[n - 1].at else LastHeard(events, n - 1, start)
  }

  /** In order of time. */
  ghost predicate Ordered(events: seq<Event>, start: int)
  {
    && (events != [] ==> start <= events[0].at)
    && forall i, j :: 0 <= i <= j < |events| ==> events[i].at <= events[j].at
  }

  lemma {:induction false} AliveWhileUndeclared(events: seq<Event>, n: nat, start: int, threshold: int)
    requires n <= |events| && forall i :: 0 <= i < n ==> !Declares(events, i, start, threshold)
    ensures LeaseAt(events, n, start, threshold) == Lease(LastHeard(events, n, start), true)
  {
    if n > 0 {
      AliveWhileUndeclared(events, n - 1, start, threshold);
      assert !Declares(events, n - 1, start, threshold);
    }
  }

  lemma {:induction false} DeadStaysDead(events: seq<Event>, i: nat, n: nat, start: int, threshold: int)
    requires i < n <= |events| && Declares(events, i, start, threshold)
    ensures !LeaseAt(events, n, start, threshold).alive
  {
    if n > i + 1 { DeadStaysDead(events, i, n - 1, start, threshold); }
  }

  /** A worker is declared dead at most once. */
  lemma DeclaredOnce(events: seq<Event>, i: nat, j: nat, start: int, threshold: int)
    requires i < |events| && j < |events| && Declares(events, i, start, threshold) && Declares(events, j, start, threshold)
    ensures i == j
  {
    if i < j { DeadStaysDead(events, i, j, start, threshold); }
    if j < i { DeadStaysDead(events, j, i, start, threshold); }
  }

  /** It is declared dead by event n exactly when some scan before n found it
      silent for longer than the threshold. */
  lemma {:induction false} DeclaredExactly(events: seq<Event>, n: nat, start: int, threshold: int)
    requires n <= |events|
    ensures (exists i :: 0 <= i < n && Declares(events, i, start, threshold)) <==>
            exists i :: 0 <= i < n && Silent(events, i, start, threshold)
  {
    if n > 0 {
      DeclaredExactly(events, n - 1, start, threshold);
      if i :| 0 <= i < n - 1 && Declares(events, i, start, threshold) {
        var j :| 0 <= j < n - 1 && Silent(events, j, start, threshold);
        assert 0 <= i < n && 0 <= j < n;
      } else {
        AliveWhileUndeclared(events, n - 1, start, threshold);
        assert Declares(events, n - 1, start, threshold) <==> Silent(events, n - 1, start, threshold);
      }
    }
  }

  /** Event i is a scan that comes too long after the last heartbeat. */
  predicate Silent(events: seq<Event>, i: nat, start: int, threshold: int)
    requires i < |events|
  {
    events[i].Scan? && Overdue(LastHeard(events, i, start), threshold, events[i].at)
  }

  lemma {:induction false} LastHeardIs(events: seq<Event>, n: nat, start: int) returns (k: nat)
    requires n <= |events|
    ensures k <= n && forall i :: k <= i < n ==> events[i].Scan?
    ensures if k == 0 then LastHeard(events, n, start) == start
            else events[k - 1].Beat? && LastHeard(events, n, start) == events[k - 1].at
  {
    if n == 0 || events[n - 1].Beat? { k := n; } else { k := LastHeardIs(events, n - 1, start); }
  }

  /** From the registration and from every heartbeat the next heartbeat comes
      within the threshold, unless the events end before that. */
  ghost predicate NoLongGap(events: seq<Event>, start: int, threshold: int)
  {
    forall k :: 0 <= k <= |events| ==> Followed(events, k, start, threshold)
  }

  /** If event k - 1 is a heartbeat (or k is 0, the registration), the next one
      is soon. */
  ghost predicate Followed(events: seq<Event>, k: nat, start: int, threshold: int)
    requires k <= |events|
  {
    var since := if k == 0 then start else events[k - 1].at;
    k == 0 || events[k - 1].Beat? ==>
      || (exists j :: k <= j < |events| && events[j].Beat? && events[j].at - since <= threshold)
      || (forall j :: k <= j < |events| ==> events[j].at - since <= threshold)
  }

  /** A worker whose gaps never exceed the threshold is never declared dead,
      whenever the scans come. */
  lemma NeverDeclared(events: seq<Event>, start: int, threshold: int)
    requires Ordered(events, start) && NoLongGap(events, start, threshold)
    ensures forall i :: 0 <= i < |events| ==> !Declares(events, i, start, threshold)
  {
    DeclaredExactly(events, |events|, start, threshold);
    forall i | 0 <= i < |events| && events[i].Scan? ensures !Silent(events, i, start, threshold) {
      var k := LastHeardIs(events, i, start);
      var since := if k == 0 then start else events[k - 1].at;
      assert Followed(events, k, start, threshold);
      if j :| k <= j < |events| && events[j].Beat? && events[j].at - since <= threshold {
        assert i <= j;
      }
    }
  }

  /** Scans are at most p apart up to a time. */
  ghost predicate ScannedEvery(events: seq<Event>, p: int, from: int, until: int)
  {
    forall x :: from <= x && x + p <= until ==> ScanWithin(events, x, p)
  }

  ghost predicate ScanWithin(events: seq<Event>, after: int, period: int)
  {
    exists i :: 0 <= i < |events| && events[i].Scan? && after < events[i].at <= after + period
  }

  /** A worker that was alive when last heard of, before event k, and is silent
      from then on is declared dead exactly once, at a scan more than the
      threshold and at most the threshold and one scan period later. */
  lemma DetectedInWindow(events: seq<Event>, k: nat, start: int, threshold: nat, p: nat) returns (i: nat)
    requires Ordered(events, start) && k <= |events| && (k == 0 || events[k - 1].Beat?)
    requires forall j :: k <= j < |events| ==> events[j].Scan?
    requires LeaseAt(events, k, start, threshold).alive
    requires ScannedEvery(events, p, start, LastHeard(events, k, start) + threshold + p)
    ensures i < |events| && Declares(events, i, start, threshold)
    ensures var since := LastHeard(events, k, start); since + threshold < events[i].at <= since + threshold + p
    ensures forall j :: 0 <= j < |events| && Declares(events, j, start, threshold) ==> j == i
  {
    var since := LastHeard(events, k, start);
    forall j | 0 <= j < k ensures !Declares(events, j, start, threshold) {
      if Declares(events, j, start, threshold) { DeadStaysDead(events, j, k, start, threshold); }
    }
    AliveWhileUndeclared(events, k, start, threshold);
    assert k > 0 ==> since == events[k - 1].at;
    assert k > 0 ==> events[0].at <= events[k - 1].at;
    assert start <= since && forall j :: 0 <= j < k ==> events[j].at <= since;
    assert ScanWithin(events, since + threshold, p);
    var m :| 0 <= m < |events| && events[m].Scan? && since + threshold < events[m].at <= since + threshold + p;
    i := FirstLate(events, k, since + threshold);
    forall j | k <= j < i ensures !Declares(events, j, start, threshold) {
      LastInLease(events, j, k, start, threshold);
    }
    LastInLease(events, i, k, start, threshold);
    AliveWhileUndeclared(events, i, start, threshold);
    assert i <= m;
    forall j | 0 <= j < |events| && Declares(events, j, start, threshold) ensures j == i {
      DeclaredOnce(events, i, j, start, threshold);
    }
  }

  /** While nothing is heard the lease keeps its time. */
  lemma {:induction false} LastInLease(events: seq<Event>, n: nat, k: nat, start: int, threshold: int)
    requires k <= n <= |events| && forall j :: k <= j < |events| ==> events[j].Scan?
    ensures LeaseAt(events, n, start, threshold).last == LeaseAt(events, k, start, threshold).last
  {
    if n > k { LastInLease(events, n - 1, k, start, threshold); }
  }

  /** The first scan after a time. */
  lemma FirstLate(events: seq<Event>, k: nat, time: int) returns (i: nat)
    requires k <= |events| && exists j :: k <= j < |events| && events[j].at > time
    requires forall j :: k <= j < |events| ==> events[j].Scan?
    ensures k <= i < |events| && events[i].at > time && forall j :: k <= j < i ==> events[j].at <= time
    decreases |events| - k
  {
    if events[k].at > time { i := k; } else { i := FirstLate(events, k + 1, time); }
  }
}
