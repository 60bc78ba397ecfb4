/** A scan as a sequence of steps in the order of its snapshot, and exactly when
    every such scan fails a run once. */
module ScanOrder {
  import opened Sequences
  import opened RunStates
  import opened Coordinator
  import opened WorkerViews
  import opened WorkerManager
  import opened GroupRestart
  import opened RestartSlot
  import opened GroupFailure
  import opened FailureAccount

  /** The worker has a live lease and is overdue. */
  predicate IsDue(s: Scene, id: string, overdue: set<string>)
  {
    id in overdue && id in s.views.live && id in s.views.kv
  }

  /** What the scan does with one lease of the snapshot. */
  ghost predicate LeaseStep(m: Scene, id: string, now: int, overdue: set<string>, s': Scene)
  {
    if IsDue(m, id, overdue) then exists claimed :: Declared(m, id, m.views.kv[id].runId, now, claimed, s') else s' == m
  }

  lemma IsLeaseStep(m: Scene, id: string, run: string, now: int, overdue: set<string>, claimed: bool, s': Scene)
    requires IsDue(m, id, overdue) && m.views.kv[id].runId == run && Declared(m, id, run, now, claimed, s')
    ensures LeaseStep(m, id, now, overdue, s')
  {
  }

  /** The leases of these workers are looked at in this order. */
  ghost predicate Steps(s: Scene, order: seq<string>, now: int, overdue: set<string>, s': Scene)
  {
    if order == [] then s' == s
    else
      var last := |order| - 1;
      exists m :: Steps(s, order[..last], now, overdue, m) && LeaseStep(m, order[last], now, overdue, s')
  }

  /** The scenes such a scan goes through. */
  ghost predicate Trace(s: Scene, order: seq<string>, now: int, overdue: set<string>, scenes: seq<Scene>)
  {
    && |scenes| == |order| + 1 && scenes[0] == s
    && forall i :: 0 <= i < |order| ==> StepAt(order, now, overdue, scenes, i)
  }

  ghost predicate StepAt(order: seq<string>, now: int, overdue: set<string>, scenes: seq<Scene>, i: nat)
    requires i < |order| && i + 1 < |scenes|
  {
    LeaseStep(scenes[i], order[i], now, overdue, scenes[i + 1])
  }

  lemma TraceNext(s: Scene, order: seq<string>, now: int, overdue: set<string>, scenes: seq<Scene>, id: string, s': Scene)
    requires Trace(s, order, now, overdue, scenes) && LeaseStep(scenes[|order|], id, now, overdue, s')
    ensures Trace(s, order + [id], now, overdue, scenes + [s'])
  {
    forall i | 0 <= i < |order| + 1 ensures StepAt(order + [id], now, overdue, scenes + [s'], i) {
      if i < |order| { assert StepAt(order, now, overdue, scenes, i); }
    }
  }

  lemma {:induction false} TraceSteps(s: Scene, order: seq<string>, now: int, overdue: set<string>, scenes: seq<Scene>)
    requires Trace(s, order, now, overdue, scenes)
    ensures Steps(s, order, now, overdue, scenes[|order|])
  {
    if order != [] {
      var last := |order| - 1;
      var before, some := order[..last], scenes[..last + 1];
      forall i | 0 <= i < last ensures StepAt(before, now, overdue, some, i) {
        assert StepAt(order, now, overdue, scenes, i);
      }
      TraceSteps(s, before, now, overdue, some);
      assert StepAt(order, now, overdue, scenes, last);
    }
  }

  lemma TraceSane(s: Scene, order: seq<string>, now: int, overdue: set<string>, scenes: seq<Scene>)
    requires Agree(s.views) && Trace(s, order, now, overdue, scenes)
    ensures Sane(s, scenes[|order|])
  {
    TraceSteps(s, order, now, overdue, scenes);
    StepsSane(s, order, now, overdue, scenes[|order|]);
  }

  /** The agreement that a scan keeps, and relies on. */
  ghost predicate Sane(s: Scene, m: Scene)
  {
    Agree(m.views) && SameRuns(s.views.kv, m.views.kv) && m.views.live <= s.views.live
  }

  lemma LiveKnown(v: Views)
    requires Agree(v)
    ensures v.live <= v.kv.Keys
  {
    forall id | id in v.live ensures id in v.kv { assert AgreeOn(v, id); }
  }

  /** The account of a scan up to some lease: whoever was looked at and overdue
      has no live lease, and whoever was declared dead was looked at and due. */
  ghost predicate UpTo(s: Scene, order: seq<string>, now: int, overdue: set<string>, s': Scene, gone: set<string>)
  {
    && Progress(s, s', now, gone)
    && (forall id :: id in order && id in overdue ==> id !in s'.views.live)
    && (forall id :: id in gone ==> id in order && id in overdue)
  }

  lemma UpToNext(s: Scene, order: seq<string>, now: int, overdue: set<string>, m: Scene, gone: set<string>, id: string, s': Scene)
    returns (gone': set<string>)
    requires UpTo(s, order, now, overdue, m, gone) && LeaseStep(m, id, now, overdue, s')
    ensures UpTo(s, order + [id], now, overdue, s', gone')
  {
    LiveKnown(m.views);
    if IsDue(m, id, overdue) {
      var claimed :| Declared(m, id, m.views.kv[id].runId, now, claimed, s');
      ProgressNext(s, m, gone, id, m.views.kv[id].runId, now, claimed, s');
      gone' := gone + {id};
    } else {
      gone' := gone;
    }
  }

  lemma {:induction false} StepsUpTo(s: Scene, order: seq<string>, now: int, overdue: set<string>, s': Scene) returns (gone: set<string>)
    requires Agree(s.views) && Steps(s, order, now, overdue, s')
    ensures UpTo(s, order, now, overdue, s', gone)
  {
    if order == [] {
      NothingYet(s, now);
      gone := {};
    } else {
      var last := |order| - 1;
      var m :| Steps(s, order[..last], now, overdue, m) && LeaseStep(m, order[last], now, overdue, s');
      var before := StepsUpTo(s, order[..last], now, overdue, m);
      gone := UpToNext(s, order[..last], now, overdue, m, before, order[last], s');
      assert order == order[..last] + [order[last]];
    }
  }

  lemma StepsSane(s: Scene, order: seq<string>, now: int, overdue: set<string>, s': Scene)
    requires Agree(s.views) && Steps(s, order, now, overdue, s')
    ensures Sane(s, s')
  {
    var gone := StepsUpTo(s, order, now, overdue, s');
  }

  /** When every overdue worker has been looked at, the scan is whole. */
  lemma StepsScanned(s: Scene, order: seq<string>, now: int, overdue: set<string>, s': Scene) returns (gone: set<string>)
    requires Agree(s.views) && Steps(s, order, now, overdue, s') && forall id :: id in overdue ==> id in order
    ensures Scanned(s, s', now, overdue, gone)
  {
    gone := StepsUpTo(s, order, now, overdue, s');
  }

  // ------------------------------------------------------------------
  // Who claims the slot

  /** An overdue worker of a run that can fail and could claim the slot when the
      scan begins. */
  predicate MayClaim(s: Scene, id: string, now: int, overdue: set<string>)
  {
    IsDue(s, id, overdue) && CanFail(s.runs, s.views.kv[id].runId) && Claimable(s.gate, s.slot, s.views.kv[id].runId, now)
  }

  /** The run of the first such worker. */
  function FirstClaimer(s: Scene, order: seq<string>, now: int, overdue: set<string>): (run: Option<string>)
  {
    if order == [] then None
    else
      var last := |order| - 1;
      var earlier := FirstClaimer(s, order[..last], now, overdue);
      if earlier.Some? then earlier
      else if MayClaim(s, order[last], now, overdue) then Some(s.views.kv[order[last]].runId) else None
  }

  lemma {:induction false} NoFirstClaimer(s: Scene, order: seq<string>, now: int, overdue: set<string>, id: string)
    requires FirstClaimer(s, order, now, overdue).None? && id in order
    ensures !MayClaim(s, id, now, overdue)
  {
    var last := |order| - 1;
    assert order == order[..last] + [order[last]];
    if id != order[last] { NoFirstClaimer(s, order[..last], now, overdue, id); }
  }

  lemma {:induction false} FirstClaimerMay(s: Scene, order: seq<string>, now: int, overdue: set<string>) returns (id: string)
    requires FirstClaimer(s, order, now, overdue).Some?
    ensures id in order && MayClaim(s, id, now, overdue) && FirstClaimer(s, order, now, overdue) == Some(s.views.kv[id].runId)
  {
    var last := |order| - 1;
    if FirstClaimer(s, order[..last], now, overdue).Some? {
      id := FirstClaimerMay(s, order[..last], now, overdue);
    } else {
      id := order[last];
    }
  }

  /** A run with a call has a worker that was declared dead. */
  lemma CalledWasDue(s: Scene, order: seq<string>, now: int, overdue: set<string>, s': Scene, gone: set<string>, run: string)
    returns (id: string)
    requires UpTo(s, order, now, overdue, s', gone) && Agree(s.views) && Claims(s, s', run) != []
    ensures id in order && id in gone && IsDue(s, id, overdue) && s.views.kv[id].runId == run && CanFail(s.runs, run)
  {
    assert Account(s, s', gone, run);
    assert |OfThe(gone, s.views.kv, run)| > 0;
    id :| id in OfThe(gone, s.views.kv, run);
  }

  /** Before the first who may claim the slot nobody has claimed it, and a run that
      could have claimed it has not been called for. */
  lemma NobodyYet(s: Scene, order: seq<string>, now: int, overdue: set<string>, s': Scene, gone: set<string>, run: string)
    requires UpTo(s, order, now, overdue, s', gone) && Agree(s.views) && FirstClaimer(s, order, now, overdue).None?
    ensures true !in Claims(s, s', run)
    ensures Claimable(s.gate, s.slot, run, now) ==> Claims(s, s', run) == []
  {
    assert FirstCall(s, s', now, run);
    if Claims(s, s', run) != [] && Claimable(s.gate, s.slot, run, now) {
      var id := CalledWasDue(s, order, now, overdue, s', gone, run);
      NoFirstClaimer(s, order, now, overdue, id);
    }
  }

  /** So then the slot is still as it was for every run. */
  lemma SlotStillOpen(s: Scene, order: seq<string>, now: int, overdue: set<string>, s': Scene, gone: set<string>, run: string)
    requires UpTo(s, order, now, overdue, s', gone) && Agree(s.views) && FirstClaimer(s, order, now, overdue).None?
    ensures Claimable(s'.gate, s'.slot, run, now) <==> Claimable(s.gate, s.slot, run, now)
  {
    assert FirstCall(s, s', now, run);
    NobodyYet(s, order, now, overdue, s', gone, run);
    if s'.slot.inFlight.Some? { NobodyYet(s, order, now, overdue, s', gone, s'.slot.inFlight.value); }
  }

  /** And a due worker not looked at yet has kept its lease. */
  lemma StillDue(s: Scene, order: seq<string>, now: int, overdue: set<string>, s': Scene, gone: set<string>, id: string)
    requires UpTo(s, order, now, overdue, s', gone) && Agree(s.views) && FirstClaimer(s, order, now, overdue).None?
    requires MayClaim(s, id, now, overdue)
    ensures IsDue(s', id, overdue) && CanFail(s'.runs, s.views.kv[id].runId) && s'.views.kv[id].runId == s.views.kv[id].runId
  {
    var run := s.views.kv[id].runId;
    assert Account(s, s', gone, run);
    NobodyYet(s, order, now, overdue, s', gone, run);
    StillFails(s, s', run);
    if id !in s'.views.live {
      assert id in OfThe(s.views.live, s.views.kv, run);
      NoFirstClaimer(s, order, now, overdue, id);
    }
  }

  /** The first who may claim the slot does, by the only call of its run. */
  lemma {:induction false} FirstClaimerClaims(s: Scene, order: seq<string>, now: int, overdue: set<string>, s': Scene, run: string)
    requires Agree(s.views) && Steps(s, order, now, overdue, s') && FirstClaimer(s, order, now, overdue) == Some(run)
    ensures Claims(s, s', run) == [true]
  {
    var last := |order| - 1;
    var id, before := order[last], order[..last];
    var m :| Steps(s, before, now, overdue, m) && LeaseStep(m, id, now, overdue, s');
    var gone := StepsUpTo(s, before, now, overdue, m);
    if FirstClaimer(s, before, now, overdue).Some? {
      FirstClaimerClaims(s, before, now, overdue, m, run);
      ClaimStands(s, m, gone, id, now, overdue, s', run);
    } else {
      NobodyYet(s, before, now, overdue, m, gone, run);
      StillDue(s, before, now, overdue, m, gone, id);
      SlotStillOpen(s, before, now, overdue, m, gone, run);
      var claimed :| Declared(m, id, run, now, claimed, s');
      ClaimsNext(s, m, run, now, claimed, s', run);
    }
  }

  /** After its claim a run is not called for again. */
  lemma ClaimStands(s: Scene, m: Scene, gone: set<string>, id: string, now: int, overdue: set<string>, s': Scene, run: string)
    requires Progress(s, m, now, gone) && LeaseStep(m, id, now, overdue, s') && Claims(s, m, run) == [true]
    ensures Claims(s, s', run) == [true]
  {
    if IsDue(m, id, overdue) {
      var claimed :| Declared(m, id, m.views.kv[id].runId, now, claimed, s');
      assert Account(s, m, gone, run);
      assert Claims(s, m, run)[0];
      ClaimsNext(s, m, m.views.kv[id].runId, now, claimed, s', run);
    }
  }

  // ------------------------------------------------------------------
  // The scan in which every restart thread can be started

  function Declaring(m: Scene, id: string, run: string, now: int): (s': Scene)
    requires m.runs.Keys == m.persisted.Keys
    ensures s'.runs.Keys == s'.persisted.Keys
  {
    var expired := Expired(m.views, id);
    if !CanFail(m.runs, run) then m.(views := expired)
    else
      var claimed := Claimable(m.gate, m.slot, run, now);
      Scene(if claimed then GroupRestarted(expired, run) else expired,
            m.runs[run := m.runs[run].(state := RECOVERING)],
            m.persisted[run := m.persisted[run] + FailurePath(m.runs[run].state, true)],
            m.gate, if claimed then Take(m.slot, run, now) else m.slot, m.calls + [(run, claimed)])
  }

  lemma DeclaringDeclares(m: Scene, id: string, run: string, now: int)
    requires m.runs.Keys == m.persisted.Keys
    ensures Declared(m, id, run, now, CanFail(m.runs, run) && Claimable(m.gate, m.slot, run, now), Declaring(m, id, run, now))
  {
  }

  function AllStart(s: Scene, order: seq<string>, now: int, overdue: set<string>): (s': Scene)
    requires s.runs.Keys == s.persisted.Keys
    ensures s'.runs.Keys == s'.persisted.Keys
  {
    if order == [] then s
    else
      var last := |order| - 1;
      var m := AllStart(s, order[..last], now, overdue);
      if IsDue(m, order[last], overdue) then Declaring(m, order[last], m.views.kv[order[last]].runId, now) else m
  }

  lemma {:induction false} AllStartSteps(s: Scene, order: seq<string>, now: int, overdue: set<string>)
    requires s.runs.Keys == s.persisted.Keys
    ensures Steps(s, order, now, overdue, AllStart(s, order, now, overdue))
  {
    if order != [] {
      var last := |order| - 1;
      var m := AllStart(s, order[..last], now, overdue);
      AllStartSteps(s, order[..last], now, overdue);
      if IsDue(m, order[last], overdue) { DeclaringDeclares(m, order[last], m.views.kv[order[last]].runId, now); }
    }
  }

  /** Then only the first who may claim the slot does, and holds it. */
  lemma {:induction false} OnlyFirstClaims(s: Scene, order: seq<string>, now: int, overdue: set<string>, run: string)
    requires Agree(s.views) && s.runs.Keys == s.persisted.Keys && FirstClaimer(s, order, now, overdue) != Some(run)
    ensures true !in Claims(s, AllStart(s, order, now, overdue), run)
    ensures FirstClaimer(s, order, now, overdue).Some? ==> AllStart(s, order, now, overdue).slot.inFlight.Some?
  {
    var s' := AllStart(s, order, now, overdue);
    if FirstClaimer(s, order, now, overdue).None? {
      AllStartSteps(s, order, now, overdue);
      var gone := StepsUpTo(s, order, now, overdue, s');
      NobodyYet(s, order, now, overdue, s', gone, run);
    } else {
      var last := |order| - 1;
      OnlyFirstClaims(s, order[..last], now, overdue, run);
      OneMoreStart(s, order[..last], order[last], now, overdue, run);
      assert order == order[..last] + [order[last]];
    }
  }

  /** One more lease. */
  lemma OneMoreStart(s: Scene, before: seq<string>, id: string, now: int, overdue: set<string>, run: string)
    requires Agree(s.views) && s.runs.Keys == s.persisted.Keys
    requires FirstClaimer(s, before + [id], now, overdue).Some? && FirstClaimer(s, before + [id], now, overdue) != Some(run)
    requires var m := AllStart(s, before, now, overdue);
             true !in Claims(s, m, run) && (FirstClaimer(s, before, now, overdue).Some? ==> m.slot.inFlight.Some?)
    ensures var s' := AllStart(s, before + [id], now, overdue); true !in Claims(s, s', run) && s'.slot.inFlight.Some?
  {
    assert (before + [id])[..|before|] == before;
    var m := AllStart(s, before, now, overdue);
    AllStartSteps(s, before, now, overdue);
    var gone := StepsUpTo(s, before, now, overdue, m);
    if FirstClaimer(s, before, now, overdue).None? {
      StillDue(s, before, now, overdue, m, gone, id);
      SlotStillOpen(s, before, now, overdue, m, gone, s.views.kv[id].runId);
    }
    if IsDue(m, id, overdue) { DeclaringClaims(s, m, id, now, run); }
  }

  lemma DeclaringClaims(s: Scene, m: Scene, id: string, now: int, run: string)
    requires |s.calls| <= |m.calls| && m.runs.Keys == m.persisted.Keys && id in m.views.kv
    ensures var owner := m.views.kv[id].runId; var claimed := CanFail(m.runs, owner) && Claimable(m.gate, m.slot, owner, now);
            var s' := Declaring(m, id, owner, now);
            && (true in Claims(s, s', run) ==> true in Claims(s, m, run) || (owner == run && claimed))
            && (claimed || m.slot.inFlight.Some? ==> s'.slot.inFlight.Some?)
  {
    var owner := m.views.kv[id].runId;
    var claimed := CanFail(m.runs, owner) && Claimable(m.gate, m.slot, owner, now);
    DeclaringDeclares(m, id, owner, now);
    ClaimsNext(s, m, owner, now, claimed, Declaring(m, id, owner, now), run);
  }

  // ------------------------------------------------------------------
  // The exact conditions, before the scan

  /** However the restart threads fare, a scan of the leases in this order fails a
      run at work once, if and only if the first worker of the order that may claim
      the slot is one of its own, or just one of its workers is overdue. */
  lemma OneRecoveryInOrder(s: Scene, order: seq<string>, now: int, overdue: set<string>, run: string)
    requires Agree(s.views) && s.runs.Keys == s.persisted.Keys && forall id :: id in overdue ==> id in order
    requires AtWork(s.runs, run) && Due(s, overdue, run) != {}
    ensures (forall s' :: Steps(s, order, now, overdue, s') ==> Gained(s, s', run, 1))
            <==> FirstClaimer(s, order, now, overdue) == Some(run) || |Due(s, overdue, run)| == 1
  {
    if FirstClaimer(s, order, now, overdue) == Some(run) || |Due(s, overdue, run)| == 1 {
      forall s' | Steps(s, order, now, overdue, s') ensures Gained(s, s', run, 1) {
        var gone := StepsScanned(s, order, now, overdue, s');
        OneRecoveryExactly(s, s', now, overdue, gone, run);
        if FirstClaimer(s, order, now, overdue) == Some(run) { FirstClaimerClaims(s, order, now, overdue, s', run); }
      }
    } else {
      var s' := AllStart(s, order, now, overdue);
      AllStartSteps(s, order, now, overdue);
      var gone := StepsScanned(s, order, now, overdue, s');
      OneRecoveryExactly(s, s', now, overdue, gone, run);
      OnlyFirstClaims(s, order, now, overdue, run);
    }
  }

  /** A snapshot of these leases: each once, in some order. */
  ghost predicate Arranges(order: seq<string>, leased: set<string>)
  {
    && (forall id :: id in order <==> id in leased)
    && (forall j, k :: 0 <= j < k < |order| ==> order[j] != order[k])
  }

  lemma {:induction false} Arrangement(leased: set<string>) returns (order: seq<string>)
    ensures Arranges(order, leased)
  {
    if leased == {} {
      order := [];
    } else {
      var id :| id in leased;
      var rest := Arrangement(leased - {id});
      order := rest + [id];
    }
  }

  /** No other run with overdue workers could claim the slot when the scan begins. */
  ghost predicate NoRival(s: Scene, overdue: set<string>, now: int, run: string)
  {
    forall id :: MayClaim(s, id, now, overdue) ==> s.views.kv[id].runId == run
  }

  /** An order in which another run's worker, if it may claim the slot, comes first. */
  lemma RivalFirst(s: Scene, now: int, leased: set<string>, overdue: set<string>, x: string) returns (order: seq<string>)
    requires x in leased && MayClaim(s, x, now, overdue)
    ensures Arranges(order, leased) && FirstClaimer(s, order, now, overdue) == Some(s.views.kv[x].runId)
  {
    var rest := Arrangement(leased - {x});
    order := [x] + rest;
    FirstClaimerStays(s, x, rest, now, overdue);
  }

  lemma {:induction false} FirstClaimerStays(s: Scene, x: string, rest: seq<string>, now: int, overdue: set<string>)
    requires MayClaim(s, x, now, overdue)
    ensures FirstClaimer(s, [x] + rest, now, overdue) == Some(s.views.kv[x].runId)
  {
    if rest == [] {
      assert [x] + rest == [x];
    } else {
      FirstClaimerStays(s, x, rest[..|rest| - 1], now, overdue);
      assert ([x] + rest)[..|rest|] == [x] + rest[..|rest| - 1];
    }
  }

  /** One failure, one recovery, decided before the scan: whatever the order of the
      leases and whichever threads start, a run at work with overdue workers fails
      and starts to recover exactly once, if and only if the slot is open to it and
      to no other run with overdue workers, or just one of its workers is overdue. */
  lemma OneRecoveryAlways(s: Scene, now: int, leased: set<string>, overdue: set<string>, run: string)
    requires Agree(s.views) && s.runs.Keys == s.persisted.Keys && overdue <= leased
    requires AtWork(s.runs, run) && Due(s, overdue, run) != {}
    ensures (forall order, s' :: Arranges(order, leased) && Steps(s, order, now, overdue, s') ==> Gained(s, s', run, 1))
            <==> (Claimable(s.gate, s.slot, run, now) && NoRival(s, overdue, now, run)) || |Due(s, overdue, run)| == 1
  {
    if (Claimable(s.gate, s.slot, run, now) && NoRival(s, overdue, now, run)) || |Due(s, overdue, run)| == 1 {
      forall order, s' | Arranges(order, leased) && Steps(s, order, now, overdue, s') ensures Gained(s, s', run, 1) {
        if |Due(s, overdue, run)| != 1 { OwnIsFirst(s, order, now, overdue, run); }
        OneRecoveryInOrder(s, order, now, overdue, run);
      }
    } else {
      var order := BadOrder(s, now, leased, overdue, run);
      OneRecoveryInOrder(s, order, now, overdue, run);
    }
  }

  lemma OwnIsFirst(s: Scene, order: seq<string>, now: int, overdue: set<string>, run: string)
    requires CanFail(s.runs, run) && Due(s, overdue, run) != {} && forall id :: id in overdue ==> id in order
    requires Claimable(s.gate, s.slot, run, now) && NoRival(s, overdue, now, run)
    ensures FirstClaimer(s, order, now, overdue) == Some(run)
  {
    var id :| id in Due(s, overdue, run);
    if FirstClaimer(s, order, now, overdue).None? {
      NoFirstClaimer(s, order, now, overdue, id);
    } else {
      var first := FirstClaimerMay(s, order, now, overdue);
    }
  }

  lemma BadOrder(s: Scene, now: int, leased: set<string>, overdue: set<string>, run: string) returns (order: seq<string>)
    requires overdue <= leased && !(Claimable(s.gate, s.slot, run, now) && NoRival(s, overdue, now, run))
    ensures Arranges(order, leased) && FirstClaimer(s, order, now, overdue) != Some(run)
  {
    if x :| MayClaim(s, x, now, overdue) && s.views.kv[x].runId != run {
      order := RivalFirst(s, now, leased, overdue, x);
    } else {
      order := Arrangement(leased);
      if FirstClaimer(s, order, now, overdue).Some? { var first := FirstClaimerMay(s, order, now, overdue); }
    }
  }

  /** Under a supervised run id there is no rival. */
  lemma SupervisedHasNoRival(s: Scene, overdue: set<string>, now: int, run: string)
    requires s.gate.sharedPathSet && Claimable(s.gate, s.slot, run, now)
    ensures NoRival(s, overdue, now, run)
  {
  }
}
