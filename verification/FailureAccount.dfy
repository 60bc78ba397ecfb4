/** The account a scan for expired leases keeps of every run: restart calls,
    state changes, workers lost, and who got the restart slot. */
module FailureAccount {
  import opened Sequences
  import opened RunStates
  import opened Coordinator
  import opened Heartbeats
  import opened WorkerViews
  import opened WorkerManager
  import opened GroupRestart
  import opened RestartSlot
  import opened GroupFailure
  import opened Ranking

  /** What the scan acts on. */
  datatype Scene = Scene(views: Views, runs: map<string, RunStatus>, persisted: map<string, seq<RunState>>, gate: Gate, slot: Slot,
                         calls: seq<(string, bool)>)

  /** The restarts asked for, for one run: which of them claimed the slot. */
  function Asked(calls: seq<(string, bool)>, run: string): (claims: seq<bool>)
  {
    if calls == [] then []
    else
      var last := calls[|calls| - 1];
      Asked(calls[..|calls| - 1], run) + (if last.0 == run then [last.1] else [])
  }

  lemma AskedNext(calls: seq<(string, bool)>, call: (string, bool), run: string)
    ensures Asked(calls + [call], run) == Asked(calls, run) + (if call.0 == run then [call.1] else [])
  {
    assert (calls + [call])[..|calls|] == calls;
  }

  /** The restarts asked for since the first scene. */
  function Claims(s: Scene, s': Scene, run: string): (claims: seq<bool>)
  {
    if |s.calls| <= |s'.calls| then Asked(s'.calls[|s.calls|..], run) else []
  }

  /** One expired lease: dead in every view, then the failure callbacks. */
  ghost predicate Declared(s: Scene, id: string, run: string, now: int, claimed: bool, s': Scene)
  {
    && s'.views == ViewsAfter(s.views, id, run, claimed)
    && Handled(s.runs, s.persisted, s'.runs, s'.persisted, run, true)
    && Asking(s, run, now, claimed, s')
  }

  function ViewsAfter(v: Views, id: string, run: string, claimed: bool): Views
  {
    if claimed then GroupRestarted(Expired(v, id), run) else Expired(v, id)
  }

  /** A restart is asked for if the run can fail. */
  ghost predicate Asking(s: Scene, run: string, now: int, claimed: bool, s': Scene)
  {
    s'.gate == s.gate && RequestedIf(CanFail(s.runs, run), s.gate, s.slot, s.calls, s'.slot, s'.calls, run, now, claimed)
  }

  lemma ClaimsNext(s: Scene, m: Scene, run: string, now: int, claimed: bool, s': Scene, other: string)
    requires |s.calls| <= |m.calls| && Asking(m, run, now, claimed, s')
    ensures |s.calls| <= |s'.calls|
    ensures Claims(s, s', other) == Claims(s, m, other) + (if other == run && CanFail(m.runs, run) then [claimed] else [])
  {
    if CanFail(m.runs, run) {
      assert s'.calls[|s.calls|..] == m.calls[|s.calls|..] + [(run, claimed)];
      AskedNext(m.calls[|s.calls|..], (run, claimed), other);
    }
  }

  // ------------------------------------------------------------------
  // The account of one run

  /** No worker of the run is active or has a live lease. */
  ghost predicate Quiet(v: Views, run: string)
  {
    && ActiveOf(v.kv, run) == {}
    && forall id :: id in v.live && id in v.kv ==> v.kv[id].runId != run
  }

  ghost predicate Untouched(s: Scene, s': Scene, run: string)
  {
    && (run in s'.runs <==> run in s.runs) && (run in s.runs ==> s'.runs[run] == s.runs[run])
    && (run in s'.persisted <==> run in s.persisted) && (run in s.persisted ==> s'.persisted[run] == s.persisted[run])
  }

  /** Failing and starting to recover, n times over. */
  function Rounds(n: nat): (path: seq<RunState>)
    ensures |path| == 2 * n
  {
    if n == 0 then [] else Rounds(n - 1) + [RunState.FAILED, RECOVERING]
  }

  /** The run failed and started to recover n times, the first time from the
      state it was in. */
  ghost predicate Failed(s: Scene, s': Scene, run: string, n: nat)
    requires n > 0
  {
    && run in s.runs && run in s.persisted && run in s'.persisted && run in s'.runs && s'.runs[run].state == RECOVERING
    && s'.persisted[run] == s.persisted[run] + FailurePath(s.runs[run].state, true) + Rounds(n - 1)
  }

  /** Each restart call of a run made it fail and recover once; without a call it
      is untouched. */
  ghost predicate Counted(s: Scene, s': Scene, run: string)
  {
    var claims := Claims(s, s', run);
    if claims == [] then Untouched(s, s', run) else CanFail(s.runs, run) && Failed(s, s', run, |claims|)
  }

  /** Only the last call of a run can have claimed the slot, and then nobody of
      the run is left. */
  ghost predicate ClaimedLast(s: Scene, s': Scene, run: string)
  {
    var claims := Claims(s, s', run);
    forall k :: 0 <= k < |claims| && claims[k] ==> k == |claims| - 1 && Quiet(s'.views, run)
  }

  /** The workers of the run among these. */
  function OfThe(ids: set<string>, kv: Workers, run: string): set<string>
  {
    set id | id in ids && id in kv && kv[id].runId == run
  }

  /** A run that can fail was called for once per worker declared dead. */
  ghost predicate CalledPerDeath(s: Scene, s': Scene, gone: set<string>, run: string)
  {
    CanFail(s.runs, run) ==> |Claims(s, s', run)| == |OfThe(gone, s.views.kv, run)|
  }

  /** A worker that lost its lease without being declared dead was of a run whose
      group has been restarted. */
  ghost predicate LostToRestart(s: Scene, s': Scene, gone: set<string>, run: string)
  {
    forall id :: id in OfThe(s.views.live, s.views.kv, run) && id !in s'.views.live && id !in gone ==> true in Claims(s, s', run)
  }

  ghost predicate Account(s: Scene, s': Scene, gone: set<string>, run: string)
  {
    && Counted(s, s', run) && ClaimedLast(s, s', run) && CalledPerDeath(s, s', gone, run) && LostToRestart(s, s', gone, run)
  }

  /** The same workers, in the same runs. */
  ghost predicate SameRuns(kv: Workers, kv': Workers)
  {
    kv'.Keys == kv.Keys && forall id :: id in kv ==> kv'[id].runId == kv[id].runId
  }

  // ------------------------------------------------------------------
  // Who gets the slot

  ghost predicate SomeoneClaimed(s: Scene, s': Scene, run: string) { true in Claims(s, s', run) }

  /** The slot is as it was, or was free and is now held by a run that claimed it. */
  ghost predicate SlotTraced(s: Scene, s': Scene)
  {
    && s'.gate == s.gate
    && (s'.slot.inFlight == s.slot.inFlight
        || (s.slot.inFlight.None? && s'.slot.inFlight.Some? && SomeoneClaimed(s, s', s'.slot.inFlight.value)))
  }

  /** A run claims the slot only if it could have done so from the start; one that
      has not claimed it cools down as before. */
  ghost predicate FirstCall(s: Scene, s': Scene, now: int, run: string)
  {
    && (true !in Claims(s, s', run) ==> LastAttempt(s'.slot, run) == LastAttempt(s.slot, run))
    && (true in Claims(s, s', run) ==> Claimable(s.gate, s.slot, run, now))
  }

  /** The views agree, no worker has changed its run or got a lease, and those
      declared dead have lost theirs. */
  ghost predicate FewerLive(s: Scene, s': Scene, gone: set<string>)
  {
    && Agree(s'.views) && SameRuns(s.views.kv, s'.views.kv)
    && s'.views.live <= s.views.live && gone <= s.views.live && gone !! s'.views.live
  }

  ghost predicate Accounts(s: Scene, s': Scene, gone: set<string>) { forall run :: Account(s, s', gone, run) }

  ghost predicate FirstCalls(s: Scene, s': Scene, now: int) { forall run :: FirstCall(s, s', now, run) }

  ghost predicate Progress(s: Scene, s': Scene, now: int, gone: set<string>)
  {
    && |s.calls| <= |s'.calls| && FewerLive(s, s', gone)
    && Accounts(s, s', gone) && SlotTraced(s, s') && FirstCalls(s, s', now)
  }

  lemma NothingYet(s: Scene, now: int)
    requires Agree(s.views)
    ensures Progress(s, s, now, {})
  {
    assert s.calls[|s.calls|..] == [];
    forall run ensures OfThe({}, s.views.kv, run) == {} { }
  }

  // ------------------------------------------------------------------
  // What one declaration does to the views

  /** No worker became active, got a lease or changed its run. */
  ghost predicate Weaker(v: Views, v': Views)
  {
    && SameRuns(v.kv, v'.kv) && v'.live <= v.live
    && forall id :: IsActive(v'.kv, id) ==> IsActive(v.kv, id)
  }

  lemma QuietStays(v: Views, v': Views, run: string)
    requires Weaker(v, v') && Quiet(v, run)
    ensures Quiet(v', run)
  {
    assert forall id :: id in ActiveOf(v'.kv, run) ==> IsActive(v'.kv, id) && id in ActiveOf(v.kv, run);
  }

  lemma ExpiredViews(v: Views, id: string)
    requires Agree(v)
    ensures Agree(Expired(v, id)) && Weaker(v, Expired(v, id)) && Expired(v, id).live == v.live - {id}
  {
    RetiredAgree(v, {id}, DEAD);
  }

  lemma RestartedViews(v: Views, run: string)
    requires Agree(v)
    ensures Agree(GroupRestarted(v, run)) && Weaker(v, GroupRestarted(v, run)) && Quiet(GroupRestarted(v, run), run)
    ensures forall id :: id in v.live && id !in GroupRestarted(v, run).live ==> id in v.kv && v.kv[id].runId == run
  {
    GroupRestartedAgree(v, run);
    assert AgreeOnAll(v);
    assert forall id {:trigger AgreeOn(v, id)} :: AgreeOn(v, id);
  }

  lemma DeclaredViews(v: Views, id: string, run: string, claimed: bool)
    requires Agree(v)
    ensures var v' := ViewsAfter(v, id, run, claimed);
            && Agree(v') && Weaker(v, v') && id !in v'.live && (claimed ==> Quiet(v', run))
            && forall other :: other in v.live && other != id && other !in v'.live ==>
                                 claimed && other in v.kv && v.kv[other].runId == run
  {
    ExpiredViews(v, id);
    if claimed { RestartedViews(Expired(v, id), run); }
  }

  // ------------------------------------------------------------------
  // One declaration after another

  /** What is known before the next declaration of an expired lease. */
  ghost predicate Next(s: Scene, m: Scene, id: string, run: string, now: int, claimed: bool, s': Scene)
  {
    && |s.calls| <= |m.calls| && SameRuns(s.views.kv, m.views.kv) && m.views.live <= s.views.live
    && Declared(m, id, run, now, claimed, s')
    && IsLive(m, id, run)
    && Weaker(m.views, s'.views) && id !in s'.views.live && (claimed ==> Quiet(s'.views, run))
    && forall other :: other in m.views.live && other != id && other !in s'.views.live ==>
                         claimed && other in m.views.kv && m.views.kv[other].runId == run
  }

  lemma RoundsNext(base: seq<RunState>, path: seq<RunState>, n: nat)
    ensures base + path + Rounds(n) + [RunState.FAILED, RECOVERING] == base + path + Rounds(n + 1)
  {
    var last := [RunState.FAILED, RECOVERING];
    assert base + path + Rounds(n) + last == base + path + (Rounds(n) + last);
  }

  /** Of a run that was not called for. */
  lemma NoCallCounted(s: Scene, m: Scene, s': Scene, run: string)
    requires Counted(s, m, run) && Untouched(m, s', run) && Claims(s, s', run) == Claims(s, m, run)
    ensures Counted(s, s', run)
  {
  }

  lemma FirstCallCounted(s: Scene, m: Scene, s': Scene, run: string, claimed: bool)
    requires Untouched(s, m, run) && Claims(s, s', run) == [claimed] && CanFail(m.runs, run)
    requires Took(m.runs, m.persisted, s'.runs, s'.persisted, run, FailurePath(m.runs[run].state, true))
    ensures Counted(s, s', run)
  {
    var base := s.persisted[run] + FailurePath(s.runs[run].state, true);
    assert base + Rounds(0) == base;
  }

  lemma LaterCallCounted(s: Scene, m: Scene, s': Scene, run: string, n: nat)
    requires n > 0 && |Claims(s, m, run)| == n && |Claims(s, s', run)| == n + 1 && CanFail(s.runs, run) && Failed(s, m, run, n)
    requires Took(m.runs, m.persisted, s'.runs, s'.persisted, run, [RunState.FAILED, RECOVERING])
    ensures Counted(s, s', run)
  {
    RoundsNext(s.persisted[run], FailurePath(s.runs[run].state, true), n - 1);
  }

  lemma CountedNext(s: Scene, m: Scene, id: string, run: string, now: int, claimed: bool, s': Scene, other: string)
    requires |s.calls| <= |m.calls| && Declared(m, id, run, now, claimed, s') && Counted(s, m, other)
    ensures Counted(s, s', other)
  {
    ClaimsNext(s, m, run, now, claimed, s', other);
    if other != run || !CanFail(m.runs, run) {
      NoCallCounted(s, m, s', other);
    } else if Claims(s, m, run) == [] {
      FirstCallCounted(s, m, s', run, claimed);
    } else {
      LaterCallCounted(s, m, s', run, |Claims(s, m, run)|);
    }
  }

  lemma ClaimedLastNext(s: Scene, m: Scene, id: string, run: string, now: int, claimed: bool, s': Scene, other: string)
    requires Next(s, m, id, run, now, claimed, s') && ClaimedLast(s, m, other)
    ensures ClaimedLast(s, s', other)
  {
    ClaimsNext(s, m, run, now, claimed, s', other);
    if Quiet(m.views, other) { QuietStays(m.views, s'.views, other); }
  }

  /** One more worker, of its run. */
  lemma OfTheNext(ids: set<string>, id: string, kv: Workers, run: string)
    requires id in kv && id !in ids
    ensures |OfThe(ids + {id}, kv, run)| == |OfThe(ids, kv, run)| + if kv[id].runId == run then 1 else 0
  {
    if kv[id].runId == run {
      assert OfThe(ids + {id}, kv, run) == OfThe(ids, kv, run) + {id};
    } else {
      assert OfThe(ids + {id}, kv, run) == OfThe(ids, kv, run);
    }
  }

  /** After a run's first call it can fail for good. */
  lemma StillFails(s: Scene, m: Scene, run: string)
    requires Counted(s, m, run)
    ensures CanFail(m.runs, run) <==> CanFail(s.runs, run)
  {
  }

  lemma CalledPerDeathNext(s: Scene, m: Scene, gone: set<string>, id: string, run: string, now: int, claimed: bool, s': Scene, other: string)
    requires |s.calls| <= |m.calls| && Declared(m, id, run, now, claimed, s')
    requires Counted(s, m, other) && CalledPerDeath(s, m, gone, other)
    requires id !in gone && id in s.views.kv && s.views.kv[id].runId == run
    ensures CalledPerDeath(s, s', gone + {id}, other)
  {
    ClaimsNext(s, m, run, now, claimed, s', other);
    StillFails(s, m, other);
    OfTheNext(gone, id, s.views.kv, other);
  }

  lemma LostNext(s: Scene, m: Scene, gone: set<string>, id: string, run: string, now: int, claimed: bool, s': Scene, other: string)
    requires Next(s, m, id, run, now, claimed, s') && LostToRestart(s, m, gone, other)
    ensures LostToRestart(s, s', gone + {id}, other)
  {
    ClaimsNext(s, m, run, now, claimed, s', other);
  }

  lemma SlotNext(s: Scene, m: Scene, run: string, now: int, claimed: bool, s': Scene)
    requires |s.calls| <= |m.calls| && Asking(m, run, now, claimed, s') && SlotTraced(s, m)
    ensures |s.calls| <= |s'.calls| && SlotTraced(s, s')
  {
    ClaimsNext(s, m, run, now, claimed, s', run);
    if m.slot.inFlight.Some? { ClaimsNext(s, m, run, now, claimed, s', m.slot.inFlight.value); }
  }

  lemma FirstCallNext(s: Scene, m: Scene, run: string, now: int, claimed: bool, s': Scene, other: string)
    requires |s.calls| <= |m.calls| && Asking(m, run, now, claimed, s') && SlotTraced(s, m) && FirstCall(s, m, now, other)
    requires other == run ==> true !in Claims(s, m, run)
    ensures FirstCall(s, s', now, other)
  {
    ClaimsNext(s, m, run, now, claimed, s', other);
    if other == run && claimed { SlotWasOpen(s, m, run, now); }
  }

  /** While workers of a run are live it has not claimed the slot in this scan. */
  lemma NoClaimYet(s: Scene, m: Scene, id: string, run: string)
    requires ClaimedLast(s, m, run) && IsLive(m, id, run)
    ensures true !in Claims(s, m, run)
  {
  }

  /** What a run can claim now it could claim at first. */
  lemma SlotWasOpen(s: Scene, m: Scene, run: string, now: int)
    requires SlotTraced(s, m) && FirstCall(s, m, now, run) && true !in Claims(s, m, run) && Claimable(m.gate, m.slot, run, now)
    ensures Claimable(s.gate, s.slot, run, now)
  {
  }

  lemma AccountNext(s: Scene, m: Scene, gone: set<string>, id: string, run: string, now: int, claimed: bool, s': Scene, other: string)
    requires Next(s, m, id, run, now, claimed, s') && Account(s, m, gone, other) && gone !! m.views.live
    ensures Account(s, s', gone + {id}, other)
  {
    CountedNext(s, m, id, run, now, claimed, s', other);
    ClaimedLastNext(s, m, id, run, now, claimed, s', other);
    CalledPerDeathNext(s, m, gone, id, run, now, claimed, s', other);
    LostNext(s, m, gone, id, run, now, claimed, s', other);
  }

  lemma IsNext(s: Scene, m: Scene, gone: set<string>, id: string, run: string, now: int, claimed: bool, s': Scene)
    requires |s.calls| <= |m.calls| && FewerLive(s, m, gone) && Declared(m, id, run, now, claimed, s') && IsLive(m, id, run)
    ensures Next(s, m, id, run, now, claimed, s')
  {
    DeclaredViews(m.views, id, run, claimed);
  }

  /** The worker has a live lease and is of this run. */
  predicate IsLive(s: Scene, id: string, run: string)
  {
    id in s.views.live && id in s.views.kv && s.views.kv[id].runId == run
  }

  /** What is left of the views. */
  lemma ViewsNext(s: Scene, m: Scene, gone: set<string>, id: string, run: string, claimed: bool, s': Scene)
    requires FewerLive(s, m, gone) && id in m.views.live && s'.views == ViewsAfter(m.views, id, run, claimed)
    ensures FewerLive(s, s', gone + {id}) && s'.views.live <= m.views.live && id !in s'.views.live
  {
    DeclaredViews(m.views, id, run, claimed);
  }

  /** The account of every run. */
  lemma AccountsNext(s: Scene, m: Scene, gone: set<string>, id: string, run: string, now: int, claimed: bool, s': Scene)
    requires |s.calls| <= |m.calls| && FewerLive(s, m, gone) && Declared(m, id, run, now, claimed, s') && IsLive(m, id, run)
    requires Accounts(s, m, gone)
    ensures Accounts(s, s', gone + {id})
  {
    IsNext(s, m, gone, id, run, now, claimed, s');
    forall other ensures Account(s, s', gone + {id}, other) {
      AccountNext(s, m, gone, id, run, now, claimed, s', other);
    }
  }

  lemma FirstCallsNext(s: Scene, m: Scene, gone: set<string>, id: string, run: string, now: int, claimed: bool, s': Scene)
    requires |s.calls| <= |m.calls| && Asking(m, run, now, claimed, s') && IsLive(m, id, run)
    requires Accounts(s, m, gone) && SlotTraced(s, m) && FirstCalls(s, m, now)
    ensures FirstCalls(s, s', now)
  {
    assert Account(s, m, gone, run);
    NoClaimYet(s, m, id, run);
    forall other ensures FirstCall(s, s', now, other) {
      FirstCallNext(s, m, run, now, claimed, s', other);
    }
  }

  lemma ProgressNext(s: Scene, m: Scene, gone: set<string>, id: string, run: string, now: int, claimed: bool, s': Scene)
    requires Progress(s, m, now, gone) && Declared(m, id, run, now, claimed, s') && IsLive(m, id, run)
    ensures Progress(s, s', now, gone + {id}) && s'.views.live <= m.views.live && id !in s'.views.live
  {
    ViewsNext(s, m, gone, id, run, claimed, s');
    AccountsNext(s, m, gone, id, run, now, claimed, s');
    SlotNext(s, m, run, now, claimed, s');
    FirstCallsNext(s, m, gone, id, run, now, claimed, s');
  }

  /** A whole scan: of the overdue workers none has a live lease any more, and
      only overdue ones were declared dead. */
  ghost predicate Scanned(s: Scene, s': Scene, now: int, overdue: set<string>, gone: set<string>)
  {
    Progress(s, s', now, gone) && gone <= overdue && overdue !! s'.views.live
  }

  // ------------------------------------------------------------------
  // What a whole scan means for one run

  /** The run was in the middle of its work. */
  predicate AtWork(runs: map<string, RunStatus>, run: string)
  {
    run in runs && runs[run].state in {RUNNING, CHECKPOINTING, RunState.COMMITTED, RECOVERING}
  }

  /** The run has failed and started to recover n times in the scan. */
  ghost predicate Gained(s: Scene, s': Scene, run: string, n: nat)
  {
    run in s.persisted && run in s'.persisted && s'.persisted[run] == s.persisted[run] + Rounds(n)
  }

  /** The run's workers with a live but overdue lease when the scan begins. */
  function Due(s: Scene, overdue: set<string>, run: string): set<string>
  {
    OfThe(overdue * s.views.live, s.views.kv, run)
  }

  lemma {:induction false} RoundsFrom(n: nat)
    ensures [RunState.FAILED, RECOVERING] + Rounds(n) == Rounds(n + 1)
  {
    if n > 0 {
      RoundsFrom(n - 1);
      var round := [RunState.FAILED, RECOVERING];
      assert round + (Rounds(n - 1) + round) == (round + Rounds(n - 1)) + round;
    }
  }

  /** A run at work fails and recovers once per restart call. */
  lemma OncePerCall(s: Scene, s': Scene, run: string)
    requires Counted(s, s', run) && AtWork(s.runs, run) && Claims(s, s', run) != []
    ensures Gained(s, s', run, |Claims(s, s', run)|)
  {
    var n := |Claims(s, s', run)|;
    RoundsFrom(n - 1);
    assert s.persisted[run] + [RunState.FAILED, RECOVERING] + Rounds(n - 1) == s.persisted[run] + ([RunState.FAILED, RECOVERING] + Rounds(n - 1));
  }

  lemma GainedOnce(s: Scene, s': Scene, run: string, m: nat, n: nat)
    requires Gained(s, s', run, m) && Gained(s, s', run, n)
    ensures m == n
  {
    assert |s'.persisted[run]| == |s.persisted[run]| + 2 * m;
  }

  /** The calls of a run with overdue workers: at least one, at most one per
      overdue worker, and one for each when none of them claimed the slot. */
  lemma CallsOfRun(s: Scene, s': Scene, now: int, overdue: set<string>, gone: set<string>, run: string)
    requires Scanned(s, s', now, overdue, gone) && CanFail(s.runs, run) && Due(s, overdue, run) != {}
    ensures 1 <= |Claims(s, s', run)| <= |Due(s, overdue, run)|
    ensures true !in Claims(s, s', run) ==> |Claims(s, s', run)| == |Due(s, overdue, run)|
  {
    assert Account(s, s', gone, run);
    var mine, due := OfThe(gone, s.views.kv, run), Due(s, overdue, run);
    assert mine <= due;
    FewerElements(mine, due);
    if true !in Claims(s, s', run) {
      forall id | id in due ensures id in mine { assert id in OfThe(s.views.live, s.views.kv, run) && id !in s'.views.live; }
      assert mine == due;
    }
  }

  /** One scan, one recovery, exactly: a run at work with overdue workers fails
      and starts to recover exactly once if and only if its first restart call
      claims the slot or just one of its workers was overdue. */
  lemma OneRecoveryExactly(s: Scene, s': Scene, now: int, overdue: set<string>, gone: set<string>, run: string)
    requires Scanned(s, s', now, overdue, gone) && AtWork(s.runs, run) && Due(s, overdue, run) != {}
    ensures Claims(s, s', run) != []
    ensures Gained(s, s', run, 1) <==> Claims(s, s', run)[0] || |Due(s, overdue, run)| == 1
  {
    assert Account(s, s', gone, run);
    CallsOfRun(s, s', now, overdue, gone, run);
    OncePerCall(s, s', run);
    var n := |Claims(s, s', run)|;
    if Gained(s, s', run, 1) { GainedOnce(s, s', run, 1, n); }
  }

  /** A run that cannot claim the slot fails and recovers once per overdue worker. */
  lemma FailsPerWorker(s: Scene, s': Scene, now: int, overdue: set<string>, gone: set<string>, run: string)
    requires Scanned(s, s', now, overdue, gone) && AtWork(s.runs, run) && Due(s, overdue, run) != {}
    requires !Claimable(s.gate, s.slot, run, now)
    ensures Gained(s, s', run, |Due(s, overdue, run)|) && |Claims(s, s', run)| == |Due(s, overdue, run)|
  {
    assert Account(s, s', gone, run) && FirstCall(s, s', now, run);
    CallsOfRun(s, s', now, overdue, gone, run);
    OncePerCall(s, s', run);
  }

  /** And when the first call does claim the slot, nobody of the run is active or
      leased any more. */
  lemma ClaimEmptiesGroup(s: Scene, s': Scene, now: int, overdue: set<string>, gone: set<string>, run: string)
    requires Scanned(s, s', now, overdue, gone) && Claims(s, s', run) != [] && Claims(s, s', run)[0]
    ensures Claims(s, s', run) == [true]
    ensures forall id :: id in s'.views.kv && s'.views.kv[id].runId == run ==>
                           !IsActive(s'.views.kv, id) && !IsActive(s'.views.index, id) && id !in s'.views.live
  {
    assert Account(s, s', gone, run);
    forall id | id in s'.views.kv && s'.views.kv[id].runId == run
      ensures !IsActive(s'.views.kv, id) && !IsActive(s'.views.index, id) && id !in s'.views.live
    {
      assert AgreeOn(s'.views, id);
      assert IsActive(s'.views.kv, id) ==> id in ActiveOf(s'.views.kv, run);
    }
  }
}
