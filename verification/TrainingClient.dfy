/** What rank 0 does with the control plane: save, load, and the loop around
    them. */
module TrainingClient {
  import opened Sequences
  import opened ObjectKeys
  import opened ObjectStore
  import opened RunStates
  import opened Coordinator
  import opened DataPlane
  import opened ControlPlane
  import opened Protocol
  import opened Training
  import opened TrainingWalk

  function Decimal(n: nat): (digits: string)
    ensures digits != []
  {
    (if n < 10 then [] else Decimal(n / 10)) + ["0123456789"[n % 10]]
  }

  function ShardId(rank: nat): string { "rank-" + Decimal(rank) }

  /** More than the length of each of these. */
  method Beyond(keys: set<string>, least: nat) returns (n: nat)
    ensures n >= least && forall k :: k in keys ==> |k| < n
  {
    n := least;
    var left := keys;
    while left != {}
      invariant left <= keys && n >= least
      invariant forall k :: k in keys && k !in left ==> |k| < n
    {
      var k :| k in left;
      left := left - {k};
      if |k| >= n { n := |k| + 1; }
    }
  }

  lemma ShorterParts(key: string)
    ensures SplitKey(key).Some? ==> |SplitKey(key).value.1| <= |key|
  {
  }

  /** A checkpoint id that no record, list or object mentions. */
  method NewId(cp: ControlPlane) returns (id: string)
    ensures Unused(cp.View(), id)
  {
    var n := Beyond(cp.coordinator.checkpoints.Keys, 1);
    n := Beyond(cp.checkpointShards.Keys, n);
    n := Beyond(cp.service.s3.objects.Keys, n);
    id := seq(n, _ => '0');
    forall k | k in cp.service.s3.objects ensures !(SplitKey(k).Some? && SplitKey(k).value.1 == id) { ShorterParts(k); }
  }

  /** The run trains and has no upload under way. */
  ghost predicate Idle(w: World, run: string)
  {
    && run in w.runs && w.runs[run] == RUNNING
    && forall c :: c in w.checkpoints && w.checkpoints[c].runId == run ==> !w.checkpoints[c].state.IN_PROGRESS?
  }

  /** A pending checkpoint of this step. */
  method TriggerNew(cp: ControlPlane, run: string, step: nat, now: int) returns (id: Option<string>)
    requires cp.Valid()
    modifies cp.coordinator, cp.coordinator.owned
    ensures cp.Valid() && fresh(cp.coordinator.owned - old(cp.coordinator.owned))
    ensures if id.Some? then TriggerStep(old(cp.View()), run, step, id.value, cp.View()) else cp.View() == old(cp.View())
    ensures run in old(cp.View()).runs && old(cp.View()).runs[run] == RUNNING ==> id.Some?
  {
    var unused := NewId(cp);
    var triggered := cp.TriggerCheckpoint(run, Some(step), unused, now);
    id := if triggered.Success? then Some(unused) else None;
  }

  /** How a request of the worker ended: with this effect, or with none. */
  ghost predicate UploadEnded(sha: Bytes -> Digest, w: World, run: string, id: string, shard: string, rank: int, data: Bytes, uuid: Uuid,
                              ending: Option<Ending>, w': World)
  {
    if ending.Some? then UploadStep(sha, w, run, id, shard, rank, data, uuid, ending.value, w') else w' == w
  }

  ghost predicate CommitEnded(w: World, run: string, picked: string, ending: Option<Ending>, w': World)
  {
    if ending.Some? then CommitStep(w, run, picked, ending.value, w') else w' == w
  }

  method UploadOwn(cp: ControlPlane, run: string, id: string, rank: nat, data: Bytes, uuid: Uuid, now: int)
    returns (ok: bool, ghost ending: Option<Ending>)
    requires cp.Valid() && SlashFree(run)
    modifies cp, cp.coordinator, cp.coordinator.owned, cp.service.s3
    ensures cp.Valid() && fresh(cp.coordinator.owned - old(cp.coordinator.owned))
    ensures UploadEnded(cp.service.sha, old(cp.View()), run, id, ShardId(rank), rank, data, uuid, ending, cp.View())
    ensures ok <==> ending == Some(Succeeds)
    ensures cp.Reliable() && id in old(cp.View()).checkpoints && old(cp.View()).checkpoints[id].runId == run && data != [] ==> ok
  {
    var uploaded := cp.UploadShard(run, id, ShardId(rank), rank, data, uuid, now);
    ok := uploaded.Success?;
    ending := if ok then Some(Succeeds) else if uploaded == Http(502) then Some(Fails) else None;
  }

  method CommitUploaded(cp: ControlPlane, run: string, now: int) returns (ok: bool, ghost picked: string, ghost ending: Option<Ending>)
    requires cp.Valid()
    modifies cp, cp.coordinator, cp.coordinator.owned, cp.service.s3
    ensures cp.Valid() && fresh(cp.coordinator.owned - old(cp.coordinator.owned))
    ensures CommitEnded(old(cp.View()), run, picked, ending, cp.View())
    ensures ok ==> ending == Some(Succeeds)
    ensures cp.Reliable() && Committable(old(cp.View()), run) ==> ok
  {
    ghost var w := cp.View();
    var committed;
    committed, picked := cp.CommitRun(run, now);
    ok := committed.Success?;
    ending := if ok then Some(Succeeds) else if committed == Http(502) then Some(Fails)
              else if cp.View() == w then None else Some(Succeeds);
  }

  /** A save as the worker goes through it: it ends at its step or dies. */
  ghost predicate SaveTrail(sha: Bytes -> Digest, run: string, every: nat, w: World, step: nat, w': World, saved: bool, t: Trail)
    requires every > 0
  {
    && Walk(sha, run, every, t) && t.states[0] == System(w, Saving(step))
    && t.Last() == System(w', if saved then Working(step) else Down)
  }

  lemma NotTriggered(sha: Bytes -> Digest, run: string, every: nat, w: World, step: nat) returns (t: Trail)
    requires every > 0
    ensures SaveTrail(sha, run, every, w, step, w, false, t)
  {
    BeginWalks(sha, run, every, System(w, Saving(step)));
    t := Then(Begin(System(w, Saving(step))), Crash, System(w, Down));
    ThenWalks(sha, run, every, Begin(System(w, Saving(step))), Crash, System(w, Down));
  }

  lemma TriggerWalks(sha: Bytes -> Digest, run: string, every: nat, w: World, step: nat, id: string, w': World) returns (t: Trail)
    requires every > 0 && TriggerStep(w, run, step, id, w')
    ensures Walk(sha, run, every, t) && t.states[0] == System(w, Saving(step)) && t.Last() == System(w', Triggered(step, id))
  {
    var s := System(w, Saving(step));
    BeginWalks(sha, run, every, s);
    t := Then(Begin(s), TriggerSave(id, false), System(w', Triggered(step, id)));
    ThenWalks(sha, run, every, Begin(s), TriggerSave(id, false), System(w', Triggered(step, id)));
  }

  lemma UploadWalks(sha: Bytes -> Digest, run: string, every: nat, t: Trail, step: nat, id: string, shard: string, rank: int, data: Bytes,
                    uuid: Uuid, ending: Option<Ending>, w': World) returns (u: Trail)
    requires every > 0 && Walk(sha, run, every, t) && t.Last().phase == Triggered(step, id)
    requires UploadEnded(sha, t.Last().w, run, id, shard, rank, data, uuid, ending, w')
    ensures Walk(sha, run, every, u) && u.states[0] == t.states[0]
    ensures u.Last() == System(w', if ending == Some(Succeeds) then Uploaded(step, id) else Down)
  {
    var s' := System(w', if ending == Some(Succeeds) then Uploaded(step, id) else Down);
    var m := if ending.Some? then UploadSave(shard, rank, data, uuid, ending.value, false) else Crash;
    assert OwnMove(sha, run, every, t.Last(), m, s');
    ThenWalks(sha, run, every, t, m, s');
    u := Then(t, m, s');
  }

  lemma CommitWalks(sha: Bytes -> Digest, run: string, every: nat, t: Trail, step: nat, id: string, picked: string, ending: Option<Ending>,
                    ok: bool, w': World) returns (u: Trail)
    requires every > 0 && Walk(sha, run, every, t) && t.Last().phase == Uploaded(step, id)
    requires CommitEnded(t.Last().w, run, picked, ending, w') && (ok ==> ending == Some(Succeeds))
    ensures Walk(sha, run, every, u) && u.states[0] == t.states[0]
    ensures u.Last() == System(w', if ok then Working(step) else Down)
  {
    var s' := System(w', if ok then Working(step) else Down);
    var m := if ending.Some? then CommitSave(picked, ending.value, !ok) else Crash;
    assert OwnMove(sha, run, every, t.Last(), m, s');
    ThenWalks(sha, run, every, t, m, s');
    u := Then(t, m, s');
  }

  /** On an idle run the trigger leaves a pending record, */
  lemma TriggerReadies(w: World, run: string, step: nat, id: string, w': World)
    requires Idle(w, run) && TriggerStep(w, run, step, id, w')
    ensures run in w'.runs && w'.runs[run] == CHECKPOINTING && id in w'.checkpoints && w'.checkpoints[id].runId == run
    ensures forall c :: c in w'.checkpoints && w'.checkpoints[c].runId == run ==> !w'.checkpoints[c].state.IN_PROGRESS?
  {
  }

  /** the upload makes it the only one that a commit can pick, */
  lemma UploadReadies(sha: Bytes -> Digest, w: World, run: string, id: string, shard: string, rank: int, data: Bytes, uuid: Uuid, w': World)
    requires run in w.runs && w.runs[run] == CHECKPOINTING && UploadStep(sha, w, run, id, shard, rank, data, uuid, Succeeds, w')
    requires forall c :: c in w.checkpoints && w.checkpoints[c].runId == run ==> !w.checkpoints[c].state.IN_PROGRESS?
    ensures Committable(w', run) && w'.runs == w.runs && OnlyOpen(w', run, id)
  {
    assert w'.checkpoints[id].state.IN_PROGRESS?;
    EnteredFrom(CHECKPOINTING);
  }

  lemma SaveReadies(sha: Bytes -> Digest, w: World, run: string, step: nat, id: string, triggered: World, shard: string, rank: int,
                    data: Bytes, uuid: Uuid, w': World)
    requires TriggerStep(w, run, step, id, triggered) && UploadStep(sha, triggered, run, id, shard, rank, data, uuid, Succeeds, w')
    ensures Idle(w, run) ==> Committable(w', run) && CheckpointingOnly(w', run, id)
  {
    if Idle(w, run) {
      TriggerReadies(w, run, step, id, triggered);
      UploadReadies(sha, triggered, run, id, shard, rank, data, uuid, w');
    }
  }

  /** The run is checkpointing, and this is its only upload under way. */
  ghost predicate CheckpointingOnly(w: World, run: string, id: string)
  {
    run in w.runs && w.runs[run] == CHECKPOINTING && OnlyOpen(w, run, id)
  }

  ghost predicate OnlyOpen(w: World, run: string, id: string)
  {
    forall c :: c in w.checkpoints && w.checkpoints[c].runId == run && w.checkpoints[c].state.IN_PROGRESS? ==> c == id
  }

  /** and the commit leaves the run idle again. */
  lemma CommitReadies(w: World, run: string, id: string, picked: string, w': World)
    requires run in w.runs && w.runs[run] == CHECKPOINTING && OnlyOpen(w, run, id) && CommitStep(w, run, picked, Succeeds, w')
    ensures Idle(w', run)
  {
    EnteredFrom(CHECKPOINTING);
  }

  /** Trigger, upload, commit. A save that succeeds leaves a committed checkpoint
      of at least this step, even when the commit picks an older record; on a
      reliable system a save of an idle run succeeds and leaves it idle. */
  method SaveCheckpoint(cp: ControlPlane, run: string, step: nat, rank: nat, data: Bytes, uuid: Uuid, now: int, ghost every: nat)
    returns (saved: bool, ghost trail: Trail)
    requires cp.Valid() && SlashFree(run) && every > 0
    modifies cp, cp.coordinator, cp.coordinator.owned, cp.service.s3
    ensures cp.Valid() && fresh(cp.coordinator.owned - old(cp.coordinator.owned))
    ensures SaveTrail(cp.service.sha, run, every, old(cp.View()), step, cp.View(), saved, trail)
    ensures saved ==> CommittedFrom(cp.coordinator.checkpoints, run, step)
    ensures cp.Reliable() && Idle(old(cp.View()), run) && data != [] ==> saved && Idle(cp.View(), run)
  {
    ghost var w0 := cp.View();
    var id := TriggerNew(cp, run, step, now);
    if id.None? {
      trail := NotTriggered(cp.service.sha, run, every, w0, step);
      return false, trail;
    }
    saved, trail := UploadAndCommit(cp, run, step, id.value, rank, data, uuid, now, every, w0);
  }

  /** After the trigger. */
  method UploadAndCommit(cp: ControlPlane, run: string, step: nat, id: string, rank: nat, data: Bytes, uuid: Uuid, now: int,
                         ghost every: nat, ghost w0: World)
    returns (saved: bool, ghost trail: Trail)
    requires cp.Valid() && SlashFree(run) && every > 0 && TriggerStep(w0, run, step, id, cp.View())
    modifies cp, cp.coordinator, cp.coordinator.owned, cp.service.s3
    ensures cp.Valid() && fresh(cp.coordinator.owned - old(cp.coordinator.owned))
    ensures SaveTrail(cp.service.sha, run, every, w0, step, cp.View(), saved, trail)
    ensures saved ==> CommittedFrom(cp.coordinator.checkpoints, run, step)
    ensures cp.Reliable() && Idle(w0, run) && data != [] ==> saved && Idle(cp.View(), run)
  {
    trail := TriggerWalks(cp.service.sha, run, every, w0, step, id, cp.View());
    ghost var w1, ending := cp.View(), None;
    saved, ending := UploadOwn(cp, run, id, rank, data, uuid, now);
    trail := UploadWalks(cp.service.sha, run, every, trail, step, id, ShardId(rank), rank, data, uuid, ending, cp.View());
    if saved {
      UploadSaves(cp.service.sha, w1, run, step, id, ShardId(rank), rank, data, uuid, Succeeds, cp.View());
      SaveReadies(cp.service.sha, w0, run, step, id, w1, ShardId(rank), rank, data, uuid, cp.View());
      saved, trail := CommitOwn(cp, run, step, id, now, every, trail);
    }
  }

  /** After the upload. */
  method CommitOwn(cp: ControlPlane, run: string, step: nat, ghost id: string, now: int, ghost every: nat, ghost before: Trail)
    returns (saved: bool, ghost trail: Trail)
    requires cp.Valid() && every > 0 && Walk(cp.service.sha, run, every, before) && before.Last() == System(cp.View(), Uploaded(step, id))
    requires Ready(cp.coordinator.checkpoints, run, step, id)
    modifies cp, cp.coordinator, cp.coordinator.owned, cp.service.s3
    ensures cp.Valid() && fresh(cp.coordinator.owned - old(cp.coordinator.owned))
    ensures Walk(cp.service.sha, run, every, trail) && trail.states[0] == before.states[0]
    ensures trail.Last() == System(cp.View(), if saved then Working(step) else Down)
    ensures saved ==> CommittedFrom(cp.coordinator.checkpoints, run, step)
    ensures cp.Reliable() && Committable(old(cp.View()), run) ==> saved
    ensures saved && CheckpointingOnly(old(cp.View()), run, id) ==> Idle(cp.View(), run)
  {
    ghost var w := cp.View();
    ghost var picked, ending;
    saved, picked, ending := CommitUploaded(cp, run, now);
    trail := CommitWalks(cp.service.sha, run, every, before, step, id, picked, ending, saved, cp.View());
    if saved {
      CommitSaves(w, run, step, id, picked, Succeeds, cp.View());
      if CheckpointingOnly(w, run, id) { CommitReadies(w, run, id, picked, cp.View()); }
    }
  }

  /** A download of this shard addresses at least one byte. */
  predicate HasBytes(bucket: Bucket, run: string, c: string, shard: string)
  {
    Addressed(bucket, run, c, shard).Some? && Addressed(bucket, run, c, shard).value != []
  }

  /** Whichever checkpoint recovery selects has bytes for this rank or rank 0. */
  ghost predicate Loadable(w: World, run: string, rank: nat)
  {
    forall c :: RecoversFrom(w.checkpoints, run, c) ==> HasBytes(w.bucket, run, c, ShardId(rank)) || HasBytes(w.bucket, run, c, ShardId(0))
  }

  /** The committed checkpoint of the highest step and its bytes: this rank's
      shard, or rank 0's for the other ranks. */
  method LoadCheckpoint(cp: ControlPlane, run: string, rank: nat) returns (r: Outcome<Option<(string, Bytes)>>)
    ensures r.Ok? && r.value.None? ==> forall c :: !IsCommitted(cp.coordinator.checkpoints, run, c)
    ensures r.Ok? && r.value.Some? ==>
              var (c, data) := r.value.value;
              && RecoversFrom(cp.coordinator.checkpoints, run, c)
              && (Addressed(cp.service.s3.objects, run, c, ShardId(rank)) == Some(data)
                  || (rank != 0 && Addressed(cp.service.s3.objects, run, c, ShardId(0)) == Some(data)))
              && (cp.Reliable() && HasBytes(cp.service.s3.objects, run, c, ShardId(rank)) ==>
                    Addressed(cp.service.s3.objects, run, c, ShardId(rank)) == Some(data))
    ensures cp.Reliable() && Loadable(cp.View(), run, rank) ==> r.Ok?
  {
    var latest := Latest(cp, run);
    if latest.None? { return Ok(None); }
    var data := cp.DownloadShard(run, latest.value, ShardId(rank));
    if data.Http? && rank != 0 {
      data := cp.DownloadShard(run, latest.value, ShardId(0));
    }
    if data.Http? { return Err("Refusing to start from step 0 after restore failure"); }
    r := Ok(Some((latest.value, data.value)));
  }

  /** max(committed, key=step). */
  method Latest(cp: ControlPlane, run: string) returns (latest: Option<string>)
    ensures latest.Some? ==> RecoversFrom(cp.coordinator.checkpoints, run, latest.value)
    ensures latest.None? ==> forall c :: !IsCommitted(cp.coordinator.checkpoints, run, c)
  {
    var ids := cp.coordinator.ListCheckpoints(run);
    latest := None;
    for i := 0 to |ids|
      invariant latest.Some? ==> latest.value in ids && cp.coordinator.checkpoints[latest.value].state.COMMITTED?
      invariant forall j :: 0 <= j < i && cp.coordinator.checkpoints[ids[j]].state.COMMITTED? ==>
                              latest.Some? && cp.coordinator.checkpoints[ids[j]].step <= cp.coordinator.checkpoints[latest.value].step
    {
      if cp.coordinator.checkpoints[ids[i]].state.COMMITTED?
         && (latest.None? || cp.coordinator.checkpoints[ids[i]].step > cp.coordinator.checkpoints[latest.value].step) {
        latest := Some(ids[i]);
      }
    }
    forall c | IsCommitted(cp.coordinator.checkpoints, run, c)
      ensures latest.Some? && cp.coordinator.checkpoints[c].step <= cp.coordinator.checkpoints[latest.value].step
    {
      assert c in ids;
    }
  }

  /** The interval of the periodic saves; without them, one that is never reached. */
  ghost function Every(start: nat, steps: nat, interval: nat): (every: nat)
    ensures every > 0
  {
    if interval > 0 then interval else (if start <= steps then steps else start) + 1
  }

  /** Periodic saves fall on the multiples of that interval. */
  lemma SaveIsDue(start: nat, steps: nat, interval: nat, step: nat)
    requires 0 < step <= steps
    ensures step % Every(start, steps, interval) == 0 <==> interval > 0 && step % interval == 0
  {
    if interval == 0 {
      var every := Every(start, steps, interval);
      assert step < every;
      SmallMod(step, every);
    }
  }

  lemma SmallMod(x: nat, m: nat)
    requires 0 < x < m
    ensures x % m == x
  {
  }

  /** Train to the last step, saving at every multiple of the interval (none when
      it is zero) and finally the last step, unless that very step was saved; a
      failed save ends the loop with an error. A stop request is looked at between
      the steps. The trail goes through every one of the worker's moves. */
  method Train(cp: ControlPlane, run: string, start: nat, steps: nat, interval: nat, stops: set<nat>, rank: nat, uuid: Uuid, now: int)
    returns (r: Outcome<nat>, ghost trail: Trail)
    requires cp.Valid() && SlashFree(run)
    requires start > 0 ==> CommittedFrom(cp.coordinator.checkpoints, run, start)
    modifies cp, cp.coordinator, cp.coordinator.owned, cp.service.s3
    ensures cp.Valid()
    ensures r.Ok? ==> CommittedFrom(cp.coordinator.checkpoints, run, r.value)
    ensures r.Ok? ==> Reached(start, steps, stops, r.value) && (r.value >= steps || r.value in stops)
    ensures Walk(cp.service.sha, run, Every(start, steps, interval), trail) && trail.states[0] == System(old(cp.View()), Working(start))
    ensures trail.Last() == System(cp.View(), if r.Ok? then Working(r.value) else Down)
    ensures cp.Reliable() && Idle(old(cp.View()), run) ==> r.Ok?
  {
    ghost var first := System(cp.View(), Working(start));
    BeginWalks(cp.service.sha, run, Every(start, steps, interval), first);
    var ok, step, lastSaved;
    ok, step, lastSaved, trail := TrainLoop(cp, run, start, steps, interval, stops, rank, uuid, now, first);
    if ok {
      ok, trail := Finish(cp, run, step, lastSaved, rank, uuid, now, Every(start, steps, interval), trail);
    }
    if !ok { return Err("Checkpoint failed; distributed workers must recover as a group"), trail; }
    r := Ok(step);
  }

  method TrainLoop(cp: ControlPlane, run: string, start: nat, steps: nat, interval: nat, stops: set<nat>, rank: nat, uuid: Uuid, now: int,
                   ghost first: System)
    returns (ok: bool, step: nat, lastSaved: Option<nat>, ghost trail: Trail)
    requires cp.Valid() && SlashFree(run) && first == System(cp.View(), Working(start))
    requires start > 0 ==> CommittedFrom(cp.coordinator.checkpoints, run, start)
    modifies cp, cp.coordinator, cp.coordinator.owned, cp.service.s3
    ensures cp.Valid() && fresh(cp.coordinator.owned - old(cp.coordinator.owned))
    ensures ok ==> Reached(start, steps, stops, step) && (step >= steps || step in stops)
    ensures ok ==> UnderWay(cp, run, Every(start, steps, interval), trail, first, step, lastSaved)
    ensures !ok ==> TrainTrail(cp.service.sha, run, Every(start, steps, interval), trail, first, System(cp.View(), Down))
    ensures cp.Reliable() && Idle(first.w, run) ==> ok && Idle(cp.View(), run)
  {
    BeginWalks(cp.service.sha, run, Every(start, steps, interval), first);
    ok, step, lastSaved, trail := true, start, if start > 0 then Some(start) else None, Begin(first);
    while step < steps && step !in stops
      invariant Reached(start, steps, stops, step) && fresh(cp.coordinator.owned - old(cp.coordinator.owned)) && ok
      invariant UnderWay(cp, run, Every(start, steps, interval), trail, first, step, lastSaved)
      invariant cp.Reliable() && Idle(first.w, run) ==> Idle(cp.View(), run)
    {
      step := step + 1;
      ok, lastSaved, trail := AfterStep(cp, run, start, steps, interval, step, lastSaved, rank, uuid, now, first, trail);
      if !ok { return; }
    }
  }

  /** The loop has come from start to this step without meeting a stop request. */
  ghost predicate Reached(start: nat, steps: nat, stops: set<nat>, step: nat)
  {
    start <= step && (step > start ==> step <= steps) && forall k :: start <= k < step ==> k !in stops
  }

  /** The loop between two steps. */
  ghost predicate UnderWay(cp: ControlPlane, run: string, every: nat, trail: Trail, first: System, step: nat, lastSaved: Option<nat>)
    reads cp, cp.coordinator, cp.coordinator.owned, cp.service.s3
    requires every > 0
  {
    && cp.Valid() && (lastSaved.Some? ==> CommittedFrom(cp.coordinator.checkpoints, run, lastSaved.value))
    && TrainTrail(cp.service.sha, run, every, trail, first, System(cp.View(), Working(step)))
  }

  /** A step has been trained: save it if it is due. */
  method AfterStep(cp: ControlPlane, run: string, ghost start: nat, ghost steps: nat, interval: nat, step: nat, lastSaved: Option<nat>, rank: nat,
                   uuid: Uuid, now: int, ghost first: System, ghost before: Trail)
    returns (ok: bool, saved: Option<nat>, ghost trail: Trail)
    requires SlashFree(run) && 0 < step <= steps && UnderWay(cp, run, Every(start, steps, interval), before, first, step - 1, lastSaved)
    modifies cp, cp.coordinator, cp.coordinator.owned, cp.service.s3
    ensures cp.Valid() && fresh(cp.coordinator.owned - old(cp.coordinator.owned))
    ensures ok ==> UnderWay(cp, run, Every(start, steps, interval), trail, first, step, saved)
    ensures !ok ==> TrainTrail(cp.service.sha, run, Every(start, steps, interval), trail, first, System(cp.View(), Down))
    ensures cp.Reliable() && Idle(old(cp.View()), run) ==> ok && Idle(cp.View(), run)
  {
    SaveIsDue(start, steps, interval, step);
    if interval > 0 && step % interval == 0 {
      ok, trail := PeriodicSave(cp, run, step, rank, uuid, now, Every(start, steps, interval), before);
      saved := Some(step);
    } else {
      ok, saved := true, lastSaved;
      trail := Trained(cp.service.sha, run, Every(start, steps, interval), before, step);
    }
  }

  /** The loop has ended: save the last step unless that very step was saved. */
  method Finish(cp: ControlPlane, run: string, step: nat, lastSaved: Option<nat>, rank: nat, uuid: Uuid, now: int, ghost every: nat, ghost before: Trail)
    returns (ended: bool, ghost trail: Trail)
    requires cp.Valid() && SlashFree(run) && every > 0
    requires Walk(cp.service.sha, run, every, before) && before.Last() == System(cp.View(), Working(step))
    requires lastSaved.Some? ==> CommittedFrom(cp.coordinator.checkpoints, run, lastSaved.value)
    modifies cp, cp.coordinator, cp.coordinator.owned, cp.service.s3
    ensures cp.Valid()
    ensures TrainTrail(cp.service.sha, run, every, trail, before.states[0], System(cp.View(), if ended then Working(step) else Down))
    ensures ended ==> CommittedFrom(cp.coordinator.checkpoints, run, step)
    ensures cp.Reliable() && Idle(old(cp.View()), run) ==> ended
  {
    ended, trail := true, before;
    if lastSaved != Some(step) {
      ended, trail := FinalSave(cp, run, step, rank, uuid, now, every, before);
    }
  }

  ghost predicate TrainTrail(sha: Bytes -> Digest, run: string, every: nat, t: Trail, first: System, last: System)
    requires every > 0
  {
    Walk(sha, run, every, t) && t.states[0] == first && t.Last() == last
  }

  /** A step that needs no save. */
  lemma Trained(sha: Bytes -> Digest, run: string, every: nat, t: Trail, step: nat) returns (u: Trail)
    requires every > 0 && Walk(sha, run, every, t) && step > 0 && t.Last().phase == Working(step - 1) && step % every != 0
    ensures TrainTrail(sha, run, every, u, t.states[0], System(t.Last().w, Working(step)))
  {
    u := Then(t, Move.Train, System(t.Last().w, Working(step)));
    ThenWalks(sha, run, every, t, Move.Train, System(t.Last().w, Working(step)));
  }

  /** The step that reaches a multiple, and its save. */
  method PeriodicSave(cp: ControlPlane, run: string, step: nat, rank: nat, uuid: Uuid, now: int, ghost every: nat, ghost before: Trail)
    returns (saved: bool, ghost trail: Trail)
    requires cp.Valid() && SlashFree(run) && every > 0 && step > 0 && step % every == 0
    requires Walk(cp.service.sha, run, every, before) && before.Last() == System(cp.View(), Working(step - 1))
    modifies cp, cp.coordinator, cp.coordinator.owned, cp.service.s3
    ensures cp.Valid() && fresh(cp.coordinator.owned - old(cp.coordinator.owned))
    ensures TrainTrail(cp.service.sha, run, every, trail, before.states[0], System(cp.View(), if saved then Working(step) else Down))
    ensures saved ==> CommittedFrom(cp.coordinator.checkpoints, run, step)
    ensures cp.Reliable() && Idle(old(cp.View()), run) ==> saved && Idle(cp.View(), run)
  {
    ghost var s := System(cp.View(), Saving(step));
    ThenWalks(cp.service.sha, run, every, before, Move.Train, s);
    saved, trail := SaveFrom(cp, run, step, rank, uuid, now, every, Then(before, Move.Train, s));
  }

  /** The last step, and its save. */
  method FinalSave(cp: ControlPlane, run: string, step: nat, rank: nat, uuid: Uuid, now: int, ghost every: nat, ghost before: Trail)
    returns (saved: bool, ghost trail: Trail)
    requires cp.Valid() && SlashFree(run) && every > 0
    requires Walk(cp.service.sha, run, every, before) && before.Last() == System(cp.View(), Working(step))
    modifies cp, cp.coordinator, cp.coordinator.owned, cp.service.s3
    ensures cp.Valid() && fresh(cp.coordinator.owned - old(cp.coordinator.owned))
    ensures TrainTrail(cp.service.sha, run, every, trail, before.states[0], System(cp.View(), if saved then Working(step) else Down))
    ensures saved ==> CommittedFrom(cp.coordinator.checkpoints, run, step)
    ensures cp.Reliable() && Idle(old(cp.View()), run) ==> saved && Idle(cp.View(), run)
  {
    ghost var s := System(cp.View(), Saving(step));
    ThenWalks(cp.service.sha, run, every, before, Move.Stop, s);
    saved, trail := SaveFrom(cp, run, step, rank, uuid, now, every, Then(before, Move.Stop, s));
  }

  method SaveFrom(cp: ControlPlane, run: string, step: nat, rank: nat, uuid: Uuid, now: int, ghost every: nat, ghost before: Trail)
    returns (saved: bool, ghost trail: Trail)
    requires cp.Valid() && SlashFree(run) && every > 0
    requires Walk(cp.service.sha, run, every, before) && before.Last() == System(cp.View(), Saving(step))
    modifies cp, cp.coordinator, cp.coordinator.owned, cp.service.s3
    ensures cp.Valid() && fresh(cp.coordinator.owned - old(cp.coordinator.owned))
    ensures TrainTrail(cp.service.sha, run, every, trail, before.states[0], System(cp.View(), if saved then Working(step) else Down))
    ensures saved ==> CommittedFrom(cp.coordinator.checkpoints, run, step)
    ensures cp.Reliable() && Idle(old(cp.View()), run) ==> saved && Idle(cp.View(), run)
  {
    var data := Serialized();
    ghost var rest;
    saved, rest := SaveCheckpoint(cp, run, step, rank, data, uuid, now, every);
    JoinedWalks(cp.service.sha, run, every, before, rest);
    trail := Joined(before, rest);
  }

  /** The serialized training state: bytes the model says nothing about, but never
      none. */
  method Serialized() returns (data: Bytes)
    ensures data != []
  {
    data := *;
    if data == [] { data := [0]; }
  }
}
