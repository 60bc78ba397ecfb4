/** The control plane's checkpoint endpoints. Each handler is one step of the
    checkpoint protocol on the records, the shard lists and the bucket, or
    changes nothing. */
module ControlPlane {
  import opened Sequences
  import opened ObjectKeys
  import opened ObjectStore
  import opened RunStates
  import opened Coordinator
  import opened ShardWriter
  import opened DataPlane
  import opened Protocol

  const UPLOAD_CHUNK_SIZE: nat := 1024 * 1024

  datatype Reply<+T> = Success(value: T) | Http(code: nat)

  function StatesOf(runs: map<string, RunStatus>): map<string, RunState>
  {
    map r | r in runs :: runs[r].state
  }

  /** A run that can be moved on has an uploaded checkpoint, and no list of one
      has been lost. */
  ghost predicate Committable(w: World, run: string)
  {
    && run in w.runs && RunState.COMMITTED in Allowed(w.runs[run])
    && (exists c :: c in w.checkpoints && w.checkpoints[c].runId == run && w.checkpoints[c].state.IN_PROGRESS?)
    && forall c :: c in w.checkpoints && w.checkpoints[c].runId == run && w.checkpoints[c].state.IN_PROGRESS? ==> ListOf(w.shards, c) != []
  }

  /** A manifest that was there is kept; otherwise the list's is written. */
  ghost predicate KeptOrWritten(w: World, run: string, ckpt: string, bucket: Bucket)
  {
    var key := ManifestKey(run, ckpt);
    if key in w.bucket then bucket == w.bucket
    else ckpt in w.checkpoints && bucket == w.bucket[key := Doc(ManifestOf(run, ckpt, w.checkpoints[ckpt].step, ListOf(w.shards, ckpt)))]
  }

  lemma StatesUpdated(runs: map<string, RunStatus>, run: string, status: RunStatus)
    ensures StatesOf(runs[run := status]) == StatesOf(runs)[run := status.state]
    ensures run in runs && status.state == runs[run].state ==> StatesOf(runs[run := status]) == StatesOf(runs)
  {
  }

  class ControlPlane {
    const coordinator: Coordinator
    const service: CheckpointService
    /** The data plane can always be reached, and no answer is lost. */
    const linked: bool
    var checkpointShards: map<string, seq<ShardInfo>>

    ghost predicate Valid()
      reads coordinator`runs, coordinator`machines, coordinator`persisted, coordinator`owned, coordinator.owned
    {
      coordinator.Valid()
    }

    predicate Reliable() { linked && service.s3.reliable }

    /** Whether the data plane is connected. */
    method Connected() returns (connected: bool)
      ensures linked ==> connected
    {
      connected := *;
      connected := connected || linked;
    }

    /** Whether the answer of the data plane is lost. */
    method Lost() returns (lost: bool)
      ensures linked ==> !lost
    {
      lost := *;
      lost := lost && !linked;
    }

    /** What the protocol sees of the system. */
    ghost function View(): World
      reads this, coordinator, service.s3
    {
      World(StatesOf(coordinator.runs), coordinator.checkpoints, checkpointShards, service.s3.objects)
    }

    constructor (coordinator: Coordinator, service: CheckpointService, linked: bool)
      ensures this.coordinator == coordinator && this.service == service && this.linked == linked && checkpointShards == map[]
    {
      this.coordinator, this.service, this.linked, checkpointShards := coordinator, service, linked, map[];
    }

    /** A restart keeps the records and the bucket and loses the shard lists. */
    method Restart()
      requires Valid()
      modifies this, coordinator`machines
      ensures Valid() && View() == old(View()).(shards := map[])
    {
      coordinator.Restart();
      checkpointShards := map[];
    }

    /** POST /runs, under a new random id. */
    method CreateRun(id: string, numWorkers: nat, now: int)
      requires Valid() && id !in coordinator.runs
      modifies coordinator
      ensures Valid() && fresh(coordinator.owned - old(coordinator.owned))
      ensures View() == old(View()).(runs := old(View()).runs[id := CREATED])
    {
      StatesUpdated(coordinator.runs, id, RunStatus(CREATED, 0, now, numWorkers, None, None));
      coordinator.CreateRun(id, numWorkers, now);
    }

    /** POST /runs/{run}/checkpoint. */
    method TriggerCheckpoint(run: string, step: Option<int>, id: string, now: int) returns (r: Reply<string>)
      requires Valid() && id !in coordinator.checkpoints
      modifies coordinator, coordinator.owned
      ensures Valid() && fresh(coordinator.owned - old(coordinator.owned))
      ensures r == if run !in old(coordinator.runs) then Http(404)
                   else if RunState.CHECKPOINTING in Allowed(old(coordinator.runs)[run].state) then Success(id) else Http(409)
      ensures r.Success? ==>
                Triggered(old(View()), run, if step.Some? then step.value else old(coordinator.runs)[run].currentStep, id, View())
      ensures r.Http? ==> View() == old(View())
    {
      ghost var runs := coordinator.runs;
      var moved := coordinator.TransitionRun(run, RunState.CHECKPOINTING, now);
      if moved.NotFound? { return Http(404); }
      if moved.Rejected? { return Http(409); }
      StatesUpdated(runs, run, coordinator.runs[run]);
      ghost var moving := coordinator.runs;
      var effective := if step.Some? then step.value else coordinator.runs[run].currentStep;
      var created := coordinator.CreateCheckpoint(id, run, effective, now);
      StatesUpdated(moving, run, coordinator.runs[run]);
      r := Success(id);
    }

    /** Record the failure, mark the run failed if the table allows it, forget
        the shard list, and have the data plane clear the partial objects. */
    method AbortFailedCheckpoint(run: string, id: string, message: string, now: int)
      requires Valid() && id in coordinator.checkpoints
      modifies this, coordinator, coordinator.owned, service.s3
      ensures Valid() && fresh(coordinator.owned - old(coordinator.owned))
      ensures Aborted(old(View()), old(service.s3.objects), run, id, View())
      ensures Reliable() ==> service.s3.objects == old(service.s3.objects) - Doomed(old(service.s3.objects), run, id)
    {
      RecordFailure(run, id, message, now);
      var connected := Connected();
      if connected {
        var cleared := service.AbortCheckpoint(id, run);
      }
    }

    method RecordFailure(run: string, id: string, message: string, now: int)
      requires Valid() && id in coordinator.checkpoints
      modifies this, coordinator, coordinator.owned
      ensures Valid() && fresh(coordinator.owned - old(coordinator.owned))
      ensures coordinator.checkpoints == old(coordinator.checkpoints)[id := old(coordinator.checkpoints)[id].(state := CheckpointState.FAILED)]
      ensures StatesOf(coordinator.runs) == Moved(old(StatesOf(coordinator.runs)), run, RunState.FAILED)
      ensures checkpointShards == old(checkpointShards) - {id}
    {
      ghost var runs := coordinator.runs;
      var failed := coordinator.UpdateCheckpointState(id, CheckpointState.FAILED, None);
      var marked := coordinator.SetRunError(run, message, now);
      if marked.Done? { StatesUpdated(runs, run, coordinator.runs[run]); }
      checkpointShards := checkpointShards - {id};
    }

    /** dp.write_shard over the stream: the connection may break while sending,
        or the answer may be lost. Whatever happens only the upload's own keys
        are touched; an answer carries length, digest and key of the body. */
    method SendShard(run: string, ckpt: string, shard: string, body: Bytes, uuid: Uuid) returns (r: Outcome<WriteResult>)
      requires SlashFree(run) && body != []
      modifies service.s3
      ensures var key := ShardKey(run, ckpt, Digits(service.sha(body)), shard);
              && TouchesOwnKeys(old(service.s3.objects), service.s3.objects, StagingKey(run, ckpt, shard, uuid), key,
                                SidecarKey(run, ckpt, shard), body)
              && (r.Ok? ==> r.value == WriteResult(shard, |body|, service.sha(body), key) && key in service.s3.objects
                            && StagingKey(run, ckpt, shard, uuid) !in service.s3.objects)
      ensures Reliable() ==> r.Ok?
    {
      var chunks := CutMessages(run, ckpt, shard, body);
      ChunksCarryBody(shard, run + "/" + ckpt, body, UPLOAD_CHUNK_SIZE);
      CompositeSplits(run, ckpt);
      RelayedIntact(chunks, shard, run + "/" + ckpt);
      var stream := AllOk(chunks);
      var sent :| 0 <= sent <= |chunks| && (linked ==> sent == |chunks|);
      if sent < |chunks| {
        stream := AllOk(chunks[..sent]) + [Err("connection lost")];
        CutOffDeliversNothing(chunks[..sent], "connection lost", shard, run + "/" + ckpt);
      }
      r := service.WriteShard(stream, uuid);
      var lost := Lost();
      if lost { r := Err("answer lost"); }
    }

    /** POST /runs/{run}/checkpoints/{ckpt}/shards/{shard}. */
    method UploadShard(run: string, ckpt: string, shard: string, rank: int, body: Bytes, uuid: Uuid, now: int)
      returns (r: Reply<WriteResult>)
      requires Valid() && SlashFree(run)
      modifies this, coordinator, coordinator.owned, service.s3
      ensures Valid() && fresh(coordinator.owned - old(coordinator.owned))
      ensures r.Success? ==> UploadStep(service.sha, old(View()), run, ckpt, shard, rank, body, uuid, Succeeds, View())
                             && r.value == WriteResult(shard, |body|, service.sha(body), ShardKey(run, ckpt, Digits(service.sha(body)), shard))
      ensures r == Http(502) ==> UploadStep(service.sha, old(View()), run, ckpt, shard, rank, body, uuid, Fails, View())
      ensures r.Http? && r.code != 502 ==> View() == old(View())
      ensures r != Http(503) ==> (r == Http(404) <==> ckpt !in old(coordinator.checkpoints) || old(coordinator.checkpoints)[ckpt].runId != run)
      ensures r != Http(503) && r != Http(404) ==> (r == Http(400) <==> body == [])
      ensures r.Http? ==> r.code in if Reliable() then {400, 404} else {400, 404, 502, 503}
    {
      var connected := Connected();
      if !connected { return Http(503); }
      if ckpt !in coordinator.checkpoints { return Http(404); }
      if coordinator.checkpoints[ckpt].runId != run { return Http(404); }
      if body == [] { return Http(400); }
      ghost var before := View();
      var result := SendShard(run, ckpt, shard, body, uuid);
      if result.Err? {
        ghost var bucket := service.s3.objects;
        AbortFailedCheckpoint(run, ckpt, "Checkpoint shard upload failed", now);
        assert UploadVia(service.sha, before, run, ckpt, shard, rank, body, uuid, Fails, bucket, View());
        return Http(502);
      }
      var storageKey := run + "/" + ckpt + "/sha256-" + result.value.checksum[..16] + "-" + shard + ".bin";
      RecomputedKey(run, ckpt, result.value.checksum, shard);
      TrackShard(ckpt, ShardInfo(shard, rank, result.value.totalBytes, result.value.checksum, storageKey));
      assert UploadVia(service.sha, before, run, ckpt, shard, rank, body, uuid, Succeeds, service.s3.objects, View());
      r := Success(result.value);
    }

    /** Append the entry to the checkpoint's list and update its record. */
    method TrackShard(ckpt: string, info: ShardInfo)
      requires Valid() && ckpt in coordinator.checkpoints
      modifies this, coordinator`checkpoints
      ensures Valid()
      ensures var list := ListOf(old(checkpointShards), ckpt) + [info];
              && checkpointShards == old(checkpointShards)[ckpt := list]
              && coordinator.checkpoints == old(coordinator.checkpoints)[ckpt := old(coordinator.checkpoints)[ckpt].(
                   state := IN_PROGRESS, numShards := |list|, totalBytes := TotalSize(list), shardIds := ShardIds(list))]
    {
      var list := (if ckpt in checkpointShards then checkpointShards[ckpt] else []) + [info];
      checkpointShards := checkpointShards[ckpt := list];
      var updated := coordinator.UpdateCheckpointState(ckpt, IN_PROGRESS, Some((|list|, TotalSize(list), ShardIds(list))));
    }

    /** The last open upload in the listing by step. */
    method PickCheckpoint(run: string) returns (picked: Option<string>)
      ensures picked.Some? ==> Picked(coordinator.checkpoints, run, picked.value)
      ensures picked.None? ==> forall c :: c in coordinator.checkpoints && coordinator.checkpoints[c].runId == run ==>
                                             !coordinator.checkpoints[c].state.IN_PROGRESS?
    {
      var ids := coordinator.ListCheckpoints(run);
      var i := |ids|;
      while i > 0
        invariant 0 <= i <= |ids|
        invariant forall j :: i <= j < |ids| ==> !coordinator.checkpoints[ids[j]].state.IN_PROGRESS?
      {
        i := i - 1;
        if coordinator.checkpoints[ids[i]].state.IN_PROGRESS? {
          return Some(ids[i]);
        }
      }
      picked := None;
    }

    /** POST /runs/{run}/commit. A refusal before the data plane is asked changes
        nothing; a 409 after it means that the checkpoint is committed but the
        run could not be moved on. */
    method CommitRun(run: string, now: int) returns (r: Reply<string>, ghost ckpt: string)
      requires Valid()
      modifies this, coordinator, coordinator.owned, service.s3
      ensures Valid() && fresh(coordinator.owned - old(coordinator.owned))
      ensures r.Success? ==> r.value == ckpt && CommitStep(old(View()), run, ckpt, Succeeds, View()) && run in old(coordinator.runs)
                             && RunState.COMMITTED in Allowed(old(coordinator.runs)[run].state)
      ensures r == Http(502) ==> CommitStep(old(View()), run, ckpt, Fails, View())
      ensures r == Http(404) <==> run !in old(coordinator.runs)
      ensures r == Http(404) || r == Http(503) ==> View() == old(View())
      ensures r == Http(409) ==> View() == old(View())
                                 || (CommitStep(old(View()), run, ckpt, Succeeds, View())
                                     && RunState.COMMITTED !in Allowed(old(coordinator.runs)[run].state))
      ensures r.Http? ==> r.code in if Reliable() then {404, 409} else {404, 409, 502, 503}
      ensures Reliable() && Committable(old(View()), run) ==> r.Success?
      ensures Reliable() && r.Success? ==> KeptOrWritten(old(View()), run, ckpt, service.s3.objects)
    {
      ckpt := "";
      if run !in coordinator.runs { return Http(404), ckpt; }
      var picked := PickCheckpoint(run);
      if picked.None? { return Http(409), ckpt; }
      var connected := Connected();
      if !connected { return Http(503), ckpt; }
      ckpt := picked.value;
      var list := if picked.value in checkpointShards then checkpointShards[picked.value] else [];
      if list == [] { return Http(409), ckpt; }
      r := CommitPicked(run, picked.value, list, now);
    }

    /** The data plane commits the picked checkpoint, and its answer is recorded. */
    method CommitPicked(run: string, id: string, list: seq<ShardInfo>, now: int) returns (r: Reply<string>)
      requires Valid() && run in coordinator.runs && Picked(coordinator.checkpoints, run, id)
      requires list != [] && list == ListOf(checkpointShards, id)
      modifies this, coordinator, coordinator.owned, service.s3
      ensures Valid() && fresh(coordinator.owned - old(coordinator.owned))
      ensures r == (if RunState.COMMITTED in Allowed(old(coordinator.runs)[run].state) then Success(id) else Http(409))
              || (r == Http(502) && !Reliable())
      ensures if r == Http(502) then CommitStep(old(View()), run, id, Fails, View()) else CommitStep(old(View()), run, id, Succeeds, View())
      ensures Reliable() ==> KeptOrWritten(old(View()), run, id, service.s3.objects)
    {
      ghost var before := View();
      var result := service.CommitCheckpoint(id, run, coordinator.checkpoints[id].step, list);
      ghost var bucket := service.s3.objects;
      var lost := Lost();
      if lost || result.Err? {
        AbortFailedCheckpoint(run, id, "Checkpoint manifest write failed", now);
        assert CommitVia(before, run, id, Fails, bucket, View());
        return Http(502);
      }
      var moved := MarkCommitted(run, id, now);
      assert CommitVia(before, run, id, Succeeds, bucket, View());
      r := if moved then Success(id) else Http(409);
    }

    method MarkCommitted(run: string, id: string, now: int) returns (moved: bool)
      requires Valid() && id in coordinator.checkpoints && run in coordinator.runs
      modifies this, coordinator, coordinator.owned
      ensures Valid() && fresh(coordinator.owned - old(coordinator.owned))
      ensures moved <==> RunState.COMMITTED in Allowed(old(coordinator.runs)[run].state)
      ensures coordinator.checkpoints == old(coordinator.checkpoints)[id := old(coordinator.checkpoints)[id].(state := CheckpointState.COMMITTED)]
      ensures StatesOf(coordinator.runs) == AfterCommit(old(StatesOf(coordinator.runs)), run)
      ensures checkpointShards == old(checkpointShards) - {id}
    {
      checkpointShards := checkpointShards - {id};
      var updated := coordinator.UpdateCheckpointState(id, CheckpointState.COMMITTED, None);
      moved := MoveOn(run, now);
    }

    /** COMMITTED, then RUNNING so that the next checkpoint can be triggered. */
    method MoveOn(run: string, now: int) returns (moved: bool)
      requires Valid() && run in coordinator.runs
      modifies coordinator`runs, coordinator`machines, coordinator`persisted, coordinator`owned, coordinator.owned
      ensures Valid() && fresh(coordinator.owned - old(coordinator.owned))
      ensures moved <==> RunState.COMMITTED in Allowed(old(coordinator.runs)[run].state)
      ensures StatesOf(coordinator.runs) == AfterCommit(old(StatesOf(coordinator.runs)), run)
    {
      ghost var states := StatesOf(coordinator.runs);
      moved := Transition(run, RunState.COMMITTED, now);
      if moved {
        assert StatesOf(coordinator.runs)[run] == RunState.COMMITTED;
        var running := Transition(run, RUNNING, now);
      }
    }

    /** A transition of a known run, as the protocol sees it. */
    method Transition(run: string, target: RunState, now: int) returns (moved: bool)
      requires Valid() && run in coordinator.runs
      modifies coordinator`runs, coordinator`machines, coordinator`persisted, coordinator`owned, coordinator.owned
      ensures Valid() && fresh(coordinator.owned - old(coordinator.owned))
      ensures run in coordinator.runs && (moved <==> target in Allowed(old(coordinator.runs)[run].state))
      ensures StatesOf(coordinator.runs) == Moved(old(StatesOf(coordinator.runs)), run, target)
    {
      ghost var runs := coordinator.runs;
      var change := coordinator.TransitionRun(run, target, now);
      if change.Done? { StatesUpdated(runs, run, coordinator.runs[run]); }
      moved := change.Done?;
    }

    /** POST /runs/{run}/start, /cancel and /complete. */
    method ChangeRun(run: string, target: RunState, now: int) returns (r: Reply<RunState>)
      requires Valid()
      modifies coordinator, coordinator.owned
      ensures Valid() && fresh(coordinator.owned - old(coordinator.owned))
      ensures r == if run !in old(coordinator.runs) then Http(404)
                   else if target in Allowed(old(coordinator.runs)[run].state) then Success(target) else Http(409)
      ensures View() == if r.Success? then old(View()).(runs := old(View()).runs[run := target]) else old(View())
    {
      if run !in coordinator.runs { return Http(404); }
      var moved := Transition(run, target, now);
      r := if moved then Success(target) else Http(409);
    }

    /** POST /runs/{run}/resume. */
    method ResumeRun(run: string, now: int) returns (r: Reply<RunState>)
      requires Valid()
      modifies coordinator, coordinator.owned
      ensures Valid() && fresh(coordinator.owned - old(coordinator.owned))
      ensures coordinator.checkpoints == old(coordinator.checkpoints)
      ensures r == if run !in old(coordinator.runs) then Http(404)
                   else if Terminal(old(coordinator.runs)[run].state) then Http(409)
                   else Success(if old(coordinator.runs)[run].state == RunState.FAILED then RECOVERING else RUNNING)
      ensures View() == if r.Success? then old(View()).(runs := old(View()).runs[run := r.value]) else old(View())
      ensures r.Success? && r.value != old(coordinator.runs)[run].state ==> r.value in Allowed(old(coordinator.runs)[run].state)
    {
      if run !in coordinator.runs { return Http(404); }
      var state := coordinator.runs[run].state;
      var moved := true;
      if state == RunState.FAILED {
        moved := Transition(run, RECOVERING, now);
      } else if state == RECOVERING {
        moved := Transition(run, RUNNING, now);
      } else if state == RUNNING {
      } else if state in {RunState.COMMITTED, CREATED, CHECKPOINTING} {
        moved := Transition(run, RUNNING, now);
      } else {
        moved := false;
      }
      if !moved { return Http(409); }
      assert StatesOf(coordinator.runs)[run] == if state == RunState.FAILED then RECOVERING else RUNNING;
      r := Success(coordinator.runs[run].state);
    }

    /** GET /runs/{run}/checkpoints/{ckpt}/shards/{shard}: the join of the
        messages of the data plane. */
    method DownloadShard(run: string, ckpt: string, shard: string) returns (r: Reply<Bytes>)
      ensures r.Success? ==> Addressed(service.s3.objects, run, ckpt, shard) == Some(r.value) && r.value != []
      ensures r.Http? ==> r.code in {404, 500, 503}
      ensures Reliable() ==> r == var data := Addressed(service.s3.objects, run, ckpt, shard);
                                  if data.None? then Http(500) else if data.value == [] then Http(404) else Success(data.value)
    {
      var connected := Connected();
      if !connected { return Http(503); }
      var messages := service.ReadShard(shard, ckpt, run);
      if messages.Err? { return Http(500); }
      if messages.value == [] { return Http(404); }
      ChunksCarryBody(shard, ckpt, Addressed(service.s3.objects, run, ckpt, shard).value, READ_CHUNK_SIZE);
      var content: Bytes := [];
      for i := 0 to |messages.value|
        invariant content == Join(Payloads(messages.value)[..i])
      {
        assert Payloads(messages.value)[..i + 1] == Payloads(messages.value)[..i] + [messages.value[i].data];
        JoinPush(Payloads(messages.value)[..i], messages.value[i].data);
        content := content + messages.value[i].data;
      }
      assert Payloads(messages.value)[..|messages.value|] == Payloads(messages.value);
      r := Success(content);
    }
  }

  /** The key the control plane recomputes from the reported digest is the one
      the writer filled. */
  lemma RecomputedKey(run: string, ckpt: string, checksum: Digest, shard: string)
    ensures run + "/" + ckpt + "/sha256-" + checksum[..16] + "-" + shard + ".bin" == ShardKey(run, ckpt, Digits(checksum), shard)
  {
  }

  /** The messages of an upload: the body in pieces of 1 MiB, under the
      composite id that carries the run. */
  method CutMessages(run: string, ckpt: string, shard: string, body: Bytes) returns (chunks: seq<ShardChunk>)
    ensures chunks == ChunksOf(shard, run + "/" + ckpt, body, UPLOAD_CHUNK_SIZE)
  {
    var composite := run + "/" + ckpt;
    ghost var all := ChunksOf(shard, composite, body, UPLOAD_CHUNK_SIZE);
    chunks := [];
    var offset := 0;
    while offset < |body|
      invariant |chunks| <= |all| && chunks == all[..|chunks|]
      invariant offset == if |chunks| * UPLOAD_CHUNK_SIZE <= |body| then |chunks| * UPLOAD_CHUNK_SIZE else |body|
      invariant offset == |body| <==> |chunks| == |all|
    {
      var end := if offset + UPLOAD_CHUNK_SIZE <= |body| then offset + UPLOAD_CHUNK_SIZE else |body|;
      SliceAt(body, UPLOAD_CHUNK_SIZE, |chunks|);
      chunks := chunks + [ShardChunk(shard, composite, offset, body[offset..end], end >= |body|)];
      offset := end;
    }
  }

  /** A stream cut off by a transport error delivers nothing. */
  lemma {:induction false} CutOffDeliversNothing(chunks: seq<ShardChunk>, error: string, shard: string, ckpt: string)
    ensures Received(Relayed(AllOk(chunks) + [Err(error)], shard, ckpt)) == None
  {
    var stream := AllOk(chunks) + [Err(error)];
    if chunks != [] {
      CutOffDeliversNothing(chunks[1..], error, shard, ckpt);
      assert stream[1..] == AllOk(chunks[1..]) + [Err(error)];
    }
  }
}
