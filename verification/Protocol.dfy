/** The checkpoint protocol as steps over records, the in-memory shard lists and
    the bucket, and its safety over whole runs: a committed checkpoint can
    always be restored, and a download returns what was uploaded. */
module Protocol {
  import opened Sequences
  import opened ObjectKeys
  import opened ObjectStore
  import opened RunStates
  import opened Coordinator
  import opened ShardWriter
  import opened DataPlane

  datatype World = World(runs: map<string, RunState>, checkpoints: map<string, Checkpoint>,
                         shards: map<string, seq<ShardInfo>>, bucket: Bucket)

  function ListOf(shards: map<string, seq<ShardInfo>>, ckpt: string): seq<ShardInfo>
  {
    if ckpt in shards then shards[ckpt] else []
  }

  function ShardIds(shards: seq<ShardInfo>): (ids: seq<string>)
    ensures |ids| == |shards| && forall i :: 0 <= i < |ids| ==> ids[i] == shards[i].shardId
  {
    seq(|shards|, i requires 0 <= i < |shards| => shards[i].shardId)
  }

  datatype Action =
    | CreateRun(run: string)
    | ChangeRun(run: string, target: RunState)
    | Trigger(run: string, step: int, ckpt: string)
    | Upload(run: string, ckpt: string, shard: string, rank: int, body: Bytes, uuid: Uuid, ending: Ending)
    | Commit(run: string, ckpt: string, ending: Ending)
    | FailWorkers(run: string)
    | Restart
    | Prune(plan: set<(string, string)>)

  /** How a handler that talks to the data plane ends: it succeeds, the data
      plane reports a failure, or the control plane dies before recording it. */
  datatype Ending = Succeeds | Fails | Dies

  predicate Open(state: CheckpointState) { state.PENDING? || state.IN_PROGRESS? }

  /** The checkpoint a commit picks: in progress, and of the highest step. */
  ghost predicate Picked(checkpoints: map<string, Checkpoint>, run: string, ckpt: string)
  {
    && ckpt in checkpoints && checkpoints[ckpt].runId == run && checkpoints[ckpt].state.IN_PROGRESS?
    && forall c :: c in checkpoints && checkpoints[c].runId == run && checkpoints[c].state.IN_PROGRESS?
                   ==> checkpoints[c].step <= checkpoints[ckpt].step
  }

  /** A new random id: no record, list or object mentions it. */
  ghost predicate Unused(w: World, ckpt: string)
  {
    && SlashFree(ckpt) && ckpt !in w.checkpoints && ckpt !in w.shards
    && forall k :: k in w.bucket ==> !(SplitKey(k).Some? && SplitKey(k).value.1 == ckpt)
  }

  function Uploaded(sha: Bytes -> Digest, run: string, ckpt: string, shard: string, rank: int, body: Bytes): ShardInfo
  {
    ShardInfo(shard, rank, |body|, sha(body), ShardKey(run, ckpt, Digits(sha(body)), shard))
  }

  /** The run's state after a transition request; a refused one changes nothing. */
  function Moved(runs: map<string, RunState>, run: string, target: RunState): map<string, RunState>
  {
    if run in runs && target in Allowed(runs[run]) then runs[run := target] else runs
  }

  /** The run is COMMITTED and at once RUNNING again, unless it has left
      CHECKPOINTING meanwhile. */
  function AfterCommit(runs: map<string, RunState>, run: string): map<string, RunState>
  {
    if run in runs && RunState.COMMITTED in Allowed(runs[run]) then runs[run := RunState.RUNNING] else runs
  }

  /** Record the failure, forget the shard list, clear the partial objects. */
  ghost predicate Aborted(w: World, bucket: Bucket, run: string, ckpt: string, w': World)
    requires ckpt in w.checkpoints
  {
    && w'.checkpoints == w.checkpoints[ckpt := w.checkpoints[ckpt].(state := CheckpointState.FAILED)]
    && w'.runs == Moved(w.runs, run, RunState.FAILED)
    && w'.shards == w.shards - {ckpt}
    && Cleared(bucket, w'.bucket, run, ckpt)
  }

  /** The run is checkpointing and the new record pending. */
  ghost predicate Triggered(w: World, run: string, step: int, ckpt: string, w': World)
  {
    && run in w.runs && RunState.CHECKPOINTING in Allowed(w.runs[run])
    && w' == w.(runs := w.runs[run := RunState.CHECKPOINTING],
                checkpoints := w.checkpoints[ckpt := Checkpoint(run, step, PENDING, 0, 0, [])])
  }

  ghost predicate TriggerStep(w: World, run: string, step: int, ckpt: string, w': World)
  {
    Unused(w, ckpt) && Triggered(w, run, step, ckpt, w')
  }

  /** An upload; the handler asks for a record of this run and a non-empty body,
      not for the record's state. The data plane leaves the given bucket behind. */
  ghost predicate UploadVia(sha: Bytes -> Digest, w: World, run: string, ckpt: string, shard: string, rank: int, body: Bytes,
                            uuid: Uuid, ending: Ending, bucket: Bucket, w': World)
  {
    && ckpt in w.checkpoints && w.checkpoints[ckpt].runId == run && body != []
    && TouchesOwnKeys(w.bucket, bucket, StagingKey(run, ckpt, shard, uuid), ShardKey(run, ckpt, Digits(sha(body)), shard),
                      SidecarKey(run, ckpt, shard), body)
    && match ending
       case Succeeds =>
         var list := ListOf(w.shards, ckpt) + [Uploaded(sha, run, ckpt, shard, rank, body)];
         && ShardKey(run, ckpt, Digits(sha(body)), shard) in bucket
         && w' == w.(bucket := bucket, shards := w.shards[ckpt := list],
                     checkpoints := w.checkpoints[ckpt := w.checkpoints[ckpt].(
                       state := IN_PROGRESS, numShards := |list|, totalBytes := TotalSize(list), shardIds := ShardIds(list))])
       case Fails => Aborted(w, bucket, run, ckpt, w')
       case Dies => w' == w.(bucket := bucket, shards := map[])
  }

  ghost predicate UploadStep(sha: Bytes -> Digest, w: World, run: string, ckpt: string, shard: string, rank: int, body: Bytes,
                             uuid: Uuid, ending: Ending, w': World)
  {
    exists bucket: Bucket :: UploadVia(sha, w, run, ckpt, shard, rank, body, uuid, ending, bucket, w')
  }

  ghost predicate CommitVia(w: World, run: string, ckpt: string, ending: Ending, bucket: Bucket, w': World)
  {
    && Picked(w.checkpoints, run, ckpt) && ListOf(w.shards, ckpt) != []
    && CommitEffect(w.bucket, bucket, ManifestOf(run, ckpt, w.checkpoints[ckpt].step, ListOf(w.shards, ckpt)), ending.Succeeds?)
    && match ending
       case Succeeds =>
         w' == World(AfterCommit(w.runs, run),
                     w.checkpoints[ckpt := w.checkpoints[ckpt].(state := CheckpointState.COMMITTED)],
                     w.shards - {ckpt}, bucket)
       case Fails => Aborted(w, bucket, run, ckpt, w')
       case Dies => w' == w.(bucket := bucket, shards := map[])
  }

  ghost predicate CommitStep(w: World, run: string, ckpt: string, ending: Ending, w': World)
  {
    exists bucket: Bucket :: CommitVia(w, run, ckpt, ending, bucket, w')
  }

  /** All open checkpoints of a run are given up. */
  function GivenUp(checkpoints: map<string, Checkpoint>, run: string): map<string, Checkpoint>
  {
    map c | c in checkpoints ::
      if checkpoints[c].runId == run && Open(checkpoints[c].state) then checkpoints[c].(state := CheckpointState.FAILED)
      else checkpoints[c]
  }

  /** Recovery picks the committed checkpoint of the highest step. */
  ghost predicate RecoversFrom(checkpoints: map<string, Checkpoint>, run: string, c: string)
  {
    && c in checkpoints && checkpoints[c].runId == run && checkpoints[c].state.COMMITTED?
    && forall other :: other in checkpoints && checkpoints[other].runId == run && checkpoints[other].state.COMMITTED?
                       ==> checkpoints[other].step <= checkpoints[c].step
  }

  ghost predicate FailStep(w: World, run: string, w': World)
  {
    && run in w.runs && (w.runs[run] == RunState.FAILED || RunState.FAILED in Allowed(w.runs[run]))
    && (w'.runs == w.runs[run := RunState.FAILED] || w'.runs == w.runs[run := RunState.RECOVERING])
    && w' == w.(runs := w'.runs, checkpoints := GivenUp(w.checkpoints, run))
  }

  /** A retention pass without errors: the planned groups go, objects and
      records both. */
  ghost predicate PruneStep(w: World, plan: set<(string, string)>, w': World)
  {
    && w'.bucket == WithoutObjects(w.bucket, plan)
    && w' == w.(bucket := w'.bucket, checkpoints := WithoutRecords(w.checkpoints, plan))
  }

  function WithoutObjects(bucket: Bucket, plan: set<(string, string)>): Bucket
  {
    map k | k in bucket && !InPlan(k, plan) :: bucket[k]
  }

  function WithoutRecords(checkpoints: map<string, Checkpoint>, plan: set<(string, string)>): map<string, Checkpoint>
  {
    map c | c in checkpoints && (checkpoints[c].runId, c) !in plan :: checkpoints[c]
  }

  predicate InPlan(key: string, plan: set<(string, string)>)
  {
    SplitKey(key).Some? && (SplitKey(key).value.0, SplitKey(key).value.1) in plan
  }

  ghost predicate Next(sha: Bytes -> Digest, w: World, a: Action, w': World)
  {
    match a
    case CreateRun(run) => run !in w.runs && SlashFree(run) && w' == w.(runs := w.runs[run := RunState.CREATED])
    case ChangeRun(run, target) => w' == w.(runs := Moved(w.runs, run, target))
    case Trigger(run, step, ckpt) => TriggerStep(w, run, step, ckpt, w')
    case Upload(run, ckpt, shard, rank, body, uuid, ending) => UploadStep(sha, w, run, ckpt, shard, rank, body, uuid, ending, w')
    case Commit(run, ckpt, ending) => CommitStep(w, run, ckpt, ending, w')
    case FailWorkers(run) => FailStep(w, run, w')
    case Restart => w' == w.(shards := map[])
    case Prune(plan) => PruneStep(w, plan, w')
  }

  // ------------------------------------------------------------------
  // The invariant

  /** The object of this entry is in the bucket with its recorded size and digest. */
  ghost predicate Stands(sha: Bytes -> Digest, bucket: Bucket, run: string, ckpt: string, s: ShardInfo)
  {
    && s.storageKey == ShardKey(run, ckpt, Digits(s.sha256), s.shardId)
    && s.storageKey in bucket && bucket[s.storageKey].Blob?
    && |bucket[s.storageKey].data| == s.sizeBytes && sha(bucket[s.storageKey].data) == s.sha256
  }

  /** The checkpoint's manifest is there and everything it lists stands. */
  ghost predicate Restorable(sha: Bytes -> Digest, bucket: Bucket, run: string, ckpt: string)
  {
    var key := ManifestKey(run, ckpt);
    && key in bucket && bucket[key].Doc?
    && bucket[key].manifest.runId == run && bucket[key].manifest.checkpointId == ckpt
    && forall i :: 0 <= i < |bucket[key].manifest.shards| ==> Stands(sha, bucket, run, ckpt, bucket[key].manifest.shards[i])
  }

  /** Every shard object holds a payload whose digest starts with the digits in
      its key. */
  ghost predicate ContentAddressed(sha: Bytes -> Digest, payloads: set<Bytes>, bucket: Bucket)
  {
    forall run, ckpt, digits, shard ::
      SlashFree(run) && SlashFree(ckpt) && |digits| == 16 && ShardKey(run, ckpt, digits, shard) in bucket ==>
        HoldsPayload(sha, payloads, bucket[ShardKey(run, ckpt, digits, shard)], digits)
  }

  ghost predicate HoldsPayload(sha: Bytes -> Digest, payloads: set<Bytes>, content: Stored, digits: string)
  {
    content.Blob? && content.data in payloads && Digits(sha(content.data)) == digits
  }

  /** How much is claimed of the manifests in the bucket: nothing; that those of
      committed checkpoints are complete; or those of all that have not failed. */
  datatype Level = Entries | CommittedOnes | UnfailedOnes

  ghost predicate RecordSound(sha: Bytes -> Digest, level: Level, bucket: Bucket, ckpt: string, cp: Checkpoint, list: seq<ShardInfo>)
  {
    && SlashFree(ckpt) && SlashFree(cp.runId)
    && (forall i :: 0 <= i < |list| ==> Stands(sha, bucket, cp.runId, ckpt, list[i]))
    && (cp.state.COMMITTED? ==> ManifestKey(cp.runId, ckpt) in bucket)
    && (Claimed(level, cp.state) && ManifestKey(cp.runId, ckpt) in bucket ==> Restorable(sha, bucket, cp.runId, ckpt))
  }

  predicate Claimed(level: Level, state: CheckpointState)
  {
    match level
    case Entries => false
    case CommittedOnes => state.COMMITTED?
    case UnfailedOnes => !state.FAILED?
  }

  ghost predicate Inv(sha: Bytes -> Digest, payloads: set<Bytes>, level: Level, w: World)
  {
    && (forall r :: r in w.runs ==> SlashFree(r))
    && ContentAddressed(sha, payloads, w.bucket)
    && forall c :: c in w.checkpoints ==> RecordSound(sha, level, w.bucket, c, w.checkpoints[c], ListOf(w.shards, c))
  }

  /** The sixteen digits a key carries tell the payloads in play apart. */
  ghost predicate Distinguishes(sha: Bytes -> Digest, payloads: set<Bytes>)
  {
    forall a, b :: a in payloads && b in payloads && Digits(sha(a)) == Digits(sha(b)) ==> a == b
  }

  /** Uploaded bodies are among the payloads in play. */
  ghost predicate InPlay(payloads: set<Bytes>, a: Action)
  {
    a.Upload? ==> a.body in payloads
  }

  /** A successful commit has written its own manifest, or the manifest it found
      and kept was complete. */
  ghost predicate SoundCommit(sha: Bytes -> Digest, w: World, a: Action, w': World)
  {
    a.Commit? && a.ending.Succeeds? && a.ckpt in w.checkpoints ==>
      || WroteOwn(w, a.run, a.ckpt, w'.bucket)
      || Restorable(sha, w.bucket, a.run, a.ckpt)
  }

  ghost predicate WroteOwn(w: World, run: string, ckpt: string, bucket: Bucket)
    requires ckpt in w.checkpoints
  {
    var key := ManifestKey(run, ckpt);
    key in bucket && bucket[key] == Doc(ManifestOf(run, ckpt, w.checkpoints[ckpt].step, ListOf(w.shards, ckpt)))
  }

  /** Nothing is uploaded to a failed checkpoint whose manifest an interrupted
      commit has left behind. */
  ghost predicate SparesLeftovers(w: World, a: Action)
  {
    a.Upload? && a.ckpt in w.checkpoints && w.checkpoints[a.ckpt].state.FAILED? ==> ManifestKey(a.run, a.ckpt) !in w.bucket
  }

  /** What a step has to respect for a level of the invariant to be kept. */
  ghost predicate Respects(sha: Bytes -> Digest, level: Level, w: World, a: Action, w': World)
  {
    match level
    case Entries => true
    case CommittedOnes => SoundCommit(sha, w, a, w')
    case UnfailedOnes => SparesLeftovers(w, a)
  }

  /** Storing the body under this shard id is what the entry waits for. */
  predicate FilledBy(sha: Bytes -> Digest, run: string, ckpt: string, shard: string, body: Bytes, s: ShardInfo)
  {
    s == Uploaded(sha, run, ckpt, shard, s.rank, body)
  }

  /** Only objects of this checkpoint may differ. */
  ghost predicate Local(before: Bucket, after: Bucket, run: string, ckpt: string)
  {
    forall k :: !Under(k, run, ckpt) ==> (k in after <==> k in before) && (k in before ==> after[k] == before[k])
  }

  lemma StandsElsewhere(sha: Bytes -> Digest, before: Bucket, after: Bucket, run: string, ckpt: string, run': string, ckpt': string, s: ShardInfo)
    requires Local(before, after, run, ckpt) && Stands(sha, before, run', ckpt', s)
    requires SlashFree(run) && SlashFree(ckpt) && SlashFree(run') && SlashFree(ckpt') && ckpt != ckpt'
    ensures Stands(sha, after, run', ckpt', s)
  {
    assert Under(s.storageKey, run', ckpt');
    if Under(s.storageKey, run, ckpt) { UnderOne(s.storageKey, run, ckpt, run', ckpt'); }
  }

  lemma RestorableElsewhere(sha: Bytes -> Digest, before: Bucket, after: Bucket, run: string, ckpt: string, run': string, ckpt': string)
    requires Local(before, after, run, ckpt)
    requires SlashFree(run) && SlashFree(ckpt) && SlashFree(run') && SlashFree(ckpt') && ckpt != ckpt'
    ensures ManifestKey(run', ckpt') in after <==> ManifestKey(run', ckpt') in before
    ensures Restorable(sha, before, run', ckpt') ==> Restorable(sha, after, run', ckpt')
  {
    var key := ManifestKey(run', ckpt');
    assert Under(key, run', ckpt');
    if Under(key, run, ckpt) { UnderOne(key, run, ckpt, run', ckpt'); }
    if Restorable(sha, before, run', ckpt') {
      forall i | 0 <= i < |before[key].manifest.shards|
        ensures Stands(sha, after, run', ckpt', before[key].manifest.shards[i])
      {
        StandsElsewhere(sha, before, after, run, ckpt, run', ckpt', before[key].manifest.shards[i]);
      }
    }
  }

  /** A change below one checkpoint leaves every other record sound. */
  lemma OtherRecordSound(sha: Bytes -> Digest, level: Level, before: Bucket, after: Bucket, run: string, ckpt: string, c: string, cp: Checkpoint,
                         list: seq<ShardInfo>)
    requires Local(before, after, run, ckpt) && SlashFree(run) && SlashFree(ckpt) && c != ckpt
    requires RecordSound(sha, level, before, c, cp, list)
    ensures RecordSound(sha, level, after, c, cp, list)
  {
    RestorableElsewhere(sha, before, after, run, ckpt, cp.runId, c);
    forall i | 0 <= i < |list| ensures Stands(sha, after, cp.runId, c, list[i]) {
      StandsElsewhere(sha, before, after, run, ckpt, cp.runId, c, list[i]);
    }
  }

  // ------------------------------------------------------------------
  // What each kind of change does to the bucket

  lemma OwnKeysAreLocal(sha: Bytes -> Digest, before: Bucket, after: Bucket, run: string, ckpt: string, shard: string, uuid: Uuid, body: Bytes)
    requires TouchesOwnKeys(before, after, StagingKey(run, ckpt, shard, uuid), ShardKey(run, ckpt, Digits(sha(body)), shard),
                            SidecarKey(run, ckpt, shard), body)
    ensures Local(before, after, run, ckpt)
  {
    assert Under(StagingKey(run, ckpt, shard, uuid), run, ckpt) && Under(SidecarKey(run, ckpt, shard), run, ckpt);
    assert Under(ShardKey(run, ckpt, Digits(sha(body)), shard), run, ckpt);
  }

  /** Writing a shard, finished or not, keeps the bucket content-addressed. */
  lemma WriteKeepsAddressing(sha: Bytes -> Digest, payloads: set<Bytes>, before: Bucket, after: Bucket, run: string, ckpt: string,
                             shard: string, uuid: Uuid, body: Bytes)
    requires ContentAddressed(sha, payloads, before) && body in payloads && SlashFree(run) && SlashFree(ckpt)
    requires TouchesOwnKeys(before, after, StagingKey(run, ckpt, shard, uuid), ShardKey(run, ckpt, Digits(sha(body)), shard),
                            SidecarKey(run, ckpt, shard), body)
    ensures ContentAddressed(sha, payloads, after)
  {
    var own := ShardKey(run, ckpt, Digits(sha(body)), shard);
    forall run', ckpt', digits, shard' |
      SlashFree(run') && SlashFree(ckpt') && |digits| == 16 && ShardKey(run', ckpt', digits, shard') in after
      ensures HoldsPayload(sha, payloads, after[ShardKey(run', ckpt', digits, shard')], digits)
    {
      var key := ShardKey(run', ckpt', digits, shard');
      KindsDisjoint(run, ckpt, shard, uuid, digits, run', ckpt', shard');
      KindsDisjoint(run', ckpt', shard', uuid, digits, run, ckpt, shard);
      if key == own && !(own in before && after[own] == before[own]) {
        ShardKeyInjective(run, ckpt, Digits(sha(body)), shard, run', ckpt', digits, shard');
      } else {
        assert key in before && after[key] == before[key];
      }
    }
  }

  /** An entry that stood still stands after any write below its checkpoint: a
      shard key is only ever refilled with the bytes it already holds. */
  lemma WriteKeepsEntry(sha: Bytes -> Digest, payloads: set<Bytes>, before: Bucket, after: Bucket, run: string, ckpt: string,
                        shard: string, uuid: Uuid, body: Bytes, s: ShardInfo)
    requires ContentAddressed(sha, payloads, before) && body in payloads && Distinguishes(sha, payloads)
    requires SlashFree(run) && SlashFree(ckpt)
    requires TouchesOwnKeys(before, after, StagingKey(run, ckpt, shard, uuid), ShardKey(run, ckpt, Digits(sha(body)), shard),
                            SidecarKey(run, ckpt, shard), body)
    requires Stands(sha, before, run, ckpt, s)
    ensures Stands(sha, after, run, ckpt, s)
  {
    var key := s.storageKey;
    KindsDisjoint(run, ckpt, shard, uuid, Digits(s.sha256), run, ckpt, s.shardId);
    KindsDisjoint(run, ckpt, s.shardId, uuid, Digits(s.sha256), run, ckpt, shard);
    assert HoldsPayload(sha, payloads, before[ShardKey(run, ckpt, Digits(s.sha256), s.shardId)], Digits(s.sha256));
    if key == ShardKey(run, ckpt, Digits(sha(body)), shard) {
      ShardKeyInjective(run, ckpt, Digits(sha(body)), shard, run, ckpt, Digits(s.sha256), s.shardId);
      assert before[key].data == body;
    }
  }

  /** After a successful write the new entry stands. */
  lemma WrittenEntryStands(sha: Bytes -> Digest, payloads: set<Bytes>, before: Bucket, after: Bucket, run: string, ckpt: string,
                           shard: string, rank: int, uuid: Uuid, body: Bytes)
    requires ContentAddressed(sha, payloads, before) && body in payloads && Distinguishes(sha, payloads)
    requires SlashFree(run) && SlashFree(ckpt)
    requires TouchesOwnKeys(before, after, StagingKey(run, ckpt, shard, uuid), ShardKey(run, ckpt, Digits(sha(body)), shard),
                            SidecarKey(run, ckpt, shard), body)
    requires ShardKey(run, ckpt, Digits(sha(body)), shard) in after
    ensures Stands(sha, after, run, ckpt, Uploaded(sha, run, ckpt, shard, rank, body))
  {
    var key := ShardKey(run, ckpt, Digits(sha(body)), shard);
    if key in before {
      assert HoldsPayload(sha, payloads, before[key], Digits(sha(body)));
    }
  }

  lemma ClearedIsLocal(before: Bucket, after: Bucket, run: string, ckpt: string)
    requires Cleared(before, after, run, ckpt)
    ensures Local(before, after, run, ckpt)
  {
  }

  /** Deleting objects keeps the bucket content-addressed. */
  lemma SubsetKeepsAddressing(sha: Bytes -> Digest, payloads: set<Bytes>, before: Bucket, after: Bucket)
    requires ContentAddressed(sha, payloads, before)
    requires forall k :: k in after ==> k in before && after[k] == before[k]
    ensures ContentAddressed(sha, payloads, after)
  {
    forall run, ckpt, digits, shard |
      SlashFree(run) && SlashFree(ckpt) && |digits| == 16 && ShardKey(run, ckpt, digits, shard) in after
      ensures HoldsPayload(sha, payloads, after[ShardKey(run, ckpt, digits, shard)], digits)
    {
      assert HoldsPayload(sha, payloads, before[ShardKey(run, ckpt, digits, shard)], digits);
    }
  }

  lemma CommitIsLocal(before: Bucket, after: Bucket, manifest: Manifest, ok: bool)
    requires CommitEffect(before, after, manifest, ok)
    ensures Local(before, after, manifest.runId, manifest.checkpointId)
  {
    assert Under(ManifestKey(manifest.runId, manifest.checkpointId), manifest.runId, manifest.checkpointId);
  }

  lemma CommitKeepsAddressing(sha: Bytes -> Digest, payloads: set<Bytes>, before: Bucket, after: Bucket, manifest: Manifest, ok: bool)
    requires ContentAddressed(sha, payloads, before) && CommitEffect(before, after, manifest, ok)
    ensures ContentAddressed(sha, payloads, after)
  {
    forall run, ckpt, digits, shard |
      SlashFree(run) && SlashFree(ckpt) && |digits| == 16 && ShardKey(run, ckpt, digits, shard) in after
      ensures HoldsPayload(sha, payloads, after[ShardKey(run, ckpt, digits, shard)], digits)
    {
      KindsDisjoint(run, ckpt, shard, seq(36, _ => '0'), digits, manifest.runId, manifest.checkpointId, shard);
      assert HoldsPayload(sha, payloads, before[ShardKey(run, ckpt, digits, shard)], digits);
    }
  }

  /** Entries survive a commit attempt, and a manifest of their own is complete. */
  lemma EntriesSurviveCommit(sha: Bytes -> Digest, before: Bucket, after: Bucket, run: string, ckpt: string, step: int,
                             list: seq<ShardInfo>, ok: bool)
    requires CommitEffect(before, after, ManifestOf(run, ckpt, step, list), ok)
    requires forall i :: 0 <= i < |list| ==> Stands(sha, before, run, ckpt, list[i])
    ensures forall i :: 0 <= i < |list| ==> Stands(sha, after, run, ckpt, list[i])
    ensures var key := ManifestKey(run, ckpt);
            key in after && after[key] == Doc(ManifestOf(run, ckpt, step, list)) ==> Restorable(sha, after, run, ckpt)
  {
    forall i | 0 <= i < |list| ensures Stands(sha, after, run, ckpt, list[i]) {
      KindsDisjoint(run, ckpt, list[i].shardId, seq(36, _ => '0'), Digits(list[i].sha256), run, ckpt, list[i].shardId);
    }
  }

  // ------------------------------------------------------------------
  // Every step keeps the invariant

  /** A step that changes one checkpoint: the others stay sound, so only the
      changed record has to be looked at. */
  lemma OneCheckpointChanged(sha: Bytes -> Digest, payloads: set<Bytes>, level: Level, w: World, w': World, run: string, ckpt: string)
    requires Inv(sha, payloads, level, w) && SlashFree(run) && SlashFree(ckpt)
    requires forall r :: r in w'.runs ==> SlashFree(r)
    requires ContentAddressed(sha, payloads, w'.bucket) && Local(w.bucket, w'.bucket, run, ckpt)
    requires forall c :: c in w'.checkpoints && c != ckpt ==> c in w.checkpoints && w'.checkpoints[c] == w.checkpoints[c]
    requires forall c :: c != ckpt ==> ListOf(w'.shards, c) == ListOf(w.shards, c) || ListOf(w'.shards, c) == []
    requires ckpt in w'.checkpoints ==> RecordSound(sha, level, w'.bucket, ckpt, w'.checkpoints[ckpt], ListOf(w'.shards, ckpt))
    ensures Inv(sha, payloads, level, w')
  {
    forall c | c in w'.checkpoints && c != ckpt
      ensures RecordSound(sha, level, w'.bucket, c, w'.checkpoints[c], ListOf(w'.shards, c))
    {
      assert RecordSound(sha, level, w.bucket, c, w.checkpoints[c], ListOf(w.shards, c));
      OtherRecordSound(sha, level, w.bucket, w'.bucket, run, ckpt, c, w.checkpoints[c], ListOf(w.shards, c));
    }
  }

  lemma TriggerKeeps(sha: Bytes -> Digest, payloads: set<Bytes>, level: Level, w: World, run: string, step: int, ckpt: string, w': World)
    requires Inv(sha, payloads, level, w) && TriggerStep(w, run, step, ckpt, w')
    ensures Inv(sha, payloads, level, w')
  {
    if ManifestKey(run, ckpt) in w.bucket {
      SplitUnder(run, ckpt, "_manifest.json");
    }
    OneCheckpointChanged(sha, payloads, level, w, w', run, ckpt);
  }

  lemma AbortKeeps(sha: Bytes -> Digest, payloads: set<Bytes>, level: Level, w: World, bucket: Bucket, run: string, ckpt: string, w': World)
    requires Inv(sha, payloads, level, w) && ckpt in w.checkpoints && w.checkpoints[ckpt].runId == run
    requires Aborted(w, bucket, run, ckpt, w')
    requires ContentAddressed(sha, payloads, bucket) && Local(w.bucket, bucket, run, ckpt)
    ensures Inv(sha, payloads, level, w')
  {
    assert RecordSound(sha, level, w.bucket, ckpt, w.checkpoints[ckpt], ListOf(w.shards, ckpt));
    ClearedIsLocal(bucket, w'.bucket, run, ckpt);
    SubsetKeepsAddressing(sha, payloads, bucket, w'.bucket);
    OneCheckpointChanged(sha, payloads, level, w, w', run, ckpt);
  }

  lemma UploadKeeps(sha: Bytes -> Digest, payloads: set<Bytes>, level: Level, w: World, run: string, ckpt: string, shard: string, rank: int,
                    body: Bytes, uuid: Uuid, ending: Ending, w': World)
    requires Inv(sha, payloads, level, w) && Distinguishes(sha, payloads) && body in payloads
    requires level == UnfailedOnes ==> SparesLeftovers(w, Action.Upload(run, ckpt, shard, rank, body, uuid, ending))
    requires UploadStep(sha, w, run, ckpt, shard, rank, body, uuid, ending, w')
    ensures Inv(sha, payloads, level, w')
  {
    assert RecordSound(sha, level, w.bucket, ckpt, w.checkpoints[ckpt], ListOf(w.shards, ckpt));
    var bucket: Bucket :| UploadVia(sha, w, run, ckpt, shard, rank, body, uuid, ending, bucket, w');
    OwnKeysAreLocal(sha, w.bucket, bucket, run, ckpt, shard, uuid, body);
    WriteKeepsAddressing(sha, payloads, w.bucket, bucket, run, ckpt, shard, uuid, body);
    if ending.Fails? {
      AbortKeeps(sha, payloads, level, w, bucket, run, ckpt, w');
    } else {
      UploadedRecord(sha, payloads, level, w, run, ckpt, shard, rank, body, uuid, ending, bucket, w');
      OneCheckpointChanged(sha, payloads, level, w, w', run, ckpt);
    }
  }

  lemma UploadedRecord(sha: Bytes -> Digest, payloads: set<Bytes>, level: Level, w: World, run: string, ckpt: string, shard: string, rank: int,
                       body: Bytes, uuid: Uuid, ending: Ending, bucket: Bucket, w': World)
    requires ContentAddressed(sha, payloads, w.bucket) && Distinguishes(sha, payloads) && body in payloads
    requires level == UnfailedOnes ==> SparesLeftovers(w, Action.Upload(run, ckpt, shard, rank, body, uuid, ending))
    requires UploadVia(sha, w, run, ckpt, shard, rank, body, uuid, ending, bucket, w') && !ending.Fails?
    requires RecordSound(sha, level, w.bucket, ckpt, w.checkpoints[ckpt], ListOf(w.shards, ckpt))
    ensures RecordSound(sha, level, w'.bucket, ckpt, w'.checkpoints[ckpt], ListOf(w'.shards, ckpt))
  {
    UploadedEntriesStand(sha, payloads, w.bucket, bucket, run, ckpt, ListOf(w.shards, ckpt), shard, uuid, body);
    UploadedManifest(sha, payloads, w.bucket, bucket, run, ckpt, shard, uuid, body);
    if ending.Succeeds? {
      WrittenEntryStands(sha, payloads, w.bucket, bucket, run, ckpt, shard, rank, uuid, body);
    }
  }

  lemma UploadedEntriesStand(sha: Bytes -> Digest, payloads: set<Bytes>, before: Bucket, after: Bucket, run: string, ckpt: string,
                             list: seq<ShardInfo>, shard: string, uuid: Uuid, body: Bytes)
    requires ContentAddressed(sha, payloads, before) && body in payloads && Distinguishes(sha, payloads)
    requires SlashFree(run) && SlashFree(ckpt)
    requires forall i :: 0 <= i < |list| ==> Stands(sha, before, run, ckpt, list[i])
    requires TouchesOwnKeys(before, after, StagingKey(run, ckpt, shard, uuid), ShardKey(run, ckpt, Digits(sha(body)), shard),
                            SidecarKey(run, ckpt, shard), body)
    ensures forall i :: 0 <= i < |list| ==> Stands(sha, after, run, ckpt, list[i])
  {
    forall i | 0 <= i < |list| ensures Stands(sha, after, run, ckpt, list[i]) {
      WriteKeepsEntry(sha, payloads, before, after, run, ckpt, shard, uuid, body, list[i]);
    }
  }

  /** A write leaves the manifest alone; with its own object in place, what the
      manifest lists afterwards stands if it stood before or is that object. */
  lemma UploadedManifest(sha: Bytes -> Digest, payloads: set<Bytes>, before: Bucket, after: Bucket, run: string, ckpt: string,
                         shard: string, uuid: Uuid, body: Bytes)
    requires ContentAddressed(sha, payloads, before) && body in payloads && Distinguishes(sha, payloads)
    requires SlashFree(run) && SlashFree(ckpt)
    requires TouchesOwnKeys(before, after, StagingKey(run, ckpt, shard, uuid), ShardKey(run, ckpt, Digits(sha(body)), shard),
                            SidecarKey(run, ckpt, shard), body)
    ensures var key := ManifestKey(run, ckpt); (key in after <==> key in before) && (key in before ==> after[key] == before[key])
    ensures Restorable(sha, before, run, ckpt) ==> Restorable(sha, after, run, ckpt)
    ensures ShardKey(run, ckpt, Digits(sha(body)), shard) in after ==>
              forall s: ShardInfo :: Stands(sha, before, run, ckpt, s) || FilledBy(sha, run, ckpt, shard, body, s) <==>
                                     Stands(sha, after, run, ckpt, s)
  {
    var key := ManifestKey(run, ckpt);
    KindsDisjoint(run, ckpt, shard, uuid, Digits(sha(body)), run, ckpt, shard);
    if Restorable(sha, before, run, ckpt) {
      UploadedEntriesStand(sha, payloads, before, after, run, ckpt, before[key].manifest.shards, shard, uuid, body);
    }
    if ShardKey(run, ckpt, Digits(sha(body)), shard) in after {
      forall s: ShardInfo
        ensures Stands(sha, before, run, ckpt, s) || FilledBy(sha, run, ckpt, shard, body, s) <==> Stands(sha, after, run, ckpt, s)
      {
        EntryAfterWrite(sha, payloads, before, after, run, ckpt, shard, uuid, body, s);
      }
    }
  }

  lemma EntryAfterWrite(sha: Bytes -> Digest, payloads: set<Bytes>, before: Bucket, after: Bucket, run: string, ckpt: string,
                        shard: string, uuid: Uuid, body: Bytes, s: ShardInfo)
    requires ContentAddressed(sha, payloads, before) && body in payloads && Distinguishes(sha, payloads)
    requires SlashFree(run) && SlashFree(ckpt)
    requires TouchesOwnKeys(before, after, StagingKey(run, ckpt, shard, uuid), ShardKey(run, ckpt, Digits(sha(body)), shard),
                            SidecarKey(run, ckpt, shard), body)
    requires ShardKey(run, ckpt, Digits(sha(body)), shard) in after
    ensures Stands(sha, before, run, ckpt, s) || FilledBy(sha, run, ckpt, shard, body, s) <==> Stands(sha, after, run, ckpt, s)
  {
    var own := ShardKey(run, ckpt, Digits(sha(body)), shard);
    WrittenEntryStands(sha, payloads, before, after, run, ckpt, shard, s.rank, uuid, body);
    if Stands(sha, before, run, ckpt, s) {
      WriteKeepsEntry(sha, payloads, before, after, run, ckpt, shard, uuid, body, s);
    } else if Stands(sha, after, run, ckpt, s) {
      KindsDisjoint(run, ckpt, shard, uuid, Digits(s.sha256), run, ckpt, s.shardId);
      KindsDisjoint(run, ckpt, s.shardId, uuid, Digits(s.sha256), run, ckpt, shard);
      assert s.storageKey == own;
      ShardKeyInjective(run, ckpt, Digits(sha(body)), shard, run, ckpt, Digits(s.sha256), s.shardId);
      assert after[own].data == body;
    }
  }

  /** After a commit the checkpoint is restorable if and only if the commit has
      written its own manifest or the manifest it found was complete. */
  lemma CommitRestoresExactly(sha: Bytes -> Digest, payloads: set<Bytes>, w: World, run: string, ckpt: string, bucket: Bucket, w': World)
    requires Inv(sha, payloads, Entries, w) && CommitVia(w, run, ckpt, Succeeds, bucket, w')
    ensures Restorable(sha, w'.bucket, run, ckpt) <==> WroteOwn(w, run, ckpt, bucket) || Restorable(sha, w.bucket, run, ckpt)
  {
    var list := ListOf(w.shards, ckpt);
    assert RecordSound(sha, Entries, w.bucket, ckpt, w.checkpoints[ckpt], list);
    EntriesSurviveCommit(sha, w.bucket, bucket, run, ckpt, w.checkpoints[ckpt].step, list, true);
  }

  /** Before the commit: it can be relied on, however the store answers, exactly
      when there is no manifest yet or the one there is complete. */
  lemma CommitReliableExactly(sha: Bytes -> Digest, payloads: set<Bytes>, w: World, run: string, ckpt: string)
    requires Inv(sha, payloads, Entries, w) && Picked(w.checkpoints, run, ckpt) && ListOf(w.shards, ckpt) != []
    ensures (forall w' :: CommitStep(w, run, ckpt, Succeeds, w') ==> Restorable(sha, w'.bucket, run, ckpt))
            <==> (ManifestKey(run, ckpt) in w.bucket ==> Restorable(sha, w.bucket, run, ckpt))
  {
    if ManifestKey(run, ckpt) in w.bucket {
      var w' := World(AfterCommit(w.runs, run), w.checkpoints[ckpt := w.checkpoints[ckpt].(state := CheckpointState.COMMITTED)],
                      w.shards - {ckpt}, w.bucket);
      assert CommitVia(w, run, ckpt, Succeeds, w.bucket, w');
      assert CommitStep(w, run, ckpt, Succeeds, w');
    }
    forall w' | CommitStep(w, run, ckpt, Succeeds, w') && (ManifestKey(run, ckpt) in w.bucket ==> Restorable(sha, w.bucket, run, ckpt))
      ensures Restorable(sha, w'.bucket, run, ckpt)
    {
      var bucket: Bucket :| CommitVia(w, run, ckpt, Succeeds, bucket, w');
      CommitRestoresExactly(sha, payloads, w, run, ckpt, bucket, w');
    }
  }

  lemma CommitKeeps(sha: Bytes -> Digest, payloads: set<Bytes>, level: Level, w: World, run: string, ckpt: string, ending: Ending, w': World)
    requires Inv(sha, payloads, level, w) && CommitStep(w, run, ckpt, ending, w')
    requires level == CommittedOnes ==> SoundCommit(sha, w, Commit(run, ckpt, ending), w')
    ensures Inv(sha, payloads, level, w')
  {
    var list, step := ListOf(w.shards, ckpt), w.checkpoints[ckpt].step;
    assert RecordSound(sha, level, w.bucket, ckpt, w.checkpoints[ckpt], list);
    var bucket: Bucket :| CommitVia(w, run, ckpt, ending, bucket, w');
    CommitIsLocal(w.bucket, bucket, ManifestOf(run, ckpt, step, list), ending.Succeeds?);
    CommitKeepsAddressing(sha, payloads, w.bucket, bucket, ManifestOf(run, ckpt, step, list), ending.Succeeds?);
    if ending.Fails? {
      AbortKeeps(sha, payloads, level, w, bucket, run, ckpt, w');
    } else {
      EntriesSurviveCommit(sha, w.bucket, bucket, run, ckpt, step, list, ending.Succeeds?);
      OneCheckpointChanged(sha, payloads, level, w, w', run, ckpt);
    }
  }

  lemma FailKeeps(sha: Bytes -> Digest, payloads: set<Bytes>, level: Level, w: World, run: string, w': World)
    requires Inv(sha, payloads, level, w) && FailStep(w, run, w')
    ensures Inv(sha, payloads, level, w')
  {
    forall c | c in w'.checkpoints ensures RecordSound(sha, level, w'.bucket, c, w'.checkpoints[c], ListOf(w'.shards, c)) {
      assert RecordSound(sha, level, w.bucket, c, w.checkpoints[c], ListOf(w.shards, c));
    }
  }

  lemma PruneKeeps(sha: Bytes -> Digest, payloads: set<Bytes>, level: Level, w: World, plan: set<(string, string)>, w': World)
    requires Inv(sha, payloads, level, w) && PruneStep(w, plan, w')
    ensures Inv(sha, payloads, level, w')
  {
    SubsetKeepsAddressing(sha, payloads, w.bucket, w'.bucket);
    forall c | c in w'.checkpoints ensures RecordSound(sha, level, w'.bucket, c, w'.checkpoints[c], ListOf(w'.shards, c)) {
      var cp := w.checkpoints[c];
      assert RecordSound(sha, level, w.bucket, c, cp, ListOf(w.shards, c));
      forall k | Under(k, cp.runId, c) ensures (k in w'.bucket <==> k in w.bucket) {
        UnderIffSplit(k, cp.runId, c);
      }
      KeptRecordSound(sha, level, w.bucket, w'.bucket, c, cp, ListOf(w.shards, c));
    }
  }

  /** A record is sound as long as the objects below it stay. */
  lemma KeptRecordSound(sha: Bytes -> Digest, level: Level, before: Bucket, after: Bucket, c: string, cp: Checkpoint, list: seq<ShardInfo>)
    requires RecordSound(sha, level, before, c, cp, list)
    requires forall k :: Under(k, cp.runId, c) ==> (k in after <==> k in before) && (k in before ==> after[k] == before[k])
    ensures RecordSound(sha, level, after, c, cp, list)
  {
    var key := ManifestKey(cp.runId, c);
    assert Under(key, cp.runId, c);
    forall s: ShardInfo | Stands(sha, before, cp.runId, c, s) ensures Stands(sha, after, cp.runId, c, s) {
      assert Under(s.storageKey, cp.runId, c);
    }
  }

  lemma StepKeeps(sha: Bytes -> Digest, payloads: set<Bytes>, level: Level, w: World, a: Action, w': World)
    requires Inv(sha, payloads, level, w) && Distinguishes(sha, payloads) && InPlay(payloads, a) && Next(sha, w, a, w')
    requires Respects(sha, level, w, a, w')
    ensures Inv(sha, payloads, level, w')
  {
    match a
    case CreateRun(run) => RecordsUntouched(sha, payloads, level, w, w');
    case ChangeRun(run, target) => RecordsUntouched(sha, payloads, level, w, w');
    case Trigger(run, step, ckpt) => TriggerKeeps(sha, payloads, level, w, run, step, ckpt, w');
    case Upload(run, ckpt, shard, rank, body, uuid, ending) =>
      UploadKeeps(sha, payloads, level, w, run, ckpt, shard, rank, body, uuid, ending, w');
    case Commit(run, ckpt, ending) => CommitKeeps(sha, payloads, level, w, run, ckpt, ending, w');
    case FailWorkers(run) => FailKeeps(sha, payloads, level, w, run, w');
    case Restart => RecordsUntouched(sha, payloads, level, w, w');
    case Prune(plan) => PruneKeeps(sha, payloads, level, w, plan, w');
  }

  lemma RecordsUntouched(sha: Bytes -> Digest, payloads: set<Bytes>, level: Level, w: World, w': World)
    requires Inv(sha, payloads, level, w) && w'.checkpoints == w.checkpoints && w'.bucket == w.bucket
    requires w'.shards == w.shards || w'.shards == map[]
    requires forall r :: r in w'.runs ==> SlashFree(r)
    ensures Inv(sha, payloads, level, w')
  {
    forall c | c in w'.checkpoints ensures RecordSound(sha, level, w'.bucket, c, w'.checkpoints[c], ListOf(w'.shards, c)) {
      assert RecordSound(sha, level, w.bucket, c, w.checkpoints[c], ListOf(w.shards, c));
    }
  }

  // ------------------------------------------------------------------
  // Whole runs

  const EMPTY_WORLD := World(map[], map[], map[], map[])

  /** A run of the system: one state per step, uploads with payloads in play. */
  ghost predicate Behaviour(sha: Bytes -> Digest, payloads: set<Bytes>, states: seq<World>, actions: seq<Action>)
  {
    && |states| == |actions| + 1 && states[0] == EMPTY_WORLD
    && forall i :: 0 <= i < |actions| ==> InPlay(payloads, actions[i]) && Next(sha, states[i], actions[i], states[i + 1])
  }

  ghost predicate RespectsAt(sha: Bytes -> Digest, level: Level, states: seq<World>, actions: seq<Action>, i: nat)
    requires i < |actions| < |states|
  {
    Respects(sha, level, states[i], actions[i], states[i + 1])
  }

  lemma {:induction false} AlwaysInv(sha: Bytes -> Digest, payloads: set<Bytes>, level: Level, states: seq<World>, actions: seq<Action>, i: nat)
    requires Behaviour(sha, payloads, states, actions) && Distinguishes(sha, payloads) && i < |states|
    requires forall j :: 0 <= j < i ==> RespectsAt(sha, level, states, actions, j)
    ensures Inv(sha, payloads, level, states[i])
  {
    if i > 0 {
      AlwaysInv(sha, payloads, level, states, actions, i - 1);
      assert RespectsAt(sha, level, states, actions, i - 1);
      StepKeeps(sha, payloads, level, states[i - 1], actions[i - 1], states[i - 1 + 1]);
    }
  }

  /** Without any condition: what the lists and the shard keys promise. */
  lemma AlwaysEntries(sha: Bytes -> Digest, payloads: set<Bytes>, states: seq<World>, actions: seq<Action>, i: nat)
    requires Behaviour(sha, payloads, states, actions) && Distinguishes(sha, payloads) && i < |states|
    ensures Inv(sha, payloads, Entries, states[i])
  {
    forall j | 0 <= j < i ensures RespectsAt(sha, Entries, states, actions, j) { }
    AlwaysInv(sha, payloads, Entries, states, actions, i);
  }

  /** Every committed checkpoint of this state can be restored. */
  ghost predicate AllRestorable(sha: Bytes -> Digest, w: World)
  {
    forall c :: c in w.checkpoints && w.checkpoints[c].state.COMMITTED? ==> Restorable(sha, w.bucket, w.checkpoints[c].runId, c)
  }

  lemma InvRestores(sha: Bytes -> Digest, payloads: set<Bytes>, level: Level, w: World)
    requires Inv(sha, payloads, level, w) && level != Entries
    ensures AllRestorable(sha, w)
  {
    forall c | c in w.checkpoints && w.checkpoints[c].state.COMMITTED? ensures Restorable(sha, w.bucket, w.checkpoints[c].runId, c) {
      assert RecordSound(sha, level, w.bucket, c, w.checkpoints[c], ListOf(w.shards, c));
    }
  }

  /** Committed means restorable: after any sequence of triggers, uploads to
      records in any state, commits, aborts, worker failures, control-plane
      deaths and restarts and error-free retention passes, a committed checkpoint
      has its manifest, and every shard listed there is stored with its recorded
      size and digest, provided each successful commit so far has written its own
      manifest or found a complete one. */
  lemma CommittedIsRestorable(sha: Bytes -> Digest, payloads: set<Bytes>, states: seq<World>, actions: seq<Action>, i: nat)
    requires Behaviour(sha, payloads, states, actions) && Distinguishes(sha, payloads) && i < |states|
    requires forall j :: 0 <= j < i ==> RespectsAt(sha, CommittedOnes, states, actions, j)
    ensures AllRestorable(sha, states[i])
  {
    AlwaysInv(sha, payloads, CommittedOnes, states, actions, i);
    InvRestores(sha, payloads, CommittedOnes, states[i]);
  }

  /** And only then: committed means restorable throughout a run of the system if
      and only if that holds of every successful commit in it. */
  lemma CommittedIsRestorableExactly(sha: Bytes -> Digest, payloads: set<Bytes>, states: seq<World>, actions: seq<Action>)
    requires Behaviour(sha, payloads, states, actions) && Distinguishes(sha, payloads)
    ensures (forall i :: 0 <= i < |states| ==> AllRestorable(sha, states[i]))
            <==> (forall j :: 0 <= j < |actions| ==> RespectsAt(sha, CommittedOnes, states, actions, j))
  {
    if forall j :: 0 <= j < |actions| ==> RespectsAt(sha, CommittedOnes, states, actions, j) {
      forall i | 0 <= i < |states| ensures AllRestorable(sha, states[i]) {
        CommittedIsRestorable(sha, payloads, states, actions, i);
      }
    }
    if forall i :: 0 <= i < |states| ==> AllRestorable(sha, states[i]) {
      forall j | 0 <= j < |actions| ensures RespectsAt(sha, CommittedOnes, states, actions, j) {
        AlwaysEntries(sha, payloads, states, actions, j);
        assert AllRestorable(sha, states[j + 1]);
        RestoredCommitIsSound(sha, payloads, states[j], actions[j], states[j + 1]);
      }
    }
  }

  lemma RestoredCommitIsSound(sha: Bytes -> Digest, payloads: set<Bytes>, w: World, a: Action, w': World)
    requires Inv(sha, payloads, Entries, w) && Next(sha, w, a, w') && AllRestorable(sha, w')
    ensures SoundCommit(sha, w, a, w')
  {
    if a.Commit? && a.ending.Succeeds? {
      var bucket: Bucket :| CommitVia(w, a.run, a.ckpt, Succeeds, bucket, w');
      CommitRestoresExactly(sha, payloads, w, a.run, a.ckpt, bucket, w');
      assert w'.checkpoints[a.ckpt].runId == a.run && Restorable(sha, w'.bucket, w'.checkpoints[a.ckpt].runId, a.ckpt);
    }
  }

  /** In particular when uploads go only to PENDING or IN_PROGRESS checkpoints,
      or to failed ones without a leftover manifest. */
  lemma RestorableIfLeftoversSpared(sha: Bytes -> Digest, payloads: set<Bytes>, states: seq<World>, actions: seq<Action>, i: nat)
    requires Behaviour(sha, payloads, states, actions) && Distinguishes(sha, payloads) && i < |states|
    requires forall j :: 0 <= j < i ==> RespectsAt(sha, UnfailedOnes, states, actions, j)
    ensures AllRestorable(sha, states[i])
  {
    AlwaysInv(sha, payloads, UnfailedOnes, states, actions, i);
    InvRestores(sha, payloads, UnfailedOnes, states[i]);
  }

  lemma OpenUploadsRestorable(sha: Bytes -> Digest, payloads: set<Bytes>, states: seq<World>, actions: seq<Action>, i: nat)
    requires Behaviour(sha, payloads, states, actions) && Distinguishes(sha, payloads) && i < |states|
    requires forall j :: 0 <= j < i && actions[j].Upload? && actions[j].ckpt in states[j].checkpoints ==>
                           Open(states[j].checkpoints[actions[j].ckpt].state)
    ensures AllRestorable(sha, states[i])
  {
    forall j | 0 <= j < i ensures RespectsAt(sha, UnfailedOnes, states, actions, j) { }
    RestorableIfLeftoversSpared(sha, payloads, states, actions, i);
  }

  /** Unless more is uploaded to it, a committed checkpoint keeps its record and
      manifest, and stays restorable, until retention removes it. */
  lemma CommittedStays(sha: Bytes -> Digest, payloads: set<Bytes>, w: World, a: Action, w': World, ckpt: string)
    requires Inv(sha, payloads, Entries, w) && InPlay(payloads, a) && Next(sha, w, a, w')
    requires ckpt in w.checkpoints && w.checkpoints[ckpt].state.COMMITTED? && !UploadsTo(a, ckpt)
    ensures ckpt in w'.checkpoints || a.Prune?
    ensures ckpt in w'.checkpoints ==>
              && w'.checkpoints[ckpt] == w.checkpoints[ckpt]
              && var run := w.checkpoints[ckpt].runId; var key := ManifestKey(run, ckpt);
                 && key in w.bucket && key in w'.bucket && w'.bucket[key] == w.bucket[key]
                 && (Restorable(sha, w.bucket, run, ckpt) ==> Restorable(sha, w'.bucket, run, ckpt))
  {
    var run := w.checkpoints[ckpt].runId;
    var key := ManifestKey(run, ckpt);
    assert RecordSound(sha, Entries, w.bucket, ckpt, w.checkpoints[ckpt], ListOf(w.shards, ckpt));
    assert Under(key, run, ckpt);
    match a
    case Upload(run', ckpt', shard, rank, body, uuid, ending) =>
      assert RecordSound(sha, Entries, w.bucket, ckpt', w.checkpoints[ckpt'], ListOf(w.shards, ckpt'));
      UploadIsLocal(sha, w, run', ckpt', shard, rank, body, uuid, ending, w');
      RestorableElsewhere(sha, w.bucket, w'.bucket, run', ckpt', run, ckpt);
      if Under(key, run', ckpt') { UnderOne(key, run, ckpt, run', ckpt'); }
    case Commit(run', ckpt', ending) =>
      assert RecordSound(sha, Entries, w.bucket, ckpt', w.checkpoints[ckpt'], ListOf(w.shards, ckpt'));
      CommitStepIsLocal(w, run', ckpt', ending, w');
      RestorableElsewhere(sha, w.bucket, w'.bucket, run', ckpt', run, ckpt);
      if Under(key, run', ckpt') { UnderOne(key, run, ckpt, run', ckpt'); }
    case Prune(plan) =>
      UnderIffSplit(key, run, ckpt);
      if (run, ckpt) !in plan { UnplannedRestorable(sha, w, plan, w', run, ckpt); }
    case _ =>
  }

  /** A checkpoint outside the plan loses no object. */
  lemma UnplannedRestorable(sha: Bytes -> Digest, w: World, plan: set<(string, string)>, w': World, run: string, ckpt: string)
    requires PruneStep(w, plan, w') && (run, ckpt) !in plan && SlashFree(run) && SlashFree(ckpt)
    ensures Restorable(sha, w.bucket, run, ckpt) ==> Restorable(sha, w'.bucket, run, ckpt)
  {
    forall k | Under(k, run, ckpt) ensures (k in w'.bucket <==> k in w.bucket) {
      UnderIffSplit(k, run, ckpt);
    }
    if Restorable(sha, w.bucket, run, ckpt) {
      var key := ManifestKey(run, ckpt);
      assert Under(key, run, ckpt);
      forall i | 0 <= i < |w.bucket[key].manifest.shards| ensures Stands(sha, w'.bucket, run, ckpt, w.bucket[key].manifest.shards[i]) {
        assert Under(w.bucket[key].manifest.shards[i].storageKey, run, ckpt);
      }
    }
  }

  predicate UploadsTo(a: Action, ckpt: string) { a.Upload? && a.ckpt == ckpt }

  lemma UploadIsLocal(sha: Bytes -> Digest, w: World, run: string, ckpt: string, shard: string, rank: int, body: Bytes,
                      uuid: Uuid, ending: Ending, w': World)
    requires UploadStep(sha, w, run, ckpt, shard, rank, body, uuid, ending, w')
    ensures Local(w.bucket, w'.bucket, run, ckpt)
    ensures forall c :: c != ckpt && c in w.checkpoints ==> c in w'.checkpoints && w'.checkpoints[c] == w.checkpoints[c]
  {
    var bucket: Bucket :| UploadVia(sha, w, run, ckpt, shard, rank, body, uuid, ending, bucket, w');
    OwnKeysAreLocal(sha, w.bucket, bucket, run, ckpt, shard, uuid, body);
  }

  lemma CommitStepIsLocal(w: World, run: string, ckpt: string, ending: Ending, w': World)
    requires CommitStep(w, run, ckpt, ending, w')
    ensures Local(w.bucket, w'.bucket, run, ckpt)
    ensures forall c :: c != ckpt && c in w.checkpoints ==> c in w'.checkpoints && w'.checkpoints[c] == w.checkpoints[c]
  {
    var bucket: Bucket :| CommitVia(w, run, ckpt, ending, bucket, w');
    CommitIsLocal(w.bucket, bucket, ManifestOf(run, ckpt, w.checkpoints[ckpt].step, ListOf(w.shards, ckpt)), ending.Succeeds?);
  }
}
