/** A manifest that an interrupted commit has left behind: how a later upload can
    complete it, and a run in which a later commit keeps it incomplete. */
module LeftoverManifest {
  import opened Sequences
  import opened ObjectKeys
  import opened ObjectStore
  import opened RunStates
  import opened Coordinator
  import opened ShardWriter
  import opened DataPlane
  import opened Protocol

  /** The manifest there describes, once the body is stored, objects that are all
      there. */
  ghost predicate Completes(sha: Bytes -> Digest, bucket: Bucket, run: string, ckpt: string, shard: string, body: Bytes)
  {
    var key := ManifestKey(run, ckpt);
    && key in bucket && bucket[key].Doc? && bucket[key].manifest.runId == run && bucket[key].manifest.checkpointId == ckpt
    && forall i :: 0 <= i < |bucket[key].manifest.shards| ==>
                     Stands(sha, bucket, run, ckpt, bucket[key].manifest.shards[i])
                     || FilledBy(sha, run, ckpt, shard, body, bucket[key].manifest.shards[i])
  }

  /** A successful upload leaves a complete manifest exactly when all entries of
      the one there stand already or wait for this very body. */
  lemma UploadCompletesExactly(sha: Bytes -> Digest, payloads: set<Bytes>, w: World, run: string, ckpt: string, shard: string, rank: int,
                               body: Bytes, uuid: Uuid, w': World)
    requires Inv(sha, payloads, Entries, w) && Distinguishes(sha, payloads) && body in payloads
    requires UploadStep(sha, w, run, ckpt, shard, rank, body, uuid, Succeeds, w')
    ensures Restorable(sha, w'.bucket, run, ckpt) <==> Completes(sha, w.bucket, run, ckpt, shard, body)
  {
    assert RecordSound(sha, Entries, w.bucket, ckpt, w.checkpoints[ckpt], ListOf(w.shards, ckpt));
    var bucket: Bucket :| UploadVia(sha, w, run, ckpt, shard, rank, body, uuid, Succeeds, bucket, w');
    UploadedManifest(sha, payloads, w.bucket, bucket, run, ckpt, shard, uuid, body);
  }

  // ------------------------------------------------------------------
  // A run in which a commit keeps an incomplete manifest

  function Record(run: string, state: CheckpointState, list: seq<ShardInfo>): Checkpoint
  {
    Checkpoint(run, 1, state, |list|, TotalSize(list), ShardIds(list))
  }

  /** Upload a, commit with the manifest written but the answer lost, upload b,
      commit again. */
  function Steps(run: string, ckpt: string, shard: string, uuid: Uuid, a: Bytes, b: Bytes): (steps: seq<Action>)
    ensures |steps| == 7
  {
    [CreateRun(run), ChangeRun(run, RUNNING), Trigger(run, 1, ckpt),
     Action.Upload(run, ckpt, shard, 0, a, uuid, Succeeds), Commit(run, ckpt, Fails),
     Action.Upload(run, ckpt, shard, 0, b, uuid, Succeeds), Commit(run, ckpt, Succeeds)]
  }

  function After(key: string, data: Bytes, sidecar: string, text: string, manifest: map<string, Stored>): Bucket
  {
    manifest[key := Blob(data)][sidecar := Text(text)]
  }

  function Worlds(sha: Bytes -> Digest, run: string, ckpt: string, shard: string, uuid: Uuid, a: Bytes, b: Bytes): (worlds: seq<World>)
    ensures |worlds| == 8
  {
    var first, second := [Uploaded(sha, run, ckpt, shard, 0, a)], [Uploaded(sha, run, ckpt, shard, 0, b)];
    var keyA, keyB := ShardKey(run, ckpt, Digits(sha(a)), shard), ShardKey(run, ckpt, Digits(sha(b)), shard);
    var sidecar := SidecarKey(run, ckpt, shard);
    var left: Bucket := map[ManifestKey(run, ckpt) := Doc(ManifestOf(run, ckpt, 1, first))];
    var refilled := After(keyB, b, sidecar, sha(b), left);
    [EMPTY_WORLD,
     World(map[run := CREATED], map[], map[], map[]),
     World(map[run := RUNNING], map[], map[], map[]),
     World(map[run := CHECKPOINTING], map[ckpt := Record(run, PENDING, [])], map[], map[]),
     World(map[run := CHECKPOINTING], map[ckpt := Record(run, IN_PROGRESS, first)], map[ckpt := first],
           After(keyA, a, sidecar, sha(a), map[])),
     World(map[run := RunState.FAILED], map[ckpt := Record(run, CheckpointState.FAILED, first)], map[], left),
     World(map[run := RunState.FAILED], map[ckpt := Record(run, IN_PROGRESS, second)], map[ckpt := second], refilled),
     World(map[run := RunState.FAILED], map[ckpt := Record(run, CheckpointState.COMMITTED, second)], map[], refilled)]
  }

  /** Step i is a step of the protocol, with payloads in play, and a sound one
      except for the last commit. */
  ghost predicate StepAt(sha: Bytes -> Digest, run: string, ckpt: string, shard: string, uuid: Uuid, a: Bytes, b: Bytes, i: nat)
    requires i < 7
  {
    var w, s := Worlds(sha, run, ckpt, shard, uuid, a, b), Steps(run, ckpt, shard, uuid, a, b);
    && Next(sha, w[i], s[i], w[i + 1]) && InPlay({a, b}, s[i])
    && (Respects(sha, CommittedOnes, w[i], s[i], w[i + 1]) <==> i != 6)
  }

  lemma Beginning(sha: Bytes -> Digest, run: string, ckpt: string, shard: string, uuid: Uuid, a: Bytes, b: Bytes, i: nat)
    requires SlashFree(run) && SlashFree(ckpt) && i < 3
    ensures StepAt(sha, run, ckpt, shard, uuid, a, b, i)
  {
  }

  lemma UploadFits(sha: Bytes -> Digest, w: World, run: string, ckpt: string, shard: string, uuid: Uuid, body: Bytes, w': World)
    requires ckpt in w.checkpoints && w.checkpoints[ckpt].runId == run && body != [] && ckpt !in w.shards
    requires var key := ShardKey(run, ckpt, Digits(sha(body)), shard); var list := [Uploaded(sha, run, ckpt, shard, 0, body)];
             && key !in w.bucket
             && w' == World(w.runs, w.checkpoints[ckpt := w.checkpoints[ckpt].(state := IN_PROGRESS, numShards := 1,
                                                          totalBytes := TotalSize(list), shardIds := ShardIds(list))],
                            w.shards[ckpt := list], After(key, body, SidecarKey(run, ckpt, shard), sha(body), w.bucket))
    ensures UploadStep(sha, w, run, ckpt, shard, 0, body, uuid, Succeeds, w')
  {
    KindsDisjoint(run, ckpt, shard, uuid, Digits(sha(body)), run, ckpt, shard);
    var list := [Uploaded(sha, run, ckpt, shard, 0, body)];
    assert ListOf(w.shards, ckpt) + list == list;
    assert UploadVia(sha, w, run, ckpt, shard, 0, body, uuid, Succeeds, w'.bucket, w');
  }

  lemma LostAnswer(sha: Bytes -> Digest, run: string, ckpt: string, shard: string, uuid: Uuid, a: Bytes, b: Bytes)
    requires SlashFree(run) && SlashFree(ckpt)
    ensures StepAt(sha, run, ckpt, shard, uuid, a, b, 4)
  {
    var w := Worlds(sha, run, ckpt, shard, uuid, a, b);
    var before, after := w[4], w[5];
    var manifest := ManifestOf(run, ckpt, 1, ListOf(before.shards, ckpt));
    var full: Bucket := before.bucket[ManifestKey(run, ckpt) := Doc(manifest)];
    UploadCleared(map[], run, ckpt, shard, uuid, Digits(sha(a)), a, sha(a), manifest);
    assert before.bucket == After(ShardKey(run, ckpt, Digits(sha(a)), shard), a, SidecarKey(run, ckpt, shard), sha(a), map[]);
    assert CommitEffect(before.bucket, full, manifest, false);
    assert Aborted(before, full, run, ckpt, after);
    assert CommitVia(before, run, ckpt, Fails, full, after);
  }

  /** Clearing takes shard and sidecar of an upload and spares the manifest. */
  lemma UploadCleared(rest: Bucket, run: string, ckpt: string, shard: string, uuid: Uuid, digits: string, a: Bytes, text: string,
                      manifest: Manifest)
    requires |digits| == 16 && ShardKey(run, ckpt, digits, shard) !in rest && SidecarKey(run, ckpt, shard) !in rest
    ensures var key := ManifestKey(run, ckpt);
            Cleared(After(ShardKey(run, ckpt, digits, shard), a, SidecarKey(run, ckpt, shard), text, rest)[key := Doc(manifest)],
                    rest[key := Doc(manifest)], run, ckpt)
  {
    var shardKey, sidecar := ShardKey(run, ckpt, digits, shard), SidecarKey(run, ckpt, shard);
    OnlyManifestEndsSo(run, ckpt, shard, uuid, digits);
    assert Under(shardKey, run, ckpt) && Under(sidecar, run, ckpt);
  }

  lemma FirstUpload(sha: Bytes -> Digest, run: string, ckpt: string, shard: string, uuid: Uuid, a: Bytes, b: Bytes)
    requires SlashFree(run) && SlashFree(ckpt) && a != []
    ensures StepAt(sha, run, ckpt, shard, uuid, a, b, 3)
  {
    var w := Worlds(sha, run, ckpt, shard, uuid, a, b);
    UploadFits(sha, w[3], run, ckpt, shard, uuid, a, w[4]);
  }

  lemma SecondUpload(sha: Bytes -> Digest, run: string, ckpt: string, shard: string, uuid: Uuid, a: Bytes, b: Bytes)
    requires SlashFree(run) && SlashFree(ckpt) && b != []
    ensures StepAt(sha, run, ckpt, shard, uuid, a, b, 5)
  {
    var w := Worlds(sha, run, ckpt, shard, uuid, a, b);
    KindsDisjoint(run, ckpt, shard, uuid, Digits(sha(b)), run, ckpt, shard);
    UploadFits(sha, w[5], run, ckpt, shard, uuid, b, w[6]);
  }

  lemma SecondCommit(sha: Bytes -> Digest, run: string, ckpt: string, shard: string, uuid: Uuid, a: Bytes, b: Bytes)
    requires SlashFree(run) && SlashFree(ckpt) && Digits(sha(a)) != Digits(sha(b))
    ensures StepAt(sha, run, ckpt, shard, uuid, a, b, 6)
  {
    var w := Worlds(sha, run, ckpt, shard, uuid, a, b);
    KindsDisjoint(run, ckpt, shard, uuid, Digits(sha(b)), run, ckpt, shard);
    assert CommitVia(w[6], run, ckpt, Succeeds, w[6].bucket, w[7]);
    EntryIsGone(sha, run, ckpt, shard, uuid, a, b);
  }

  /** The manifest the last commit finds is not its own and lists an object that
      is gone. */
  lemma EntryIsGone(sha: Bytes -> Digest, run: string, ckpt: string, shard: string, uuid: Uuid, a: Bytes, b: Bytes)
    requires SlashFree(run) && SlashFree(ckpt) && Digits(sha(a)) != Digits(sha(b))
    ensures var w := Worlds(sha, run, ckpt, shard, uuid, a, b);
            && !Restorable(sha, w[6].bucket, run, ckpt) && !WroteOwn(w[6], run, ckpt, w[7].bucket)
            && w[7].checkpoints[ckpt].state.COMMITTED? && w[7].checkpoints[ckpt].runId == run && w[7].bucket == w[6].bucket
  {
    var w := Worlds(sha, run, ckpt, shard, uuid, a, b);
    var key, entry := ManifestKey(run, ckpt), Uploaded(sha, run, ckpt, shard, 0, a);
    KindsDisjoint(run, ckpt, shard, uuid, Digits(sha(b)), run, ckpt, shard);
    if entry.storageKey in w[6].bucket {
      KindsDisjoint(run, ckpt, shard, uuid, Digits(sha(a)), run, ckpt, shard);
      ShardKeyInjective(run, ckpt, Digits(sha(a)), shard, run, ckpt, Digits(sha(b)), shard);
    }
    assert w[6].bucket[key].manifest.shards[0] == entry;
  }

  lemma EachStep(sha: Bytes -> Digest, run: string, ckpt: string, shard: string, uuid: Uuid, a: Bytes, b: Bytes, i: nat)
    requires SlashFree(run) && SlashFree(ckpt) && a != [] && b != [] && Digits(sha(a)) != Digits(sha(b)) && i < 7
    ensures StepAt(sha, run, ckpt, shard, uuid, a, b, i)
  {
    if i < 3 { Beginning(sha, run, ckpt, shard, uuid, a, b, i); }
    else if i == 3 { FirstUpload(sha, run, ckpt, shard, uuid, a, b); }
    else if i == 4 { LostAnswer(sha, run, ckpt, shard, uuid, a, b); }
    else if i == 5 { SecondUpload(sha, run, ckpt, shard, uuid, a, b); }
    else { SecondCommit(sha, run, ckpt, shard, uuid, a, b); }
  }

  /** For any ids and any two bodies told apart by their digits there is a run
      that ends with a committed checkpoint that cannot be restored; all its steps
      but the last commit are sound. */
  lemma CommittedButLost(sha: Bytes -> Digest, run: string, ckpt: string, shard: string, uuid: Uuid, a: Bytes, b: Bytes)
    requires SlashFree(run) && SlashFree(ckpt) && a != [] && b != [] && Digits(sha(a)) != Digits(sha(b))
    ensures Worlds(sha, run, ckpt, shard, uuid, a, b)[0] == EMPTY_WORLD
    ensures forall i :: 0 <= i < 7 ==> StepAt(sha, run, ckpt, shard, uuid, a, b, i)
    ensures !AllRestorable(sha, Worlds(sha, run, ckpt, shard, uuid, a, b)[7])
  {
    forall i | 0 <= i < 7 ensures StepAt(sha, run, ckpt, shard, uuid, a, b, i) {
      EachStep(sha, run, ckpt, shard, uuid, a, b, i);
    }
    EntryIsGone(sha, run, ckpt, shard, uuid, a, b);
    var last := Worlds(sha, run, ckpt, shard, uuid, a, b)[7];
    assert ckpt in last.checkpoints;
  }
}
