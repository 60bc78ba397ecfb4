/** The bytes that were uploaded come back, over whole runs of the system. */
module RoundTrip {
  import opened Sequences
  import opened ObjectKeys
  import opened ObjectStore
  import opened RunStates
  import opened Coordinator
  import opened ShardWriter
  import opened DataPlane
  import opened Protocol

  /** Does not give this checkpoint up, commit it or lose the shard lists. */
  predicate KeepsOpen(a: Action, ckpt: string)
  {
    match a
    case Trigger(_, _, c) => c != ckpt
    case Upload(_, c, _, _, _, _, ending) => !ending.Dies? && (c == ckpt ==> !ending.Fails?)
    case Commit(_, c, ending) => !ending.Dies? && c != ckpt
    case Restart => false
    case _ => true
  }

  /** An upload of this shard id to this checkpoint. */
  predicate Uploads(a: Action, ckpt: string, shard: string) { a.Upload? && a.ckpt == ckpt && a.shard == shard }

  lemma {:induction false} FindInAppended(list: seq<ShardInfo>, last: ShardInfo, shard: string)
    ensures FindShard(list + [last], shard) ==
            if FindShard(list, shard).Some? then FindShard(list, shard)
            else if last.shardId == shard then Some(last) else None
  {
    if list == [] {
      assert list + [last] == [last];
    } else {
      assert (list + [last])[1..] == list[1..] + [last];
      FindInAppended(list[1..], last, shard);
    }
  }

  lemma {:induction false} FoundIsListed(list: seq<ShardInfo>, shard: string) returns (i: nat)
    requires FindShard(list, shard).Some?
    ensures i < |list| && FindShard(list, shard) == Some(list[i])
  {
    if list[0].shardId == shard {
      i := 0;
    } else {
      i := FoundIsListed(list[1..], shard);
      i := i + 1;
    }
  }

  /** While the checkpoint stays open, no manifest of it appears, and what the
      list has first of a shard stays first. */
  lemma OpenStep(sha: Bytes -> Digest, payloads: set<Bytes>, w: World, a: Action, w': World, run: string, ckpt: string, shard: string)
    requires Inv(sha, payloads, Entries, w) && Next(sha, w, a, w') && KeepsOpen(a, ckpt) && SlashFree(run) && SlashFree(ckpt)
    ensures ManifestKey(run, ckpt) !in w.bucket ==> ManifestKey(run, ckpt) !in w'.bucket
    ensures FindShard(ListOf(w.shards, ckpt), shard).Some? || !Uploads(a, ckpt, shard) ==>
              FindShard(ListOf(w'.shards, ckpt), shard) == FindShard(ListOf(w.shards, ckpt), shard)
  {
    var key := ManifestKey(run, ckpt);
    assert Under(key, run, ckpt);
    match a
    case Upload(run', ckpt', shard', rank, body, uuid, ending) =>
      assert RecordSound(sha, Entries, w.bucket, ckpt', w.checkpoints[ckpt'], ListOf(w.shards, ckpt'));
      if ckpt' == ckpt {
        OwnUpload(sha, w, run', ckpt, shard', rank, body, uuid, w', run, shard);
      } else {
        UploadIsLocal(sha, w, run', ckpt', shard', rank, body, uuid, ending, w');
        if Under(key, run', ckpt') { UnderOne(key, run, ckpt, run', ckpt'); }
      }
    case Commit(run', ckpt', ending) =>
      assert RecordSound(sha, Entries, w.bucket, ckpt', w.checkpoints[ckpt'], ListOf(w.shards, ckpt'));
      CommitStepIsLocal(w, run', ckpt', ending, w');
      if Under(key, run', ckpt') { UnderOne(key, run, ckpt, run', ckpt'); }
    case _ =>
  }

  /** A successful upload appends its entry and adds no manifest. */
  lemma OwnUpload(sha: Bytes -> Digest, w: World, run': string, ckpt: string, shard': string, rank: int, body: Bytes, uuid: Uuid,
                  w': World, run: string, shard: string)
    requires UploadStep(sha, w, run', ckpt, shard', rank, body, uuid, Succeeds, w')
    ensures ManifestKey(run, ckpt) in w'.bucket ==> ManifestKey(run, ckpt) in w.bucket
    ensures FindShard(ListOf(w'.shards, ckpt), shard) ==
            if FindShard(ListOf(w.shards, ckpt), shard).Some? then FindShard(ListOf(w.shards, ckpt), shard)
            else if shard' == shard then Some(Uploaded(sha, run', ckpt, shard', rank, body)) else None
  {
    KindsDisjoint(run', ckpt, shard', uuid, Digits(sha(body)), run, ckpt, shard);
    FindInAppended(ListOf(w.shards, ckpt), Uploaded(sha, run', ckpt, shard', rank, body), shard);
  }

  /** Trigger at t, the first upload of the shard, a successful one, at i; until
      step m the checkpoint stays open. */
  ghost predicate FirstUpload(actions: seq<Action>, t: nat, i: nat, m: nat)
    requires m <= |actions|
  {
    && t < i < |actions| && t < m && actions[t].Trigger?
    && actions[i].Upload? && actions[i].ending.Succeeds? && actions[i].run == actions[t].run && actions[i].ckpt == actions[t].ckpt
    && (forall n :: t < n < m ==> KeepsOpen(actions[n], actions[t].ckpt))
    && (forall n :: t < n < m && n < i ==> !Uploads(actions[n], actions[t].ckpt, actions[i].shard))
  }

  /** The entry of the upload at i. */
  function EntryOf(sha: Bytes -> Digest, a: Action): ShardInfo
    requires a.Upload?
  {
    Uploaded(sha, a.run, a.ckpt, a.shard, a.rank, a.body)
  }

  /** From the first upload on the list has its entry first, whatever is uploaded
      under the same shard id later. */
  lemma {:induction false} FirstUploadListed(sha: Bytes -> Digest, payloads: set<Bytes>, states: seq<World>, actions: seq<Action>,
                                             t: nat, i: nat, m: nat)
    requires Behaviour(sha, payloads, states, actions) && Distinguishes(sha, payloads)
    requires m <= |actions| && FirstUpload(actions, t, i, m)
    ensures var a := actions[i];
            && SlashFree(a.run) && SlashFree(a.ckpt)
            && ManifestKey(a.run, a.ckpt) !in states[m].bucket
            && FindShard(ListOf(states[m].shards, a.ckpt), a.shard) == if m <= i then None else Some(EntryOf(sha, a))
  {
    var a := actions[i];
    var n := m - 1;
    AlwaysEntries(sha, payloads, states, actions, n);
    assert Next(sha, states[n], actions[n], states[n + 1]);
    if n == t {
      if ManifestKey(a.run, a.ckpt) in states[n].bucket { SplitUnder(a.run, a.ckpt, "_manifest.json"); }
    } else {
      FirstUploadListed(sha, payloads, states, actions, t, i, n);
      if n == i {
        OwnUpload(sha, states[n], a.run, a.ckpt, a.shard, a.rank, a.body, a.uuid, states[m], a.run, a.shard);
      } else {
        OpenStep(sha, payloads, states[n], actions[n], states[m], a.run, a.ckpt, a.shard);
      }
    }
  }

  /** Then the commit at j, and up to step k the record stays and nothing more is
      uploaded to it. */
  ghost predicate CommittedSince(states: seq<World>, actions: seq<Action>, i: nat, j: nat, k: nat)
    requires |states| == |actions| + 1
  {
    && i < j < k <= |actions| && actions[i].Upload? && actions[j] == Commit(actions[i].run, actions[i].ckpt, Succeeds)
    && (forall n :: j < n <= k ==> actions[i].ckpt in states[n].checkpoints)
    && (forall n :: j < n < k ==> !UploadsTo(actions[n], actions[i].ckpt))
  }

  /** The manifest names the uploaded entry first and can be restored. */
  ghost predicate Names(sha: Bytes -> Digest, w: World, a: Action)
    requires a.Upload?
  {
    var key := ManifestKey(a.run, a.ckpt);
    && a.ckpt in w.checkpoints && w.checkpoints[a.ckpt].state.COMMITTED? && w.checkpoints[a.ckpt].runId == a.run
    && Restorable(sha, w.bucket, a.run, a.ckpt)
    && FindShard(w.bucket[key].manifest.shards, a.shard) == Some(EntryOf(sha, a))
  }

  lemma CommitNames(sha: Bytes -> Digest, payloads: set<Bytes>, w: World, a: Action, w': World)
    requires Inv(sha, payloads, Entries, w) && a.Upload? && CommitStep(w, a.run, a.ckpt, Succeeds, w')
    requires ManifestKey(a.run, a.ckpt) !in w.bucket && FindShard(ListOf(w.shards, a.ckpt), a.shard) == Some(EntryOf(sha, a))
    ensures Names(sha, w', a)
  {
    var bucket: Bucket :| CommitVia(w, a.run, a.ckpt, Succeeds, bucket, w');
    CommitRestoresExactly(sha, payloads, w, a.run, a.ckpt, bucket, w');
  }

  lemma {:induction false} ManifestKeepsEntry(sha: Bytes -> Digest, payloads: set<Bytes>, states: seq<World>, actions: seq<Action>,
                                              t: nat, i: nat, j: nat, k: nat)
    requires Behaviour(sha, payloads, states, actions) && Distinguishes(sha, payloads)
    requires j < |actions| && FirstUpload(actions, t, i, j) && CommittedSince(states, actions, i, j, k)
    ensures Names(sha, states[k], actions[i])
  {
    var n := k - 1;
    assert Next(sha, states[n], actions[n], states[n + 1]) && InPlay(payloads, actions[n]);
    AlwaysEntries(sha, payloads, states, actions, n);
    if n == j {
      FirstUploadListed(sha, payloads, states, actions, t, i, j);
      CommitNames(sha, payloads, states[j], actions[i], states[k]);
    } else {
      ManifestKeepsEntry(sha, payloads, states, actions, t, i, j, n);
      CommittedStays(sha, payloads, states[n], actions[n], states[k], actions[i].ckpt);
    }
  }

  /** End to end: as long as the record is kept and nothing more is uploaded to
      the committed checkpoint, a download of the shard addresses exactly the
      bytes of its first successful upload. */
  lemma DownloadReturnsUpload(sha: Bytes -> Digest, payloads: set<Bytes>, states: seq<World>, actions: seq<Action>,
                              t: nat, i: nat, j: nat, k: nat)
    requires Behaviour(sha, payloads, states, actions) && Distinguishes(sha, payloads)
    requires j < |actions| && FirstUpload(actions, t, i, j) && CommittedSince(states, actions, i, j, k)
    ensures var a := actions[i]; Addressed(states[k].bucket, a.run, a.ckpt, a.shard) == Some(a.body)
  {
    var a := actions[i];
    ManifestKeepsEntry(sha, payloads, states, actions, t, i, j, k);
    FirstUploadListed(sha, payloads, states, actions, t, i, j);
    AlwaysEntries(sha, payloads, states, actions, k);
    assert InPlay(payloads, a);
    NamedIsAddressed(sha, payloads, states[k], a);
  }

  lemma NamedIsAddressed(sha: Bytes -> Digest, payloads: set<Bytes>, w: World, a: Action)
    requires Inv(sha, payloads, Entries, w) && Distinguishes(sha, payloads) && a.Upload? && a.body in payloads
    requires SlashFree(a.run) && SlashFree(a.ckpt) && Names(sha, w, a)
    ensures Addressed(w.bucket, a.run, a.ckpt, a.shard) == Some(a.body)
  {
    var entries := w.bucket[ManifestKey(a.run, a.ckpt)].manifest.shards;
    var at := FoundIsListed(entries, a.shard);
    assert Stands(sha, w.bucket, a.run, a.ckpt, entries[at]);
    assert HoldsPayload(sha, payloads, w.bucket[ShardKey(a.run, a.ckpt, Digits(sha(a.body)), a.shard)], Digits(sha(a.body)));
  }
}
