/** Retention and recovery together: whether the checkpoint a run would recover
    from outlives a retention pass. */
module RecoveryPoint {
  import opened Sequences
  import opened ObjectKeys
  import opened ObjectStore
  import opened Coordinator
  import opened Protocol
  import opened Ranking
  import opened Listings
  import opened Retention

  /** A committed checkpoint is one of the listing's groups with a manifest. */
  lemma CommittedIsListed(sha: Bytes -> Digest, payloads: set<Bytes>, w: World, items: seq<Item>, c: string)
    requires Inv(sha, payloads, Entries, w) && Lists(w.bucket, items)
    requires c in w.checkpoints && w.checkpoints[c].state.COMMITTED?
    ensures var id := (w.checkpoints[c].runId, c); id in Groups(items) && HasManifest(items, id) && id in Committed(items, id.0)
  {
    var run := w.checkpoints[c].runId;
    var key := ManifestKey(run, c);
    assert RecordSound(sha, Entries, w.bucket, c, w.checkpoints[c], ListOf(w.shards, c));
    var x :| x in items && x.key == key;
    SplitUnder(run, c, "_manifest.json");
    OnlyManifestEndsSo(run, c, "", seq(36, _ => '0'), "");
    assert InGroup((run, c))(x) && x in Filter(items, InGroup((run, c)));
    GroupListed(items, (run, c));
  }

  /** For an active run and every run tied for the newest failure: the
      checkpoint recovery would select is still recorded, still selected and
      restorable after an error-free pass exactly when fewer than
      keepCommittedPerRun checkpoints with a manifest in the run are newer. */
  lemma RecoveryPointKept(sha: Bytes -> Digest, payloads: set<Bytes>, w: World, items: seq<Item>, cfg: RetentionConfig,
                          runs: map<string, RunStatus>, now: int, run: string, c: string, w': World)
    requires Inv(sha, payloads, Entries, w) && Lists(w.bucket, items)
    requires Sheltered(runs, run) && RecoversFrom(w.checkpoints, run, c) && Restorable(sha, w.bucket, run, c)
    requires PruneStep(w, Plan(items, cfg, runs, now), w')
    ensures RecoversFrom(w'.checkpoints, run, c) && Restorable(sha, w'.bucket, run, c)
            <==> CommitRank(items, (run, c)) < cfg.keepCommittedPerRun
  {
    CommittedIsListed(sha, payloads, w, items, c);
    var plan := Plan(items, cfg, runs, now);
    CommittedPlanned(items, cfg, runs, now, (run, c));
    assert RecordSound(sha, Entries, w.bucket, c, w.checkpoints[c], ListOf(w.shards, c));
    PrunedOrKept(sha, w, plan, w', run, c);
  }

  lemma CommittedPlanned(items: seq<Item>, cfg: RetentionConfig, runs: map<string, RunStatus>, now: int, id: Id)
    requires Sheltered(runs, id.0) && id in Groups(items) && HasManifest(items, id)
    ensures id in Plan(items, cfg, runs, now) <==> CommitRank(items, id) >= cfg.keepCommittedPerRun
  {
  }

  /** A pass leaves the recovery point as it is, or takes its record. */
  lemma PrunedOrKept(sha: Bytes -> Digest, w: World, plan: set<(string, string)>, w': World, run: string, c: string)
    requires PruneStep(w, plan, w') && RecoversFrom(w.checkpoints, run, c) && Restorable(sha, w.bucket, run, c)
    requires SlashFree(run) && SlashFree(c)
    ensures RecoversFrom(w'.checkpoints, run, c) && Restorable(sha, w'.bucket, run, c) <==> (run, c) !in plan
  {
    if (run, c) !in plan { UnplannedRestorable(sha, w, plan, w', run, c); }
  }

  /** In this run every group with a manifest is a committed record, and newer
      means a higher step. */
  ghost predicate TimesFollowSteps(w: World, items: seq<Item>, run: string)
  {
    && (forall id :: id in Committed(items, run) ==>
                       id.1 in w.checkpoints && w.checkpoints[id.1].runId == run && w.checkpoints[id.1].state.COMMITTED?)
    && (forall a, b :: a in Committed(items, run) && b in Committed(items, run) && a != b ==>
                         && w.checkpoints[a.1].step != w.checkpoints[b.1].step
                         && (w.checkpoints[a.1].step < w.checkpoints[b.1].step ==> GroupNewest(items)(a) < GroupNewest(items)(b)))
  }

  lemma SelectedIsNewest(w: World, items: seq<Item>, run: string, c: string)
    requires RecoversFrom(w.checkpoints, run, c) && TimesFollowSteps(w, items, run) && (run, c) in Committed(items, run)
    ensures CommitRank(items, (run, c)) == 0
  {
    var id := (run, c);
    forall other | other in Committed(items, run) && other != id ensures GroupNewest(items)(other) < GroupNewest(items)(id) {
      assert w.checkpoints[other.1].step <= w.checkpoints[c].step;
    }
    RankOfNewest(Committed(items, run), GroupNewest(items), GroupFirst(items), id);
  }

  /** Retention never removes the recovery point of a run in which modification
      times follow steps. */
  lemma RecoveryPointSafe(sha: Bytes -> Digest, payloads: set<Bytes>, w: World, items: seq<Item>, cfg: RetentionConfig,
                          runs: map<string, RunStatus>, now: int, run: string, c: string, w': World)
    requires Inv(sha, payloads, Entries, w) && Lists(w.bucket, items) && cfg.keepCommittedPerRun >= 1
    requires Sheltered(runs, run) && RecoversFrom(w.checkpoints, run, c) && TimesFollowSteps(w, items, run)
    requires Restorable(sha, w.bucket, run, c)
    requires PruneStep(w, Plan(items, cfg, runs, now), w')
    ensures RecoversFrom(w'.checkpoints, run, c) && Restorable(sha, w'.bucket, run, c)
  {
    CommittedIsListed(sha, payloads, w, items, c);
    SelectedIsNewest(w, items, run, c);
    RecoveryPointKept(sha, payloads, w, items, cfg, runs, now, run, c, w');
  }

  /** Without that: when a single checkpoint is kept per run, any newer group
      that still has a manifest takes the recovery point's place, even if its
      own record is FAILED. */
  lemma RecoveryPointDisplaced(sha: Bytes -> Digest, payloads: set<Bytes>, w: World, items: seq<Item>, cfg: RetentionConfig,
                               runs: map<string, RunStatus>, now: int, run: string, c: string, newer: Id, w': World)
    requires Inv(sha, payloads, Entries, w) && Lists(w.bucket, items) && cfg.keepCommittedPerRun == 1
    requires Sheltered(runs, run) && RecoversFrom(w.checkpoints, run, c)
    requires newer in Committed(items, run) && GroupNewest(items)((run, c)) < GroupNewest(items)(newer)
    requires PruneStep(w, Plan(items, cfg, runs, now), w')
    ensures c !in w'.checkpoints && ManifestKey(run, c) !in w'.bucket
  {
    CommittedIsListed(sha, payloads, w, items, c);
    RankBehind(Committed(items, run), GroupNewest(items), GroupFirst(items), (run, c), newer);
    assert RecordSound(sha, Entries, w.bucket, c, w.checkpoints[c], ListOf(w.shards, c));
    SplitUnder(run, c, "_manifest.json");
  }
}
