/** A run of the system in which retention takes the only checkpoint a run could
    recover from: a later commit whose answer was lost left its manifest. */
module RecoveryPointLost {
  import opened Sequences
  import opened ObjectKeys
  import opened ObjectStore
  import opened RunStates
  import opened Coordinator
  import opened ShardWriter
  import opened DataPlane
  import opened Protocol
  import opened LeftoverManifest
  import opened Ranking
  import opened Listings
  import opened Retention
  import opened RecoveryPoint
  import ControlPlane

  /** The run, its two checkpoints, and the shard body saved in both. */
  datatype Case = Case(sha: Bytes -> Digest, run: string, first: string, second: string, shard: string, uuid: Uuid, body: Bytes)

  ghost predicate Proper(c: Case)
  {
    SlashFree(c.run) && SlashFree(c.first) && SlashFree(c.second) && c.first != c.second && c.body != []
  }

  function Entry(c: Case, ckpt: string): ShardInfo { Uploaded(c.sha, c.run, ckpt, c.shard, 0, c.body) }

  function Key(c: Case, ckpt: string): string { ShardKey(c.run, ckpt, Digits(c.sha(c.body)), c.shard) }

  function Sidecar(c: Case, ckpt: string): string { SidecarKey(c.run, ckpt, c.shard) }

  function Manifested(c: Case, ckpt: string, step: int): Stored { Doc(ManifestOf(c.run, ckpt, step, [Entry(c, ckpt)])) }

  function Stored1(c: Case): Bucket { After(Key(c, c.first), c.body, Sidecar(c, c.first), c.sha(c.body), map[]) }

  function Stored2(c: Case): Bucket { Stored1(c)[ManifestKey(c.run, c.first) := Manifested(c, c.first, 1)] }

  function Stored3(c: Case): Bucket { After(Key(c, c.second), c.body, Sidecar(c, c.second), c.sha(c.body), Stored2(c)) }

  function Stored4(c: Case): Bucket { Stored2(c)[ManifestKey(c.run, c.second) := Manifested(c, c.second, 2)] }

  function Rec(c: Case, ckpt: string, step: int, state: CheckpointState): Checkpoint
  {
    Checkpoint(c.run, step, state, 1, TotalSize([Entry(c, ckpt)]), ShardIds([Entry(c, ckpt)]))
  }

  function Actions(c: Case): (actions: seq<Action>)
    ensures |actions| == 8
  {
    [CreateRun(c.run), ChangeRun(c.run, RUNNING), Trigger(c.run, 1, c.first),
     Action.Upload(c.run, c.first, c.shard, 0, c.body, c.uuid, Succeeds), Commit(c.run, c.first, Succeeds),
     Trigger(c.run, 2, c.second), Action.Upload(c.run, c.second, c.shard, 0, c.body, c.uuid, Succeeds), Commit(c.run, c.second, Fails)]
  }

  function States(c: Case): (states: seq<World>)
    ensures |states| == 9
  {
    var done := Rec(c, c.first, 1, CheckpointState.COMMITTED);
    [EMPTY_WORLD,
     World(map[c.run := CREATED], map[], map[], map[]),
     World(map[c.run := RUNNING], map[], map[], map[]),
     World(map[c.run := CHECKPOINTING], map[c.first := Checkpoint(c.run, 1, PENDING, 0, 0, [])], map[], map[]),
     World(map[c.run := CHECKPOINTING], map[c.first := Rec(c, c.first, 1, IN_PROGRESS)], map[c.first := [Entry(c, c.first)]], Stored1(c)),
     World(map[c.run := RUNNING], map[c.first := done], map[], Stored2(c)),
     World(map[c.run := CHECKPOINTING], map[c.first := done, c.second := Checkpoint(c.run, 2, PENDING, 0, 0, [])], map[], Stored2(c)),
     World(map[c.run := CHECKPOINTING], map[c.first := done, c.second := Rec(c, c.second, 2, IN_PROGRESS)],
           map[c.second := [Entry(c, c.second)]], Stored3(c)),
     World(map[c.run := RunState.FAILED], map[c.first := done, c.second := Rec(c, c.second, 2, CheckpointState.FAILED)], map[], Stored4(c))]
  }

  ghost predicate Moves(c: Case, i: nat)
    requires i < 8
  {
    && Next(c.sha, States(c)[i], Actions(c)[i], States(c)[i + 1])
    && InPlay({c.body}, Actions(c)[i])
  }

  lemma StartMoves(c: Case, i: nat)
    requires Proper(c) && i < 3
    ensures Moves(c, i)
  {
  }

  lemma FirstUploadMoves(c: Case)
    requires Proper(c)
    ensures Moves(c, 3)
  {
    UploadFits(c.sha, States(c)[3], c.run, c.first, c.shard, c.uuid, c.body, States(c)[4]);
  }

  lemma FirstCommitMoves(c: Case)
    requires Proper(c)
    ensures Moves(c, 4)
  {
    KindsDisjoint(c.run, c.first, c.shard, c.uuid, Digits(c.sha(c.body)), c.run, c.first, c.shard);
    assert CommitVia(States(c)[4], c.run, c.first, Succeeds, Stored2(c), States(c)[5]);
  }

  /** Nothing in the bucket belongs to the second checkpoint yet. */
  lemma SecondIsUnused(c: Case)
    requires Proper(c)
    ensures forall k :: k in Stored2(c) ==> SplitKey(k).Some? && SplitKey(k).value.1 == c.first && !Under(k, c.run, c.second)
  {
    forall k | k in Stored2(c) ensures SplitKey(k).Some? && SplitKey(k).value.1 == c.first && !Under(k, c.run, c.second) {
      assert Under(k, c.run, c.first);
      UnderIffSplit(k, c.run, c.first);
      UnderIffSplit(k, c.run, c.second);
    }
  }

  lemma SecondTriggerMoves(c: Case)
    requires Proper(c)
    ensures Moves(c, 5)
  {
    SecondIsUnused(c);
    assert Unused(States(c)[5], c.second);
  }

  lemma SecondUploadMoves(c: Case)
    requires Proper(c)
    ensures Moves(c, 6)
  {
    SecondIsUnused(c);
    assert Under(Key(c, c.second), c.run, c.second);
    UploadFits(c.sha, States(c)[6], c.run, c.second, c.shard, c.uuid, c.body, States(c)[7]);
  }

  lemma ShardsGone(c: Case)
    requires Proper(c)
    ensures Cleared(Stored3(c)[ManifestKey(c.run, c.second) := Manifested(c, c.second, 2)], Stored4(c), c.run, c.second)
  {
    SecondIsUnused(c);
    assert Under(Key(c, c.second), c.run, c.second) && Under(Sidecar(c, c.second), c.run, c.second);
    UploadCleared(Stored2(c), c.run, c.second, c.shard, c.uuid, Digits(c.sha(c.body)), c.body, c.sha(c.body),
                  ManifestOf(c.run, c.second, 2, [Entry(c, c.second)]));
  }

  lemma LostCommitMoves(c: Case)
    requires Proper(c)
    ensures Moves(c, 7)
  {
    var w, w' := States(c)[7], States(c)[8];
    var full: Bucket := Stored3(c)[ManifestKey(c.run, c.second) := Manifested(c, c.second, 2)];
    ShardsGone(c);
    assert Aborted(w, full, c.run, c.second, w');
    assert CommitVia(w, c.run, c.second, Fails, full, w');
  }

  lemma AllMoves(c: Case, i: nat)
    requires Proper(c) && i < 8
    ensures Moves(c, i)
  {
    if i < 3 { StartMoves(c, i); }
    else if i == 3 { FirstUploadMoves(c); }
    else if i == 4 { FirstCommitMoves(c); }
    else if i == 5 { SecondTriggerMoves(c); }
    else if i == 6 { SecondUploadMoves(c); }
    else { LostCommitMoves(c); }
  }

  lemma Connected(c: Case, states: seq<World>, actions: seq<Action>)
    requires states == States(c) && actions == Actions(c) && states[0] == EMPTY_WORLD
    requires forall i :: 0 <= i < 8 ==> Moves(c, i)
    ensures Behaviour(c.sha, {c.body}, states, actions)
  {
    forall i | 0 <= i < |actions|
      ensures InPlay({c.body}, actions[i]) && Next(c.sha, states[i], actions[i], states[i + 1])
    {
      assert Moves(c, i);
    }
  }

  lemma IsBehaviour(c: Case)
    requires Proper(c)
    ensures Behaviour(c.sha, {c.body}, States(c), Actions(c)) && Distinguishes(c.sha, {c.body})
  {
    forall i | 0 <= i < 8 ensures Moves(c, i) {
      AllMoves(c, i);
    }
    Connected(c, States(c), Actions(c));
  }

  // ------------------------------------------------------------------
  // The retention pass

  /** A listing of the final bucket, the second checkpoint's manifest last written. */
  function Listing(c: Case): (items: seq<Item>)
    ensures |items| == 4
  {
    [Item(ManifestKey(c.run, c.first), 1, 1), Item(Key(c, c.first), |c.body|, 1), Item(Sidecar(c, c.first), 64, 1),
     Item(ManifestKey(c.run, c.second), 1, 2)]
  }

  lemma SecondManifestApart(c: Case)
    requires Proper(c)
    ensures ManifestKey(c.run, c.second) !in Stored2(c)
  {
    SecondIsUnused(c);
    assert Under(ManifestKey(c.run, c.second), c.run, c.second);
  }

  lemma Apart(a: string, b: string, c: string, d: string, items: seq<Item>)
    requires |items| == 4 && items[0].key == a && items[1].key == b && items[2].key == c && items[3].key == d
    requires a != b && a != c && b != c && d !in {a, b, c}
    ensures forall i, j :: 0 <= i < j < |items| ==> items[i].key != items[j].key
  {
  }

  lemma ListingDistinct(c: Case)
    requires Proper(c)
    ensures forall i, j :: 0 <= i < j < |Listing(c)| ==> Listing(c)[i].key != Listing(c)[j].key
  {
    KindsDisjoint(c.run, c.first, c.shard, c.uuid, Digits(c.sha(c.body)), c.run, c.first, c.shard);
    SecondManifestApart(c);
    Apart(ManifestKey(c.run, c.first), Key(c, c.first), Sidecar(c, c.first), ManifestKey(c.run, c.second), Listing(c));
  }

  lemma ListingCovers(c: Case, k: string)
    requires k in Stored4(c)
    ensures exists x :: x in Listing(c) && x.key == k
  {
    var items := Listing(c);
    assert items[0] in items && items[1] in items && items[2] in items && items[3] in items;
  }

  lemma ListingIsComplete(c: Case)
    requires Proper(c)
    ensures Lists(Stored4(c), Listing(c))
  {
    ListingDistinct(c);
    forall k | k in Stored4(c) ensures exists x :: x in Listing(c) && x.key == k {
      ListingCovers(c, k);
    }
  }

  lemma TwoManifests(c: Case)
    requires Proper(c)
    ensures (c.run, c.second) in Committed(Listing(c), c.run)
    ensures GroupNewest(Listing(c))((c.run, c.first)) <= 1
    ensures GroupNewest(Listing(c))((c.run, c.second)) >= 2
  {
    ManifestCounts(Listing(c), 3, c.run, c.second);
    OldGroup(c);
  }

  /** A manifest in a listing makes its checkpoint a committed group at least as
      new. */
  lemma ManifestCounts(items: seq<Item>, i: nat, run: string, ckpt: string)
    requires i < |items| && items[i].key == ManifestKey(run, ckpt) && SlashFree(run) && SlashFree(ckpt)
    ensures (run, ckpt) in Committed(items, run) && GroupNewest(items)((run, ckpt)) >= items[i].modified
  {
    var id := (run, ckpt);
    ManifestItem(items[i], run, ckpt);
    assert items[i] in items && items[i] in Filter(items, InGroup(id));
    GroupListed(items, id);
  }

  lemma ManifestItem(item: Item, run: string, ckpt: string)
    requires item.key == ManifestKey(run, ckpt) && SlashFree(run) && SlashFree(ckpt)
    ensures InGroup((run, ckpt))(item) && IsManifest(item)
  {
    SplitUnder(run, ckpt, "_manifest.json");
    OnlyManifestEndsSo(run, ckpt, "", seq(36, _ => '0'), "");
  }

  lemma OldGroup(c: Case)
    requires Proper(c)
    ensures GroupNewest(Listing(c))((c.run, c.first)) <= 1
  {
    var items, id := Listing(c), (c.run, c.first);
    SplitUnder(c.run, c.second, "_manifest.json");
    assert !InGroup(id)(items[3]);
    forall x | x in Filter(items, InGroup(id)) ensures x.modified <= 1 {
      assert x in items && InGroup(id)(x);
    }
  }

  /** The state the run of the system ends in. */
  function Last(c: Case): World { States(c)[8] }

  lemma LastState(c: Case)
    requires Proper(c)
    ensures Behaviour(c.sha, {c.body}, States(c), Actions(c)) && Inv(c.sha, {c.body}, Entries, Last(c))
  {
    IsBehaviour(c);
    AlwaysEntries(c.sha, {c.body}, States(c), Actions(c), 8);
  }

  lemma LastRecovery(c: Case)
    requires Proper(c)
    ensures Last(c).bucket == Stored4(c) && RecoversFrom(Last(c).checkpoints, c.run, c.first)
    ensures forall k :: k in Last(c).checkpoints && Last(c).checkpoints[k].state.COMMITTED? ==> k == c.first
  {
  }

  lemma FirstIsPruned(c: Case, w: World, cfg: RetentionConfig, runs: map<string, RunStatus>, now: int, w': World)
    requires Proper(c) && cfg.keepCommittedPerRun == 1 && Sheltered(runs, c.run)
    requires Inv(c.sha, {c.body}, Entries, w) && w.bucket == Stored4(c) && RecoversFrom(w.checkpoints, c.run, c.first)
    requires PruneStep(w, Plan(Listing(c), cfg, runs, now), w')
    ensures c.first !in w'.checkpoints
  {
    ListingIsComplete(c);
    TwoManifests(c);
    RecoveryPointDisplaced(c.sha, {c.body}, w, Listing(c), cfg, runs, now, c.run, c.first, (c.run, c.second), w');
  }

  /** The run is the only one, so it is the newest failed one. */
  lemma OnlyRunIsSheltered(c: Case, runs: map<string, RunStatus>)
    requires ControlPlane.StatesOf(runs) == Last(c).runs
    ensures NewestFailed(runs, c.run) && Sheltered(runs, c.run)
  {
    var states := ControlPlane.StatesOf(runs);
    assert Last(c).runs == map[c.run := RunState.FAILED];
    assert forall r :: r in runs <==> r in states;
    assert states[c.run] == runs[c.run].state;
  }

  /** The run of the system ends with a failed run whose recovery point is the
      first checkpoint; a retention pass that keeps one checkpoint per run then
      leaves the run without any, although it is the newest failed run. */
  lemma RunLosesItsRecoveryPoint(c: Case, cfg: RetentionConfig, runs: map<string, RunStatus>, now: int, w': World)
    requires Proper(c) && cfg.keepCommittedPerRun == 1 && ControlPlane.StatesOf(runs) == Last(c).runs
    requires PruneStep(Last(c), Plan(Listing(c), cfg, runs, now), w')
    ensures Behaviour(c.sha, {c.body}, States(c), Actions(c)) && Lists(Last(c).bucket, Listing(c))
    ensures NewestFailed(runs, c.run) && RecoversFrom(Last(c).checkpoints, c.run, c.first)
    ensures forall k :: k in w'.checkpoints ==> !w'.checkpoints[k].state.COMMITTED?
  {
    var w := Last(c);
    LastState(c);
    LastRecovery(c);
    ListingIsComplete(c);
    OnlyRunIsSheltered(c, runs);
    FirstIsPruned(c, w, cfg, runs, now, w');
    OnlyFewerRecords(w, Plan(Listing(c), cfg, runs, now), w');
  }

  lemma OnlyFewerRecords(w: World, plan: set<Id>, w': World)
    requires PruneStep(w, plan, w')
    ensures forall k :: k in w'.checkpoints ==> k in w.checkpoints && w'.checkpoints[k] == w.checkpoints[k]
  {
  }
}
