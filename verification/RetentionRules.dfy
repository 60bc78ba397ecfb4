/** What retention keeps, told by run states and by the listed objects alone, and
    that a run on its way out of a failure is among it. */
module RetentionRules {
  import opened Sequences
  import opened ObjectKeys
  import opened ObjectStore
  import opened RunStates
  import opened Coordinator
  import opened Ranking
  import opened Listings
  import opened Retention
  import opened GroupFailure
  import Protocol
  import RecoveryPoint

  /** Active are exactly the states a failure can end. */
  lemma ActiveExactly(state: RunState)
    ensures Active(state) <==> RunState.FAILED in Allowed(state)
  {
  }

  /** A failure could end the run, or it has failed and no failed run was updated
      later. */
  ghost predicate Kept(runs: map<string, RunStatus>, run: string)
  {
    && run in runs
    && (|| RunState.FAILED in Allowed(runs[run].state)
        || (runs[run].state == RunState.FAILED
            && !exists other :: other in runs && runs[other].state == RunState.FAILED && runs[other].updatedAt > runs[run].updatedAt))
  }

  lemma ShelteredExactly(runs: map<string, RunStatus>, run: string)
    ensures Sheltered(runs, run) <==> Kept(runs, run)
  {
    if run in runs { ActiveExactly(runs[run].state); }
  }

  /** A failure that begins recovery leaves its run sheltered. */
  lemma RecoveringSheltered(runs: map<string, RunStatus>, persisted: map<string, seq<RunState>>,
                            runs': map<string, RunStatus>, persisted': map<string, seq<RunState>>, run: string)
    requires CanFail(runs, run) && Handled(runs, persisted, runs', persisted', run, true)
    ensures Sheltered(runs', run)
  {
    ShelteredExactly(runs', run);
    var path := FailurePath(runs[run].state, true);
    assert path[|path| - 1] == RECOVERING;
  }

  /** So the pass that follows such a failure leaves the checkpoint the run recovers
      from, exactly when fewer than keepCommittedPerRun with a manifest are newer. */
  lemma RecoveringKeepsItsPoint(sha: Bytes -> Digest, payloads: set<Bytes>, runs: map<string, RunStatus>, persisted: map<string, seq<RunState>>,
                                runs': map<string, RunStatus>, persisted': map<string, seq<RunState>>, w: Protocol.World, items: seq<Item>,
                                cfg: RetentionConfig, now: int, run: string, c: string, w': Protocol.World)
    requires CanFail(runs, run) && Handled(runs, persisted, runs', persisted', run, true)
    requires Protocol.Inv(sha, payloads, Protocol.Entries, w) && Lists(w.bucket, items)
    requires Protocol.RecoversFrom(w.checkpoints, run, c) && Protocol.Restorable(sha, w.bucket, run, c)
    requires Protocol.PruneStep(w, Plan(items, cfg, runs', now), w')
    ensures Protocol.RecoversFrom(w'.checkpoints, run, c) && Protocol.Restorable(sha, w'.bucket, run, c)
            <==> CommitRank(items, (run, c)) < cfg.keepCommittedPerRun
  {
    RecoveringSheltered(runs, persisted, runs', persisted', run);
    RecoveryPoint.RecoveryPointKept(sha, payloads, w, items, cfg, runs', now, run, c, w');
  }

  // ------------------------------------------------------------------
  // Recency, object by object

  /** Some object here is newer than every object there. */
  ghost predicate Newer(items: seq<Item>, here: Item -> bool, there: Item -> bool)
  {
    exists x :: x in items && here(x) && forall y :: y in items && there(y) ==> y.modified < x.modified
  }

  /** An object here is listed before any object there. */
  ghost predicate MetFirst(items: seq<Item>, here: Item -> bool, there: Item -> bool)
  {
    exists i :: 0 <= i < |items| && here(items[i]) && forall j :: 0 <= j <= i ==> !there(items[j])
  }

  /** Newer, or as new and listed first. */
  ghost predicate Precedes(items: seq<Item>, here: Item -> bool, there: Item -> bool)
  {
    Newer(items, here, there) || (!Newer(items, there, here) && MetFirst(items, here, there))
  }

  lemma NewestListed(items: seq<Item>, p: Item -> bool) returns (x: Item)
    requires Filter(items, p) != []
    ensures x in items && p(x) && x.modified == Latest(Filter(items, p))
    ensures forall y :: y in items && p(y) ==> y.modified <= x.modified
  {
    var all := Filter(items, p);
    var time := Latest(all);
    x :| x in all && x.modified == time;
  }

  lemma NewerExactly(items: seq<Item>, p: Item -> bool, q: Item -> bool)
    requires Filter(items, p) != [] && Filter(items, q) != []
    ensures Latest(Filter(items, q)) < Latest(Filter(items, p)) <==> Newer(items, p, q)
  {
    var x := NewestListed(items, p);
    var y := NewestListed(items, q);
  }

  lemma MetFirstExactly(items: seq<Item>, p: Item -> bool, q: Item -> bool)
    requires First(items, p) < |items|
    ensures First(items, p) < First(items, q) <==> MetFirst(items, p, q)
  {
    var i, j := First(items, p), First(items, q);
    assert IsFirst(items, p, i) && IsFirst(items, q, j);
    if i < j { assert p(items[i]) && forall k :: 0 <= k <= i ==> !q(items[k]); }
  }

  /** The order by recency is that of the objects. */
  lemma AheadExactly<T(!new)>(items: seq<Item>, newest: T -> int, at: T -> nat, a: T, b: T, p: Item -> bool, q: Item -> bool)
    requires newest(b) < newest(a) <==> Newer(items, p, q)
    requires newest(a) < newest(b) <==> Newer(items, q, p)
    requires at(a) < at(b) <==> MetFirst(items, p, q)
    ensures Ahead(newest, at, a, b) <==> Precedes(items, p, q)
  {
  }

  /** The runs with objects that precede this one. */
  ghost function RunsBefore(items: seq<Item>, run: string): set<string>
  {
    set other | other in Runs(items) && Precedes(items, InRun(other), InRun(run))
  }

  lemma NewerRun(items: seq<Item>, other: string, run: string)
    requires other in Runs(items) && run in Runs(items)
    ensures RunNewest(items)(run) < RunNewest(items)(other) <==> Newer(items, InRun(other), InRun(run))
  {
    RunListed(items, other);
    RunListed(items, run);
    NewerExactly(items, InRun(other), InRun(run));
  }

  lemma MetRun(items: seq<Item>, other: string, run: string)
    requires other in Runs(items)
    ensures RunFirst(items)(other) < RunFirst(items)(run) <==> MetFirst(items, InRun(other), InRun(run))
  {
    RunListed(items, other);
    MetFirstExactly(items, InRun(other), InRun(run));
  }

  lemma AheadOfRun(items: seq<Item>, other: string, run: string)
    requires other in Runs(items) && run in Runs(items)
    ensures Ahead(RunNewest(items), RunFirst(items), other, run) <==> Precedes(items, InRun(other), InRun(run))
  {
    NewerRun(items, other, run);
    NewerRun(items, run, other);
    MetRun(items, other, run);
    AheadExactly(items, RunNewest(items), RunFirst(items), other, run, InRun(other), InRun(run));
  }

  lemma RunRankExactly(items: seq<Item>, run: string)
    requires run in Runs(items)
    ensures RunRank(items, run) == |RunsBefore(items, run)|
  {
    var ahead := set other | other in Runs(items) && Ahead(RunNewest(items), RunFirst(items), other, run);
    forall other ensures other in ahead <==> other in RunsBefore(items, run) {
      if other in Runs(items) { AheadOfRun(items, other, run); }
    }
    assert ahead == RunsBefore(items, run);
  }

  /** The groups of the run with an object whose key ends in /_manifest.json. */
  ghost function Manifested(items: seq<Item>, run: string): set<Id>
  {
    set id | id in Groups(items) && id.0 == run
             && exists x :: x in items && IdOf(x) == Some(id) && |x.key| >= 15 && x.key[|x.key| - 15..] == "/_manifest.json"
  }

  lemma ManifestExactly(items: seq<Item>, id: Id)
    ensures HasManifest(items, id) <==>
            exists x :: x in items && IdOf(x) == Some(id) && |x.key| >= 15 && x.key[|x.key| - 15..] == "/_manifest.json"
  {
    assert |"/_manifest.json"| == 15;
    if HasManifest(items, id) {
      var x :| x in Filter(items, InGroup(id)) && IsManifest(x);
      assert x in items && IdOf(x) == Some(id) && x.key[|x.key| - 15..] == "/_manifest.json";
    }
    if x :| x in items && IdOf(x) == Some(id) && |x.key| >= 15 && x.key[|x.key| - 15..] == "/_manifest.json" {
      assert x in Filter(items, InGroup(id)) && IsManifest(x);
    }
  }

  /** The manifest-bearing groups of the run that precede this one. */
  ghost function CommittedBefore(items: seq<Item>, id: Id): set<Id>
  {
    set other | other in Manifested(items, id.0) && Precedes(items, InGroup(other), InGroup(id))
  }

  lemma NewerGroup(items: seq<Item>, other: Id, id: Id)
    requires other in Groups(items) && id in Groups(items)
    ensures GroupNewest(items)(id) < GroupNewest(items)(other) <==> Newer(items, InGroup(other), InGroup(id))
  {
    GroupListed(items, other);
    GroupListed(items, id);
    NewerExactly(items, InGroup(other), InGroup(id));
  }

  lemma MetGroup(items: seq<Item>, other: Id, id: Id)
    requires other in Groups(items)
    ensures GroupFirst(items)(other) < GroupFirst(items)(id) <==> MetFirst(items, InGroup(other), InGroup(id))
  {
    GroupListed(items, other);
    MetFirstExactly(items, InGroup(other), InGroup(id));
  }

  lemma AheadOfGroup(items: seq<Item>, other: Id, id: Id)
    requires other in Groups(items) && id in Groups(items)
    ensures Ahead(GroupNewest(items), GroupFirst(items), other, id) <==> Precedes(items, InGroup(other), InGroup(id))
  {
    NewerGroup(items, other, id);
    NewerGroup(items, id, other);
    MetGroup(items, other, id);
    AheadExactly(items, GroupNewest(items), GroupFirst(items), other, id, InGroup(other), InGroup(id));
  }

  lemma CommitRankExactly(items: seq<Item>, id: Id)
    requires id in Groups(items)
    ensures CommitRank(items, id) == |CommittedBefore(items, id)|
  {
    var ahead := set other | other in Committed(items, id.0) && Ahead(GroupNewest(items), GroupFirst(items), other, id);
    forall other ensures other in ahead <==> other in CommittedBefore(items, id) {
      ManifestExactly(items, other);
      if other in Groups(items) { AheadOfGroup(items, other, id); }
    }
    assert ahead == CommittedBefore(items, id);
  }

  lemma RetainedExactly(items: seq<Item>, cfg: RetentionConfig, runs: map<string, RunStatus>, run: string)
    requires run in Runs(items)
    ensures Retained(items, cfg, runs, run) <==> Kept(runs, run) || |RunsBefore(items, run)| < cfg.keepRuns
  {
    RunRankExactly(items, run);
    ShelteredExactly(runs, run);
  }

  /** The group is beyond the newest with a manifest, or has none and is old. */
  ghost predicate Superfluous(items: seq<Item>, cfg: RetentionConfig, now: int, id: Id)
  {
    if id in Manifested(items, id.0) then |CommittedBefore(items, id)| >= cfg.keepCommittedPerRun
    else forall x :: x in items && IdOf(x) == Some(id) ==> x.modified < now - cfg.orphanGraceSeconds
  }

  lemma ExpendableExactly(items: seq<Item>, cfg: RetentionConfig, now: int, id: Id)
    requires id in Groups(items)
    ensures Expendable(items, cfg, now, id) <==> Superfluous(items, cfg, now, id)
  {
    CommitRankExactly(items, id);
    ManifestExactly(items, id);
    LateExactly(items, id, now - cfg.orphanGraceSeconds);
  }

  /** A group goes, exactly: with all of its run, when no failure could end the
      run, it is no newest failure, and keepRuns runs precede it; else with a
      manifest when keepCommittedPerRun manifest-bearing groups of the run precede
      it, and without one when all its objects are older than the grace period. */
  lemma PlanExactly(items: seq<Item>, cfg: RetentionConfig, runs: map<string, RunStatus>, now: int, id: Id)
    ensures id in Plan(items, cfg, runs, now) <==>
            && (exists x :: x in items && IdOf(x) == Some(id))
            && ((!Kept(runs, id.0) && |RunsBefore(items, id.0)| >= cfg.keepRuns) || Superfluous(items, cfg, now, id))
  {
    if x :| x in items && IdOf(x) == Some(id) {
      var i :| 0 <= i < |items| && items[i] == x;
      assert IdOf(items[i]).value in Groups(items);
    }
    if id in Groups(items) {
      assert id.0 in Runs(items);
      RetainedExactly(items, cfg, runs, id.0);
      ExpendableExactly(items, cfg, now, id);
    }
  }

  lemma LateExactly(items: seq<Item>, id: Id, cutoff: int)
    requires id in Groups(items)
    ensures Latest(Filter(items, InGroup(id))) < cutoff <==> forall x :: x in items && IdOf(x) == Some(id) ==> x.modified < cutoff
  {
    GroupListed(items, id);
    var of := Filter(items, InGroup(id));
    forall x ensures x in of <==> x in items && IdOf(x) == Some(id) { }
  }
}
