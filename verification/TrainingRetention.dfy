/** Training while retention passes run: when a pass keeps what bounded lost work
    rests on, and that bound for passes as they are planned. */
module TrainingRetention {
  import opened Sequences
  import opened ObjectKeys
  import opened ObjectStore
  import opened Coordinator
  import opened Protocol
  import opened Listings
  import opened Retention
  import opened Training
  import RecoveryPoint
  import ControlPlane

  /** What is in the bucket of an open checkpoint has a manifest among the newest,
      or was written to within the grace period. */
  ghost predicate Fresh(items: seq<Item>, cfg: RetentionConfig, now: int, id: Id)
  {
    id in Groups(items) ==>
      if HasManifest(items, id) then CommitRank(items, id) < cfg.keepCommittedPerRun
      else Latest(Filter(items, InGroup(id))) >= now - cfg.orphanGraceSeconds
  }

  /** The run's open checkpoints are fresh, and one that recovery may select is
      among the newest with a manifest. */
  ghost predicate Spared(w: World, items: seq<Item>, cfg: RetentionConfig, now: int, run: string)
  {
    && (forall c :: c in w.checkpoints && w.checkpoints[c].runId == run && Open(w.checkpoints[c].state) ==> Fresh(items, cfg, now, (run, c)))
    && ((exists c :: IsCommitted(w.checkpoints, run, c)) ==>
          exists c :: RecoversFrom(w.checkpoints, run, c) && CommitRank(items, (run, c)) < cfg.keepCommittedPerRun)
  }

  lemma FreshIsKept(items: seq<Item>, cfg: RetentionConfig, runs: map<string, RunStatus>, now: int, id: Id)
    requires Sheltered(runs, id.0)
    ensures Fresh(items, cfg, now, id) <==> id !in Plan(items, cfg, runs, now)
  {
  }

  /** For an active run or one tied for the newest failure, a pass keeps its open
      checkpoints and its recovery point, exactly when they are spared. */
  lemma PlanKeepsProgressExactly(sha: Bytes -> Digest, payloads: set<Bytes>, w: World, items: seq<Item>, cfg: RetentionConfig,
                                 runs: map<string, RunStatus>, now: int, run: string)
    requires Inv(sha, payloads, Entries, w) && Lists(w.bucket, items) && Sheltered(runs, run)
    ensures KeepsProgress(w.checkpoints, Plan(items, cfg, runs, now), run) <==> Spared(w, items, cfg, now, run)
  {
    var plan := Plan(items, cfg, runs, now);
    forall c ensures Fresh(items, cfg, now, (run, c)) <==> (run, c) !in plan {
      FreshIsKept(items, cfg, runs, now, (run, c));
    }
    forall c | RecoversFrom(w.checkpoints, run, c) ensures CommitRank(items, (run, c)) < cfg.keepCommittedPerRun <==> (run, c) !in plan {
      RecoveryPoint.CommittedIsListed(sha, payloads, w, items, c);
      RecoveryPoint.CommittedPlanned(items, cfg, runs, now, (run, c));
    }
  }

  // ------------------------------------------------------------------
  // Whole runs with retention

  /** A pass over a complete listing, with the run records as they are, that
      shelters the run and spares its progress. */
  ghost predicate SparingPass(w: World, plan: set<(string, string)>, run: string)
  {
    exists items, cfg, runs, now :: PassOver(w, items, cfg, runs, now, run) && plan == Plan(items, cfg, runs, now)
  }

  ghost predicate PassOver(w: World, items: seq<Item>, cfg: RetentionConfig, runs: map<string, RunStatus>, now: int, run: string)
  {
    && Lists(w.bucket, items) && ControlPlane.StatesOf(runs) == w.runs
    && Sheltered(runs, run) && Spared(w, items, cfg, now, run)
  }

  ghost predicate PlannedStep(sha: Bytes -> Digest, payloads: set<Bytes>, run: string, interval: nat, s: System, m: Move, s': System)
    requires interval > 0
  {
    && Moves(sha, run, interval, s, m, s') && BodyInPlay(payloads, m)
    && (m.Other? && m.a.Prune? ==> SparingPass(s.w, m.a.plan, run))
  }

  ghost predicate BodyInPlay(payloads: set<Bytes>, m: Move)
  {
    (m.Other? ==> InPlay(payloads, m.a)) && (m.UploadSave? ==> m.body in payloads)
  }

  ghost predicate PlannedBehaviour(sha: Bytes -> Digest, payloads: set<Bytes>, run: string, interval: nat, states: seq<System>, moves: seq<Move>)
    requires interval > 0
  {
    && |states| == |moves| + 1 && states[0] == System(EMPTY_WORLD, Down)
    && forall i :: 0 <= i < |moves| ==> PlannedAt(sha, payloads, run, interval, states, moves, i)
  }

  ghost predicate PlannedAt(sha: Bytes -> Digest, payloads: set<Bytes>, run: string, interval: nat, states: seq<System>, moves: seq<Move>, i: nat)
    requires interval > 0 && i < |moves| < |states|
  {
    PlannedStep(sha, payloads, run, interval, states[i], moves[i], states[i + 1])
  }

  /** Every move leaves the world alone or is a step of the protocol. */
  lemma MoveKeepsInv(sha: Bytes -> Digest, payloads: set<Bytes>, run: string, interval: nat, s: System, m: Move, s': System)
    requires interval > 0 && Moves(sha, run, interval, s, m, s') && BodyInPlay(payloads, m)
    requires Inv(sha, payloads, Entries, s.w) && Distinguishes(sha, payloads)
    ensures Inv(sha, payloads, Entries, s'.w)
  {
    match m
    case Other(a) => StepKeeps(sha, payloads, Entries, s.w, a, s'.w);
    case TriggerSave(ckpt, _) => StepKeeps(sha, payloads, Entries, s.w, Trigger(run, s.phase.step, ckpt), s'.w);
    case UploadSave(shard, rank, body, uuid, ending, _) =>
      StepKeeps(sha, payloads, Entries, s.w, Action.Upload(run, s.phase.ckpt, shard, rank, body, uuid, ending), s'.w);
    case CommitSave(picked, ending, _) => StepKeeps(sha, payloads, Entries, s.w, Commit(run, picked, ending), s'.w);
    case _ =>
  }

  lemma {:induction false} WorldSound(sha: Bytes -> Digest, payloads: set<Bytes>, run: string, interval: nat, states: seq<System>,
                                      moves: seq<Move>, i: nat)
    requires interval > 0 && PlannedBehaviour(sha, payloads, run, interval, states, moves) && Distinguishes(sha, payloads)
    requires i < |states|
    ensures Inv(sha, payloads, Entries, states[i].w)
  {
    if i > 0 {
      WorldSound(sha, payloads, run, interval, states, moves, i - 1);
      assert PlannedAt(sha, payloads, run, interval, states, moves, i - 1);
      MoveKeepsInv(sha, payloads, run, interval, states[i - 1], moves[i - 1], states[i]);
    }
  }

  lemma PlannedIsStep(sha: Bytes -> Digest, payloads: set<Bytes>, run: string, interval: nat, s: System, m: Move, s': System)
    requires interval > 0 && PlannedStep(sha, payloads, run, interval, s, m, s') && Inv(sha, payloads, Entries, s.w)
    ensures Step(sha, run, interval, s, m, s')
  {
    if m.Other? && m.a.Prune? {
      var items, cfg, runs, now :| PassOver(s.w, items, cfg, runs, now, run) && m.a.plan == Plan(items, cfg, runs, now);
      PlanKeepsProgressExactly(sha, payloads, s.w, items, cfg, runs, now, run);
    }
  }

  lemma PlannedIsBehaviour(sha: Bytes -> Digest, payloads: set<Bytes>, run: string, interval: nat, states: seq<System>, moves: seq<Move>)
    requires interval > 0 && PlannedBehaviour(sha, payloads, run, interval, states, moves) && Distinguishes(sha, payloads)
    ensures Training.Behaviour(sha, run, interval, states, moves)
  {
    forall i | 0 <= i < |moves| ensures StepAt(sha, run, interval, states, moves, i) {
      WorldSound(sha, payloads, run, interval, states, moves, i);
      assert PlannedAt(sha, payloads, run, interval, states, moves, i);
      PlannedIsStep(sha, payloads, run, interval, states[i], moves[i], states[i + 1]);
    }
  }

  /** Bounded lost work with retention at work: over every run in which passes
      shelter the run and spare its progress, a restart costs at most one interval,
      and no restart resumes below a save that was reported successful. */
  lemma BoundedLostWorkWithRetention(sha: Bytes -> Digest, payloads: set<Bytes>, run: string, interval: nat, states: seq<System>,
                                     moves: seq<Move>, i: nat, j: nat)
    requires interval > 0 && PlannedBehaviour(sha, payloads, run, interval, states, moves) && Distinguishes(sha, payloads)
    requires i < j < |moves| && moves[j].Load?
    ensures !states[i].phase.Down? ==> StepOf(states[i].phase) - StepOf(states[j + 1].phase) <= interval
    ensures moves[i].CommitSave? && states[i + 1].phase.Working? ==> StepOf(states[i].phase) <= StepOf(states[j + 1].phase)
  {
    PlannedIsBehaviour(sha, payloads, run, interval, states, moves);
    if !states[i].phase.Down? { BoundedLostWork(sha, run, interval, states, moves, i, j); }
    if moves[i].CommitSave? && states[i + 1].phase.Working? { SavedStepIsKept(sha, run, interval, states, moves, i, j); }
  }
}
