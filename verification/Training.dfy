/** The training loop of rank 0 against the checkpoint protocol: how much work a
    crash can cost. */
module Training {
  import opened Sequences
  import opened ObjectKeys
  import opened ObjectStore
  import opened RunStates
  import opened Coordinator
  import opened Protocol

  /** Where the worker is; a save goes through trigger, upload and commit. */
  datatype Phase =
    | Down
    | Working(step: nat)
    | Saving(step: nat)
    | Triggered(step: nat, ckpt: string)
    | Uploaded(step: nat, ckpt: string)

  datatype System = System(w: World, phase: Phase)

  /** What happens next: something else in the system, or a move of the worker.
      The worker may also die during a request that still takes effect. */
  datatype Move =
    | Other(a: Action)
    | Load
    | Train
    | Stop
    | TriggerSave(ckpt: string, dies: bool)
    | UploadSave(shard: string, rank: int, body: Bytes, uuid: Uuid, ending: Ending, dies: bool)
    | CommitSave(picked: string, ending: Ending, dies: bool)
    | Crash

  ghost predicate IsCommitted(checkpoints: map<string, Checkpoint>, run: string, c: string)
  {
    c in checkpoints && checkpoints[c].runId == run && checkpoints[c].state.COMMITTED?
  }

  /** Some committed checkpoint of the run is at this step or later; a run that
      starts afresh is at step zero. */
  ghost predicate SavedTo(checkpoints: map<string, Checkpoint>, run: string, step: int)
  {
    step <= 0 || CommittedFrom(checkpoints, run, step)
  }

  ghost predicate CommittedFrom(checkpoints: map<string, Checkpoint>, run: string, step: int)
  {
    exists c :: IsCommitted(checkpoints, run, c) && checkpoints[c].step >= step
  }

  /** The step a restarted worker continues from. */
  ghost predicate ResumesAt(checkpoints: map<string, Checkpoint>, run: string, step: int)
  {
    if exists c :: IsCommitted(checkpoints, run, c) then exists c :: RecoversFrom(checkpoints, run, c) && checkpoints[c].step == step
    else step == 0
  }

  /** The rest of the system does anything but upload to or commit this run's
      checkpoints, which is rank 0's part. */
  ghost predicate NotOurs(a: Action, run: string)
  {
    match a
    case Trigger(r, step, _) => r == run ==> step >= 0
    case Upload(r, _, _, _, _, _, _) => r != run
    case Commit(r, _, _) => r != run
    case _ => true
  }

  /** Retention keeps the run's open checkpoints and the one it would recover from
      (TrainingRetention says exactly when a pass does). */
  ghost predicate Allowable(w: World, a: Action, run: string)
  {
    NotOurs(a, run) && (a.Prune? ==> KeepsProgress(w.checkpoints, a.plan, run))
  }

  ghost predicate KeepsProgress(checkpoints: map<string, Checkpoint>, plan: set<(string, string)>, run: string)
  {
    && (forall c :: c in checkpoints && checkpoints[c].runId == run && Open(checkpoints[c].state) ==> (run, c) !in plan)
    && ((exists c :: IsCommitted(checkpoints, run, c)) ==> exists c :: RecoversFrom(checkpoints, run, c) && (run, c) !in plan)
  }

  ghost predicate Step(sha: Bytes -> Digest, run: string, interval: nat, s: System, m: Move, s': System)
    requires interval > 0
  {
    Moves(sha, run, interval, s, m, s') && (m.Other? ==> Allowable(s.w, m.a, run))
  }

  ghost predicate Moves(sha: Bytes -> Digest, run: string, interval: nat, s: System, m: Move, s': System)
    requires interval > 0
  {
    match m
    case Other(a) => Next(sha, s.w, a, s'.w) && NotOurs(a, run) && s'.phase == s.phase
                     && (a.Trigger? && s.phase.Triggered? ==> a.ckpt != s.phase.ckpt)
    case Load => s.phase.Down? && s'.phase.Working? && ResumesAt(s.w.checkpoints, run, s'.phase.step) && s'.w == s.w
    case Train => s.phase.Working? && s'.w == s.w
                  && s'.phase == if (s.phase.step + 1) % interval == 0 then Saving(s.phase.step + 1) else Working(s.phase.step + 1)
    case Stop => s.phase.Working? && s' == s.(phase := Saving(s.phase.step))
    case TriggerSave(ckpt, dies) => s.phase.Saving? && TriggerStep(s.w, run, s.phase.step, ckpt, s'.w)
                                    && s'.phase == if dies then Down else Triggered(s.phase.step, ckpt)
    case UploadSave(shard, rank, body, uuid, ending, dies) =>
      && s.phase.Triggered? && UploadStep(sha, s.w, run, s.phase.ckpt, shard, rank, body, uuid, ending, s'.w)
      && s'.phase == if dies || !ending.Succeeds? then Down else Uploaded(s.phase.step, s.phase.ckpt)
    case CommitSave(picked, ending, dies) =>
      && s.phase.Uploaded? && CommitStep(s.w, run, picked, ending, s'.w)
      && s'.phase == if dies || !ending.Succeeds? then Down else Working(s.phase.step)
    case Crash => s' == s.(phase := Down)
  }

  /** What is safe at each point of the loop. */
  ghost predicate Safe(run: string, interval: nat, s: System)
    requires interval > 0
  {
    && (forall c :: c in s.w.checkpoints && s.w.checkpoints[c].runId == run ==> s.w.checkpoints[c].step >= 0)
    && match s.phase
       case Down => true
       case Working(step) => SavedTo(s.w.checkpoints, run, step - step % interval)
       case Saving(step) => SavedTo(s.w.checkpoints, run, step - interval)
       case Triggered(step, ckpt) => SavedTo(s.w.checkpoints, run, step - interval) && Own(s.w.checkpoints, run, step, ckpt)
       case Uploaded(step, ckpt) => SavedTo(s.w.checkpoints, run, step - interval) && Ready(s.w.checkpoints, run, step, ckpt)
  }

  /** While its record is there, it is this run's, of this step, and not
      committed. */
  ghost predicate Own(checkpoints: map<string, Checkpoint>, run: string, step: int, ckpt: string)
  {
    ckpt in checkpoints ==>
      checkpoints[ckpt].runId == run && checkpoints[ckpt].step == step && !checkpoints[ckpt].state.COMMITTED?
  }

  /** A commit would pick this checkpoint or a later step, or nothing at all. */
  ghost predicate Ready(checkpoints: map<string, Checkpoint>, run: string, step: int, ckpt: string)
  {
    || (ckpt in checkpoints && checkpoints[ckpt].runId == run && checkpoints[ckpt].step == step && checkpoints[ckpt].state.IN_PROGRESS?)
    || (forall c :: c in checkpoints && checkpoints[c].runId == run ==> !checkpoints[c].state.IN_PROGRESS?)
  }

  // ------------------------------------------------------------------
  // What others do to this run's checkpoints

  /** The run's committed checkpoints stay, and its open ones stay what they are
      or all fail together. */
  ghost predicate Undisturbed(checkpoints: map<string, Checkpoint>, checkpoints': map<string, Checkpoint>, run: string)
  {
    && (forall n :: SavedTo(checkpoints, run, n) ==> SavedTo(checkpoints', run, n))
    && (forall c :: c in checkpoints' && checkpoints'[c].runId == run ==>
                      if c in checkpoints then checkpoints[c].runId == run && checkpoints'[c].step == checkpoints[c].step
                                               && (checkpoints'[c].state == checkpoints[c].state || checkpoints'[c].state.FAILED?)
                      else checkpoints'[c].state.PENDING? && checkpoints'[c].step >= 0)
    && (forall c :: c in checkpoints && c in checkpoints' ==> checkpoints'[c].runId == checkpoints[c].runId)
    && (|| (forall c :: c in checkpoints && checkpoints[c].runId == run && checkpoints[c].state.IN_PROGRESS? ==>
                          c in checkpoints' && checkpoints'[c] == checkpoints[c])
        || (forall c :: c in checkpoints' && checkpoints'[c].runId == run ==> !checkpoints'[c].state.IN_PROGRESS?))
  }

  lemma SavedStays(checkpoints: map<string, Checkpoint>, checkpoints': map<string, Checkpoint>, run: string)
    requires forall c :: IsCommitted(checkpoints, run, c) ==> IsCommitted(checkpoints', run, c) && checkpoints'[c].step == checkpoints[c].step
    ensures forall n :: SavedTo(checkpoints, run, n) ==> SavedTo(checkpoints', run, n)
  {
    forall n | SavedTo(checkpoints, run, n) ensures SavedTo(checkpoints', run, n) {
      if n > 0 {
        var c :| IsCommitted(checkpoints, run, c) && checkpoints[c].step >= n;
        assert IsCommitted(checkpoints', run, c);
      }
    }
  }

  lemma PruneKeepsSaved(checkpoints: map<string, Checkpoint>, plan: set<(string, string)>, run: string)
    requires KeepsProgress(checkpoints, plan, run)
    ensures forall n :: SavedTo(checkpoints, run, n) ==> SavedTo(WithoutRecords(checkpoints, plan), run, n)
  {
    var left := WithoutRecords(checkpoints, plan);
    forall n | SavedTo(checkpoints, run, n) ensures SavedTo(left, run, n) {
      if n > 0 {
        var c :| IsCommitted(checkpoints, run, c) && checkpoints[c].step >= n;
        var newest :| RecoversFrom(checkpoints, run, newest) && (run, newest) !in plan;
        assert IsCommitted(left, run, newest);
      }
    }
  }

  lemma OthersUndisturbed(sha: Bytes -> Digest, w: World, a: Action, w': World, run: string)
    requires Next(sha, w, a, w') && Allowable(w, a, run)
    ensures Undisturbed(w.checkpoints, w'.checkpoints, run)
  {
    match a
    case Upload(r, ckpt, shard, rank, body, uuid, ending) =>
      UploadIsLocal(sha, w, r, ckpt, shard, rank, body, uuid, ending, w');
      UploadKeepsOwner(sha, w, r, ckpt, shard, rank, body, uuid, ending, w');
      SavedStays(w.checkpoints, w'.checkpoints, run);
    case Commit(r, ckpt, ending) =>
      CommitStepIsLocal(w, r, ckpt, ending, w');
      CommitKeepsOwner(w, r, ckpt, ending, w');
      SavedStays(w.checkpoints, w'.checkpoints, run);
    case Prune(plan) => PruneKeepsSaved(w.checkpoints, plan, run);
    case _ => SavedStays(w.checkpoints, w'.checkpoints, run);
  }

  lemma UploadKeepsOwner(sha: Bytes -> Digest, w: World, run: string, ckpt: string, shard: string, rank: int, body: Bytes,
                         uuid: Uuid, ending: Ending, w': World)
    requires UploadStep(sha, w, run, ckpt, shard, rank, body, uuid, ending, w')
    ensures w'.checkpoints.Keys == w.checkpoints.Keys && w.checkpoints[ckpt].runId == run
    ensures w'.checkpoints[ckpt].runId == run && w'.checkpoints[ckpt].step == w.checkpoints[ckpt].step
    ensures ending.Succeeds? ==> w'.checkpoints[ckpt].state.IN_PROGRESS?
  {
  }

  lemma CommitKeepsOwner(w: World, run: string, ckpt: string, ending: Ending, w': World)
    requires CommitStep(w, run, ckpt, ending, w')
    ensures Picked(w.checkpoints, run, ckpt) && w'.checkpoints.Keys == w.checkpoints.Keys
    ensures w'.checkpoints[ckpt].runId == run && w'.checkpoints[ckpt].step == w.checkpoints[ckpt].step
    ensures ending.Succeeds? ==> w'.checkpoints[ckpt].state.COMMITTED?
  {
  }

  // ------------------------------------------------------------------
  // What the worker's own requests do

  lemma TriggerSaves(w: World, run: string, step: nat, ckpt: string, w': World)
    requires TriggerStep(w, run, step, ckpt, w')
    ensures forall n :: SavedTo(w.checkpoints, run, n) ==> SavedTo(w'.checkpoints, run, n)
    ensures Own(w'.checkpoints, run, step, ckpt)
  {
    SavedStays(w.checkpoints, w'.checkpoints, run);
  }

  lemma UploadSaves(sha: Bytes -> Digest, w: World, run: string, step: nat, ckpt: string, shard: string, rank: int, body: Bytes,
                    uuid: Uuid, ending: Ending, w': World)
    requires Own(w.checkpoints, run, step, ckpt) && UploadStep(sha, w, run, ckpt, shard, rank, body, uuid, ending, w')
    ensures forall n :: SavedTo(w.checkpoints, run, n) ==> SavedTo(w'.checkpoints, run, n)
    ensures ending.Succeeds? ==> Ready(w'.checkpoints, run, step, ckpt)
  {
    UploadIsLocal(sha, w, run, ckpt, shard, rank, body, uuid, ending, w');
    UploadKeepsOwner(sha, w, run, ckpt, shard, rank, body, uuid, ending, w');
    SavedStays(w.checkpoints, w'.checkpoints, run);
  }

  /** A commit takes the checkpoint it picked, whichever that is, up to at least
      the step just uploaded. */
  lemma CommitSaves(w: World, run: string, step: nat, ckpt: string, picked: string, ending: Ending, w': World)
    requires Ready(w.checkpoints, run, step, ckpt) && CommitStep(w, run, picked, ending, w')
    ensures forall n :: SavedTo(w.checkpoints, run, n) ==> SavedTo(w'.checkpoints, run, n)
    ensures ending.Succeeds? ==> IsCommitted(w'.checkpoints, run, picked) && w'.checkpoints[picked].step >= step
  {
    CommitStepIsLocal(w, run, picked, ending, w');
    CommitKeepsOwner(w, run, picked, ending, w');
    SavedStays(w.checkpoints, w'.checkpoints, run);
  }

  lemma OwnStepsStay(sha: Bytes -> Digest, run: string, interval: nat, s: System, m: Move, s': System)
    requires interval > 0 && Safe(run, interval, s) && Step(sha, run, interval, s, m, s')
    ensures forall c :: c in s'.w.checkpoints && s'.w.checkpoints[c].runId == run ==> s'.w.checkpoints[c].step >= 0
  {
    match m
    case Other(a) => OthersUndisturbed(sha, s.w, a, s'.w, run);
    case UploadSave(shard, rank, body, uuid, ending, _) =>
      UploadIsLocal(sha, s.w, run, s.phase.ckpt, shard, rank, body, uuid, ending, s'.w);
      UploadKeepsOwner(sha, s.w, run, s.phase.ckpt, shard, rank, body, uuid, ending, s'.w);
    case CommitSave(picked, ending, _) =>
      CommitStepIsLocal(s.w, run, picked, ending, s'.w);
      CommitKeepsOwner(s.w, run, picked, ending, s'.w);
    case _ =>
  }

  /** The highest committed step never decreases. */
  lemma SavedNeverDecreases(sha: Bytes -> Digest, run: string, interval: nat, s: System, m: Move, s': System)
    requires interval > 0 && Safe(run, interval, s) && Step(sha, run, interval, s, m, s')
    ensures forall n :: SavedTo(s.w.checkpoints, run, n) ==> SavedTo(s'.w.checkpoints, run, n)
  {
    match m
    case Other(a) => OthersUndisturbed(sha, s.w, a, s'.w, run);
    case TriggerSave(ckpt, _) => TriggerSaves(s.w, run, s.phase.step, ckpt, s'.w);
    case UploadSave(shard, rank, body, uuid, ending, _) =>
      UploadSaves(sha, s.w, run, s.phase.step, s.phase.ckpt, shard, rank, body, uuid, ending, s'.w);
    case CommitSave(picked, ending, _) => CommitSaves(s.w, run, s.phase.step, s.phase.ckpt, picked, ending, s'.w);
    case _ =>
  }

  lemma SavedBelow(checkpoints: map<string, Checkpoint>, run: string, high: int, low: int)
    requires SavedTo(checkpoints, run, high) && low <= high
    ensures SavedTo(checkpoints, run, low)
  {
    if low > 0 {
      var c :| IsCommitted(checkpoints, run, c) && checkpoints[c].step >= high;
    }
  }

  lemma ResumedIsSaved(checkpoints: map<string, Checkpoint>, run: string, step: nat)
    requires ResumesAt(checkpoints, run, step)
    ensures SavedTo(checkpoints, run, step)
    ensures forall n :: SavedTo(checkpoints, run, n) ==> n <= step
  {
    forall n | SavedTo(checkpoints, run, n) ensures n <= step {
      if n > 0 {
        var c :| IsCommitted(checkpoints, run, c) && checkpoints[c].step >= n;
        var newest :| RecoversFrom(checkpoints, run, newest) && checkpoints[newest].step == step;
      }
    }
    if step > 0 {
      var newest :| RecoversFrom(checkpoints, run, newest) && checkpoints[newest].step == step;
      assert IsCommitted(checkpoints, run, newest);
    }
  }

  /** Between two multiples of the interval the last one below moves only when a
      multiple is reached. */
  lemma LastMultiple(step: nat, interval: nat)
    requires interval > 0
    ensures (step + 1) % interval != 0 ==> step + 1 - (step + 1) % interval == step - step % interval
    ensures (step + 1) % interval == 0 ==> step + 1 - interval == step - step % interval
  {
    var q, r := step / interval, step % interval;
    assert step == interval * q + r;
    if r + 1 == interval {
      assert step + 1 == interval * (q + 1);
      ModUnique(step + 1, interval, q + 1, 0);
    } else {
      ModUnique(step + 1, interval, q, r + 1);
    }
  }

  lemma MultipleOf(m: nat, d: int)
    ensures d >= 1 ==> m * d >= m
    ensures d <= -1 ==> m * d <= -(m as int)
  {
    assert m * d == m * (d - 1) + m == m * (d + 1) - m;
  }

  lemma ModUnique(x: nat, m: nat, q: nat, r: nat)
    requires m > 0 && r < m && x == m * q + r
    ensures x % m == r
  {
    var d := q - x / m;
    assert x == m * (x / m) + x % m;
    assert m * d == x % m - r by { assert m * d == m * q - m * (x / m); }
    MultipleOf(m, d);
  }

  lemma ReadyKept(checkpoints: map<string, Checkpoint>, checkpoints': map<string, Checkpoint>, run: string, step: nat, ckpt: string)
    requires Undisturbed(checkpoints, checkpoints', run) && Ready(checkpoints, run, step, ckpt)
    ensures Ready(checkpoints', run, step, ckpt)
  {
  }

  lemma OwnKept(sha: Bytes -> Digest, w: World, a: Action, w': World, run: string, step: nat, ckpt: string)
    requires Next(sha, w, a, w') && Allowable(w, a, run) && Own(w.checkpoints, run, step, ckpt)
    requires a.Trigger? ==> a.ckpt != ckpt
    ensures Own(w'.checkpoints, run, step, ckpt)
  {
    OthersUndisturbed(sha, w, a, w', run);
    NothingNew(sha, w, a, w', ckpt);
  }

  lemma NothingNew(sha: Bytes -> Digest, w: World, a: Action, w': World, ckpt: string)
    requires Next(sha, w, a, w') && (a.Trigger? ==> a.ckpt != ckpt)
    ensures ckpt in w'.checkpoints ==> ckpt in w.checkpoints
  {
    match a
    case Upload(r, c, shard, rank, body, uuid, ending) => UploadKeepsOwner(sha, w, r, c, shard, rank, body, uuid, ending, w');
    case Commit(r, c, ending) => CommitKeepsOwner(w, r, c, ending, w');
    case _ =>
  }

  lemma OtherSafe(sha: Bytes -> Digest, run: string, interval: nat, s: System, a: Action, s': System)
    requires interval > 0 && Safe(run, interval, s) && Step(sha, run, interval, s, Other(a), s')
    ensures Safe(run, interval, s')
  {
    OthersUndisturbed(sha, s.w, a, s'.w, run);
    match s.phase
    case Triggered(step, ckpt) => OwnKept(sha, s.w, a, s'.w, run, step, ckpt);
    case Uploaded(step, ckpt) => ReadyKept(s.w.checkpoints, s'.w.checkpoints, run, step, ckpt);
    case _ =>
  }

  lemma StepSafe(sha: Bytes -> Digest, run: string, interval: nat, s: System, m: Move, s': System)
    requires interval > 0 && Safe(run, interval, s) && Step(sha, run, interval, s, m, s')
    ensures Safe(run, interval, s')
  {
    OwnStepsStay(sha, run, interval, s, m, s');
    SavedNeverDecreases(sha, run, interval, s, m, s');
    match m
    case Other(a) => OtherSafe(sha, run, interval, s, a, s');
    case Load =>
      ResumedIsSaved(s.w.checkpoints, run, s'.phase.step);
      SavedBelow(s.w.checkpoints, run, s'.phase.step, s'.phase.step - s'.phase.step % interval);
    case Train => LastMultiple(s.phase.step, interval);
    case Stop => SavedBelow(s.w.checkpoints, run, s.phase.step - s.phase.step % interval, s.phase.step - interval);
    case TriggerSave(ckpt, _) => TriggerSaves(s.w, run, s.phase.step, ckpt, s'.w);
    case UploadSave(shard, rank, body, uuid, ending, _) =>
      UploadSaves(sha, s.w, run, s.phase.step, s.phase.ckpt, shard, rank, body, uuid, ending, s'.w);
    case CommitSave(picked, ending, dies) => CommittedSafe(sha, run, interval, s, picked, ending, dies, s');
    case Crash =>
  }

  lemma CommittedSafe(sha: Bytes -> Digest, run: string, interval: nat, s: System, picked: string, ending: Ending, dies: bool, s': System)
    requires interval > 0 && Safe(run, interval, s) && Step(sha, run, interval, s, CommitSave(picked, ending, dies), s')
    ensures s'.phase.Working? ==> SavedTo(s'.w.checkpoints, run, s'.phase.step - s'.phase.step % interval)
  {
    CommitSaves(s.w, run, s.phase.step, s.phase.ckpt, picked, ending, s'.w);
    if ending.Succeeds? {
      assert IsCommitted(s'.w.checkpoints, run, picked);
    }
  }

  // ------------------------------------------------------------------
  // Whole runs

  ghost predicate Behaviour(sha: Bytes -> Digest, run: string, interval: nat, states: seq<System>, moves: seq<Move>)
    requires interval > 0
  {
    && |states| == |moves| + 1 && states[0] == System(EMPTY_WORLD, Down)
    && forall i :: 0 <= i < |moves| ==> StepAt(sha, run, interval, states, moves, i)
  }

  ghost predicate StepAt(sha: Bytes -> Digest, run: string, interval: nat, states: seq<System>, moves: seq<Move>, i: nat)
    requires interval > 0 && i < |moves| < |states|
  {
    Step(sha, run, interval, states[i], moves[i], states[i + 1])
  }

  lemma {:induction false} AlwaysSafe(sha: Bytes -> Digest, run: string, interval: nat, states: seq<System>, moves: seq<Move>, i: nat)
    requires interval > 0 && Behaviour(sha, run, interval, states, moves) && i < |states|
    ensures Safe(run, interval, states[i])
  {
    if i > 0 {
      AlwaysSafe(sha, run, interval, states, moves, i - 1);
      assert StepAt(sha, run, interval, states, moves, i - 1);
      StepSafe(sha, run, interval, states[i - 1], moves[i - 1], states[i]);
    }
  }

  lemma SavedNext(sha: Bytes -> Digest, run: string, interval: nat, states: seq<System>, moves: seq<Move>, i: nat, step: int)
    requires interval > 0 && Behaviour(sha, run, interval, states, moves) && i < |moves|
    requires SavedTo(states[i].w.checkpoints, run, step)
    ensures SavedTo(states[i + 1].w.checkpoints, run, step)
  {
    AlwaysSafe(sha, run, interval, states, moves, i);
    assert StepAt(sha, run, interval, states, moves, i);
    SavedNeverDecreases(sha, run, interval, states[i], moves[i], states[i + 1]);
  }

  lemma {:induction false} SavedForGood(sha: Bytes -> Digest, run: string, interval: nat, states: seq<System>, moves: seq<Move>,
                                        i: nat, j: nat, step: int)
    requires interval > 0 && Behaviour(sha, run, interval, states, moves) && i <= j < |states|
    requires SavedTo(states[i].w.checkpoints, run, step)
    ensures SavedTo(states[j].w.checkpoints, run, step)
    decreases j - i
  {
    if i < j {
      SavedNext(sha, run, interval, states, moves, i, step);
      SavedForGood(sha, run, interval, states, moves, i + 1, j, step);
    }
  }

  /** The step a worker that is up has reached. */
  function StepOf(p: Phase): nat { if p.Down? then 0 else p.step }

  /** Bounded lost work: wherever the worker was at step s, in training or in
      the middle of a save, whenever it is next restarted it resumes at an r with
      s - r <= interval. */
  lemma BoundedLostWork(sha: Bytes -> Digest, run: string, interval: nat, states: seq<System>, moves: seq<Move>, i: nat, j: nat)
    requires interval > 0 && Behaviour(sha, run, interval, states, moves) && i <= j < |moves|
    requires !states[i].phase.Down? && moves[j].Load?
    ensures states[j + 1].phase.Working? && StepOf(states[i].phase) - StepOf(states[j + 1].phase) <= interval
  {
    var s := states[i].phase.step;
    AlwaysSafe(sha, run, interval, states, moves, i);
    if states[i].phase.Working? {
      SavedBelow(states[i].w.checkpoints, run, s - s % interval, s - interval);
    }
    SavedForGood(sha, run, interval, states, moves, i, j, s - interval);
    assert StepAt(sha, run, interval, states, moves, j);
    ResumedIsSaved(states[j].w.checkpoints, run, states[j + 1].phase.step);
  }

  /** A save that is reported successful has left a committed checkpoint of at
      least the saved step, and from then on no restart resumes below it. */
  lemma SavedStepIsKept(sha: Bytes -> Digest, run: string, interval: nat, states: seq<System>, moves: seq<Move>, i: nat, j: nat)
    requires interval > 0 && Behaviour(sha, run, interval, states, moves) && i < j < |moves|
    requires moves[i].CommitSave? && states[i + 1].phase.Working? && moves[j].Load?
    ensures CommittedFrom(states[i + 1].w.checkpoints, run, StepOf(states[i].phase))
    ensures StepOf(states[i + 1].phase) == StepOf(states[i].phase) <= StepOf(states[j + 1].phase)
  {
    AlwaysSafe(sha, run, interval, states, moves, i);
    assert StepAt(sha, run, interval, states, moves, i);
    CommitSaves(states[i].w, run, states[i].phase.step, states[i].phase.ckpt, moves[i].picked, moves[i].ending, states[i + 1].w);
    assert IsCommitted(states[i + 1].w.checkpoints, run, moves[i].picked);
    SavedForGood(sha, run, interval, states, moves, i + 1, j, states[i].phase.step);
    assert StepAt(sha, run, interval, states, moves, j);
    ResumedIsSaved(states[j].w.checkpoints, run, states[j + 1].phase.step);
  }
}
