/** What one worker does by itself, move by move: the trail of a training process
    between two outside events. */
module TrainingWalk {
  import opened Sequences
  import opened ObjectKeys
  import opened Coordinator
  import opened Protocol
  import opened Training

  datatype Trail = Trail(states: seq<System>, moves: seq<Move>)
  {
    ghost function Last(): System
      requires states != []
    {
      states[|states| - 1]
    }
  }

  /** Each state is reached from the one before by a move of the worker itself. */
  ghost predicate Walk(sha: Bytes -> Digest, run: string, interval: nat, t: Trail)
    requires interval > 0
  {
    |t.states| == |t.moves| + 1 && forall i :: 0 <= i < |t.moves| ==> WalkAt(sha, run, interval, t, i)
  }

  ghost predicate WalkAt(sha: Bytes -> Digest, run: string, interval: nat, t: Trail, i: nat)
    requires interval > 0 && i < |t.moves| && |t.states| == |t.moves| + 1
  {
    OwnMove(sha, run, interval, t.states[i], t.moves[i], t.states[i + 1])
  }

  ghost predicate OwnMove(sha: Bytes -> Digest, run: string, interval: nat, s: System, m: Move, s': System)
    requires interval > 0
  {
    !m.Other? && !m.Load? && Moves(sha, run, interval, s, m, s')
  }

  function Begin(s: System): Trail { Trail([s], []) }

  function Then(t: Trail, m: Move, s': System): Trail { Trail(t.states + [s'], t.moves + [m]) }

  lemma BeginWalks(sha: Bytes -> Digest, run: string, interval: nat, s: System)
    requires interval > 0
    ensures Walk(sha, run, interval, Begin(s)) && Begin(s).states[0] == s && Begin(s).Last() == s
  {
  }

  lemma ThenWalks(sha: Bytes -> Digest, run: string, interval: nat, t: Trail, m: Move, s': System)
    requires interval > 0 && Walk(sha, run, interval, t) && OwnMove(sha, run, interval, t.Last(), m, s')
    ensures Walk(sha, run, interval, Then(t, m, s')) && Then(t, m, s').states[0] == t.states[0] && Then(t, m, s').Last() == s'
  {
    var more := Then(t, m, s');
    forall i | 0 <= i < |more.moves| ensures WalkAt(sha, run, interval, more, i) {
      if i < |t.moves| { assert WalkAt(sha, run, interval, t, i); }
    }
  }

  /** One trail after another that begins where it ends. */
  function Joined(t: Trail, u: Trail): Trail
    requires u.states != []
  {
    Trail(t.states + u.states[1..], t.moves + u.moves)
  }

  lemma JoinedWalks(sha: Bytes -> Digest, run: string, interval: nat, t: Trail, u: Trail)
    requires interval > 0 && Walk(sha, run, interval, t) && Walk(sha, run, interval, u) && u.states[0] == t.Last()
    ensures Walk(sha, run, interval, Joined(t, u)) && Joined(t, u).states[0] == t.states[0] && Joined(t, u).Last() == u.Last()
  {
    var all, n := Joined(t, u), |t.moves|;
    assert forall i :: 0 <= i <= |u.moves| ==> all.states[n + i] == u.states[i];
    forall i | 0 <= i < |all.moves| ensures WalkAt(sha, run, interval, all, i) {
      if i < n {
        assert WalkAt(sha, run, interval, t, i);
      } else {
        assert WalkAt(sha, run, interval, u, i - n);
        assert all.states[n + (i - n) + 1] == u.states[i - n + 1];
      }
    }
  }

  // ------------------------------------------------------------------
  // What every walk keeps

  lemma {:induction false} WalkSafe(sha: Bytes -> Digest, run: string, interval: nat, t: Trail, n: nat)
    requires interval > 0 && Walk(sha, run, interval, t) && Safe(run, interval, t.states[0]) && n < |t.states|
    ensures Safe(run, interval, t.states[n])
  {
    if n > 0 {
      WalkSafe(sha, run, interval, t, n - 1);
      assert WalkAt(sha, run, interval, t, n - 1);
      StepSafe(sha, run, interval, t.states[n - 1], t.moves[n - 1], t.states[n]);
    }
  }

  /** Move i commits the save of this step. */
  ghost predicate Saves(t: Trail, i: nat, step: nat)
    requires |t.states| == |t.moves| + 1 && i < |t.moves|
  {
    && t.moves[i].CommitSave? && t.moves[i].ending.Succeeds?
    && t.states[i].phase.Uploaded? && t.states[i].phase.step == step && t.states[i + 1].phase == Working(step)
  }

  /** The worker has left this step behind. */
  predicate Passed(p: Phase, step: nat)
  {
    match p
    case Down => false
    case Working(now) => step <= now
    case Saving(now) => step < now
    case Triggered(now, _) => step < now
    case Uploaded(now, _) => step < now
  }

  /** No multiple of the interval is left behind without having been triggered,
      uploaded and committed. */
  lemma {:induction false} NoMultiplePassed(sha: Bytes -> Digest, run: string, interval: nat, t: Trail, n: nat, step: nat) returns (i: nat)
    requires interval > 0 && Walk(sha, run, interval, t) && n < |t.states|
    requires t.states[0].phase.Working? && t.states[0].phase.step < step && step % interval == 0
    requires Passed(t.states[n].phase, step)
    ensures i < n && Saves(t, i, step)
  {
    assert n > 0;
    assert WalkAt(sha, run, interval, t, n - 1);
    if t.moves[n - 1].CommitSave? && t.states[n - 1].phase.step == step {
      i := n - 1;
    } else {
      i := NoMultiplePassed(sha, run, interval, t, n - 1, step);
    }
  }

  /** And so, from then on, it is in a committed checkpoint, whatever else the
      worker goes on to do. */
  lemma PassedIsSaved(sha: Bytes -> Digest, run: string, interval: nat, t: Trail, n: nat, step: nat)
    requires interval > 0 && Walk(sha, run, interval, t) && n < |t.states| && Safe(run, interval, t.states[0])
    requires t.states[0].phase.Working? && t.states[0].phase.step < step && step % interval == 0
    requires Passed(t.states[n].phase, step)
    ensures CommittedFrom(t.states[n].w.checkpoints, run, step)
  {
    var i := NoMultiplePassed(sha, run, interval, t, n, step);
    WalkSafe(sha, run, interval, t, i);
    assert WalkAt(sha, run, interval, t, i);
    CommitSaves(t.states[i].w, run, step, t.states[i].phase.ckpt, t.moves[i].picked, t.moves[i].ending, t.states[i + 1].w);
    assert IsCommitted(t.states[i + 1].w.checkpoints, run, t.moves[i].picked);
    WalkKeepsSaved(sha, run, interval, t, i + 1, n, step);
  }

  lemma {:induction false} WalkKeepsSaved(sha: Bytes -> Digest, run: string, interval: nat, t: Trail, i: nat, n: nat, step: int)
    requires interval > 0 && Walk(sha, run, interval, t) && Safe(run, interval, t.states[0]) && i <= n < |t.states|
    requires SavedTo(t.states[i].w.checkpoints, run, step)
    ensures SavedTo(t.states[n].w.checkpoints, run, step)
    decreases n
  {
    if i < n {
      WalkKeepsSaved(sha, run, interval, t, i, n - 1, step);
      WalkSafe(sha, run, interval, t, n - 1);
      assert WalkAt(sha, run, interval, t, n - 1);
      SavedNeverDecreases(sha, run, interval, t.states[n - 1], t.moves[n - 1], t.states[n]);
    }
  }

  /** A worker that dies anywhere on its way resumes within one interval. */
  lemma CrashLosesInterval(sha: Bytes -> Digest, run: string, interval: nat, t: Trail, n: nat, resumed: nat)
    requires interval > 0 && Walk(sha, run, interval, t) && n < |t.states| && Safe(run, interval, t.states[0])
    requires !t.states[n].phase.Down? && ResumesAt(t.states[n].w.checkpoints, run, resumed)
    ensures StepOf(t.states[n].phase) - resumed <= interval
  {
    WalkSafe(sha, run, interval, t, n);
    var step := t.states[n].phase.step;
    if t.states[n].phase.Working? { SavedBelow(t.states[n].w.checkpoints, run, step - step % interval, step - interval); }
    ResumedIsSaved(t.states[n].w.checkpoints, run, resumed);
  }
}
