/** When a commit moves its run on, and a run of the system in which it commits
    the checkpoint and answers with a conflict all the same. */
module CommitConflict {
  import opened Sequences
  import opened ObjectKeys
  import opened ObjectStore
  import opened RunStates
  import opened Coordinator
  import opened DataPlane
  import opened Protocol
  import opened RecoveryPointLost

  /** A successful commit marks its checkpoint COMMITTED in any state of the run;
      the run is moved exactly when it was CHECKPOINTING, and then to RUNNING. */
  lemma MovesOnExactly(w: World, run: string, ckpt: string, w': World)
    requires CommitStep(w, run, ckpt, Succeeds, w') && run in w.runs
    ensures w'.checkpoints[ckpt].state.COMMITTED?
    ensures w'.runs != w.runs <==> w.runs[run] == CHECKPOINTING
    ensures w'.runs == if w.runs[run] == CHECKPOINTING then w.runs[run := RUNNING] else w.runs
  {
    if w.runs[run] == CHECKPOINTING { assert w'.runs[run] == RUNNING; }
  }

  /** Trigger, upload, resume from CHECKPOINTING, commit. */
  function ResumedActions(c: Case): (actions: seq<Action>)
    ensures |actions| == 6
  {
    Actions(c)[..4] + [ChangeRun(c.run, RUNNING), Commit(c.run, c.first, Succeeds)]
  }

  function ResumedStates(c: Case): (states: seq<World>)
    ensures |states| == 7
  {
    States(c)[..5] + [States(c)[4].(runs := map[c.run := RUNNING]), States(c)[5]]
  }

  ghost predicate ResumedMove(c: Case, i: nat)
    requires i < 6
  {
    Next(c.sha, ResumedStates(c)[i], ResumedActions(c)[i], ResumedStates(c)[i + 1]) && InPlay({c.body}, ResumedActions(c)[i])
  }

  lemma SameBeginning(c: Case, i: nat)
    requires Proper(c) && i < 4
    ensures ResumedMove(c, i)
  {
    AllMoves(c, i);
    assert ResumedStates(c)[i] == States(c)[i] && ResumedStates(c)[i + 1] == States(c)[i + 1];
    assert ResumedActions(c)[i] == Actions(c)[i];
  }

  lemma ResumeMoves(c: Case)
    requires Proper(c)
    ensures ResumedMove(c, 4)
  {
    assert ResumedStates(c)[4] == States(c)[4];
    assert States(c)[4].runs == map[c.run := CHECKPOINTING];
  }

  lemma CommitMoves(c: Case)
    requires Proper(c)
    ensures ResumedMove(c, 5)
  {
    KindsDisjoint(c.run, c.first, c.shard, c.uuid, Digits(c.sha(c.body)), c.run, c.first, c.shard);
    var w, w' := ResumedStates(c)[5], ResumedStates(c)[6];
    assert CommitVia(w, c.run, c.first, Succeeds, Stored2(c), w');
  }

  lemma Connected(c: Case, states: seq<World>, actions: seq<Action>)
    requires states == ResumedStates(c) && actions == ResumedActions(c) && states[0] == EMPTY_WORLD
    requires forall i :: 0 <= i < 6 ==> ResumedMove(c, i)
    ensures Behaviour(c.sha, {c.body}, states, actions)
  {
    forall i | 0 <= i < |actions| ensures InPlay({c.body}, actions[i]) && Next(c.sha, states[i], actions[i], states[i + 1]) {
      assert ResumedMove(c, i);
    }
  }

  /** The last commit is answered with 409: its run is RUNNING and stays so, and
      yet the checkpoint is COMMITTED. */
  lemma CommittedWithConflict(c: Case)
    requires Proper(c)
    ensures Behaviour(c.sha, {c.body}, ResumedStates(c), ResumedActions(c))
    ensures var w, w' := ResumedStates(c)[5], ResumedStates(c)[6];
            && CommitStep(w, c.run, c.first, Succeeds, w')
            && w.runs[c.run] == RUNNING && RunState.COMMITTED !in Allowed(w.runs[c.run]) && w'.runs == w.runs
            && w'.checkpoints[c.first].state.COMMITTED?
  {
    forall i | 0 <= i < 6 ensures ResumedMove(c, i) {
      if i < 4 { SameBeginning(c, i); } else if i == 4 { ResumeMoves(c); } else { CommitMoves(c); }
    }
    assert ResumedStates(c)[0] == States(c)[0];
    Connected(c, ResumedStates(c), ResumedActions(c));
    assert ResumedMove(c, 5);
  }
}
