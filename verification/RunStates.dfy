/** The run state machine: its transition table, and what every path in the
    table has in common. */
module RunStates {

  datatype RunState = CREATED | RUNNING | CHECKPOINTING | COMMITTED | FAILED | RECOVERING | CANCELLED | COMPLETED

  /** VALID_TRANSITIONS. */
  function Allowed(state: RunState): (next: set<RunState>)
  {
    match state
    case CREATED => {RUNNING, CANCELLED}
    case RUNNING => {CHECKPOINTING, FAILED, CANCELLED, COMPLETED}
    case CHECKPOINTING => {COMMITTED, FAILED, RUNNING}
    case COMMITTED => {RUNNING, COMPLETED, FAILED}
    case FAILED => {RECOVERING, CANCELLED}
    case RECOVERING => {RUNNING, FAILED, CANCELLED}
    case CANCELLED => {}
    case COMPLETED => {}
  }

  predicate Terminal(state: RunState) { state == CANCELLED || state == COMPLETED }

  /** The same table by target: where each state can be entered from. */
  lemma EnteredFrom(state: RunState)
    ensures CREATED !in Allowed(state)
    ensures RUNNING in Allowed(state) <==> state in {CREATED, CHECKPOINTING, COMMITTED, RECOVERING}
    ensures CHECKPOINTING in Allowed(state) <==> state == RUNNING
    ensures COMMITTED in Allowed(state) <==> state == CHECKPOINTING
    ensures FAILED in Allowed(state) <==> state in {RUNNING, CHECKPOINTING, COMMITTED, RECOVERING}
    ensures RECOVERING in Allowed(state) <==> state == FAILED
    ensures CANCELLED in Allowed(state) <==> state in {CREATED, RUNNING, FAILED, RECOVERING}
    ensures COMPLETED in Allowed(state) <==> state in {RUNNING, COMMITTED}
    ensures Terminal(state) <==> Allowed(state) == {}
  {
    match state case _ =>
  }

  /** A sequence of states each reached from the one before it. */
  ghost predicate Path(states: seq<RunState>)
  {
    && states != []
    && forall i :: 0 <= i < |states| - 1 ==> Linked(states, i)
  }

  predicate Linked(states: seq<RunState>, i: nat)
    requires i < |states| - 1
  {
    states[i + 1] in Allowed(states[i])
  }

  lemma PathExtends(states: seq<RunState>, next: RunState)
    requires Path(states) && next in Allowed(states[|states| - 1])
    ensures Path(states + [next])
  {
    var all := states + [next];
    forall i | 0 <= i < |all| - 1 ensures Linked(all, i) {
      assert i < |states| - 1 ==> Linked(states, i);
    }
  }

  /** Nothing follows a terminal state. */
  lemma TerminalAbsorbs(states: seq<RunState>, i: nat)
    requires Path(states) && i < |states| && Terminal(states[i])
    ensures i == |states| - 1
  {
    assert i < |states| - 1 ==> Linked(states, i);
  }

  /** A run that has failed can run or complete again only after RECOVERING. */
  lemma RecoveringInBetween(states: seq<RunState>, i: nat, j: nat)
    requires Path(states) && i < j < |states|
    requires states[i] == FAILED && states[j] in {RUNNING, COMPLETED}
    ensures exists k :: i < k < j && states[k] == RECOVERING
  {
    assert Linked(states, i);
    if states[i + 1] == CANCELLED {
      TerminalAbsorbs(states, i + 1);
    }
    assert states[i + 1] == RECOVERING;
  }

  /** From one checkpoint attempt to the next the run passes through RUNNING. */
  lemma {:induction false} RunningBetweenCheckpoints(states: seq<RunState>, i: nat, j: nat)
    requires Path(states) && i < j < |states|
    requires states[i] == CHECKPOINTING && states[j] == CHECKPOINTING
    ensures exists k :: i < k < j && states[k] == RUNNING
  {
    assert Linked(states, j - 1);
    assert states[j - 1] == RUNNING;
  }

  class RunStateMachine {
    var state: RunState
    var history: seq<(RunState, RunState)>

    /** The states visited so far, first to current. */
    ghost function Trail(): (trail: seq<RunState>)
      reads this
      ensures |trail| == |history| + 1 && trail[|history|] == state
    {
      var steps := history;
      seq(|steps|, i requires 0 <= i < |steps| => steps[i].0) + [state]
    }

    /** The history is the list of steps of a path in the table. */
    ghost predicate Valid()
      reads this
    {
      && Path(Trail())
      && forall i :: 0 <= i < |history| ==> history[i] == (Trail()[i], Trail()[i + 1])
    }

    constructor (initial: RunState)
      ensures Valid() && state == initial && history == []
    {
      state, history := initial, [];
    }

    method Transition(target: RunState) returns (ok: bool)
      modifies this`state, this`history
      ensures old(Valid()) ==> Valid()
      ensures ok <==> target in Allowed(old(state))
      ensures ok ==> state == target && history == old(history) + [(old(state), target)]
      ensures !ok ==> state == old(state) && history == old(history)
    {
      ok := target in Allowed(state);
      if ok {
        ghost var trail := Trail();
        history := history + [(state, target)];
        state := target;
        assert Trail() == trail + [target];
        if Path(trail) { PathExtends(trail, target); }
      }
    }
  }
}
