/** The slot that lets one worker-group restart be in flight: many schedulers
    and restart threads, interleaved at their lock-protected sections. */
module RestartSlot {
  import opened Sequences

  const RETRY_SECONDS: int := 30
  const ATTEMPTS: nat := 3

  datatype Slot = Slot(inFlight: Option<string>, lastAttempt: map<string, int>)

  datatype Answer = Claimed | Occupied(same: bool) | Cooling

  function LastAttempt(slot: Slot, run: string): int
  {
    if run in slot.lastAttempt then slot.lastAttempt[run] else 0
  }

  /** The first locked section: who may claim the slot, and when. */
  function Ask(slot: Slot, run: string, now: int): Answer
  {
    if slot.inFlight.Some? then Occupied(run == slot.inFlight.value)
    else if now - LastAttempt(slot, run) < RETRY_SECONDS then Cooling
    else Claimed
  }

  function Take(slot: Slot, run: string, now: int): Slot
  {
    Slot(Some(run), slot.lastAttempt[run := now])
  }

  /** The locked section that ends a restart; only a success keeps the time of
      the attempt. */
  function Release(slot: Slot, run: string, succeeded: bool): Slot
  {
    Slot(if slot.inFlight == Some(run) then None else slot.inFlight,
         if succeeded then slot.lastAttempt else slot.lastAttempt - {run})
  }

  /** Where a scheduler call, and the thread it starts, has got to. */
  datatype Phase =
    | Marking(run: string)
    | MarkingFailed(run: string)
    | Starting(run: string)
    | StartFailed(run: string)
    | Restarting(run: string, attempt: nat)
    | Finishing(run: string, succeeded: bool)
    | Refused(result: bool)
    | Ended(released: bool)

  /** The run whose restart this process carries. */
  function Holds(p: Phase): Option<string>
  {
    match p
    case Marking(run) => Some(run)
    case MarkingFailed(run) => Some(run)
    case Starting(run) => Some(run)
    case StartFailed(run) => Some(run)
    case Restarting(run, _) => Some(run)
    case Finishing(run, _) => Some(run)
    case Refused(_) => None
    case Ended(_) => None
  }

  datatype State = State(slot: Slot, procs: map<nat, Phase>, now: int)

  datatype Event =
    | Call(p: nat, run: string)
    | Move(p: nat, ok: bool)
    | Resume(run: string)
    | Tick(elapsed: nat)

  /** The next phase of a process, when the outside world answers ok or not. */
  function Moved(p: Phase, ok: bool): Phase
    requires Holds(p).Some?
  {
    match p
    case Marking(run) => if ok then Starting(run) else MarkingFailed(run)
    case MarkingFailed(run) => Ended(false)
    case Starting(run) => if ok then Restarting(run, 1) else StartFailed(run)
    case StartFailed(run) => Ended(false)
    case Restarting(run, attempt) =>
      if ok then Finishing(run, true)
      else if attempt < ATTEMPTS then Restarting(run, attempt + 1)
      else Finishing(run, false)
    case Finishing(run, succeeded) => Ended(succeeded)
  }

  /** Phases whose next move is the releasing locked section. */
  predicate Releases(p: Phase) { p.MarkingFailed? || p.StartFailed? || p.Finishing? }

  function Called(answer: Answer, run: string): Phase
  {
    match answer
    case Claimed => Marking(run)
    case Occupied(same) => Refused(same)
    case Cooling => Refused(true)
  }

  ghost predicate Step(s: State, e: Event, s': State)
  {
    match e
    case Call(p, run) =>
      && p !in s.procs
      && var answer := Ask(s.slot, run, s.now);
         s' == s.(procs := s.procs[p := Called(answer, run)],
                  slot := if answer.Claimed? then Take(s.slot, run, s.now) else s.slot)
    case Move(p, ok) =>
      && p in s.procs && Holds(s.procs[p]).Some?
      && s' == s.(procs := s.procs[p := Moved(s.procs[p], ok)],
                  slot := if Releases(s.procs[p])
                          then Release(s.slot, s.procs[p].run, s.procs[p].Finishing? && s.procs[p].succeeded) else s.slot)
    case Resume(run) => s' == s.(slot := s.slot.(lastAttempt := s.slot.lastAttempt - {run}))
    case Tick(elapsed) => s' == s.(now := s.now + elapsed)
  }

  /** The slot names a run exactly while one process carries its restart. */
  ghost predicate Safe(s: State)
  {
    && (forall p :: p in s.procs && Holds(s.procs[p]).Some? ==> s.slot.inFlight == Holds(s.procs[p]))
    && (forall p, q :: p in s.procs && q in s.procs && Holds(s.procs[p]).Some? && Holds(s.procs[q]).Some? ==> p == q)
    && (s.slot.inFlight.Some? ==> exists p :: p in s.procs && Holds(s.procs[p]) == s.slot.inFlight)
    && (forall p :: p in s.procs && s.procs[p].Restarting? ==> 1 <= s.procs[p].attempt <= ATTEMPTS)
  }

  lemma StepSafe(s: State, e: Event, s': State)
    requires Safe(s) && Step(s, e, s')
    ensures Safe(s')
  {
    match e
    case Call(p, run) =>
      if s'.slot.inFlight.Some? {
        if s.slot.inFlight.Some? {
          var q :| q in s.procs && Holds(s.procs[q]) == s.slot.inFlight;
          assert Holds(s'.procs[q]) == s'.slot.inFlight;
        } else {
          assert Holds(s'.procs[p]) == s'.slot.inFlight;
        }
      }
    case Move(p, ok) =>
      assert s.slot.inFlight == Holds(s.procs[p]);
      if !Releases(s.procs[p]) {
        assert Holds(s'.procs[p]) == s'.slot.inFlight;
      }
    case Resume(run) =>
      if s.slot.inFlight.Some? {
        var q :| q in s.procs && Holds(s.procs[q]) == s.slot.inFlight;
        assert Holds(s'.procs[q]) == s'.slot.inFlight;
      }
    case Tick(elapsed) =>
  }

  ghost predicate Behaviour(states: seq<State>, events: seq<Event>)
  {
    && |states| == |events| + 1
    && states[0].slot == Slot(None, map[]) && states[0].procs == map[]
    && forall i :: 0 <= i < |events| ==> Step(states[i], events[i], states[i + 1])
  }

  /** However schedulers and threads interleave, at most one restart is in
      flight, and the slot names its run. */
  lemma {:induction false} AlwaysSafe(states: seq<State>, events: seq<Event>, i: nat)
    requires Behaviour(states, events) && i < |states|
    ensures Safe(states[i])
  {
    if i > 0 {
      AlwaysSafe(states, events, i - 1);
      assert Step(states[i - 1], events[i - 1], states[i - 1 + 1]);
      StepSafe(states[i - 1], events[i - 1], states[i]);
    }
  }

  // ------------------------------------------------------------------
  // Every path frees the slot

  /** At most this many moves are left until the process lets go. */
  function MovesLeft(p: Phase): nat
  {
    match p
    case Marking(_) => 6
    case MarkingFailed(_) => 1
    case Starting(_) => 5
    case StartFailed(_) => 1
    case Restarting(_, attempt) => if attempt <= ATTEMPTS then ATTEMPTS - attempt + 2 else 2
    case Finishing(_, _) => 1
    case Refused(_) => 0
    case Ended(_) => 0
  }

  /** The moves process p makes in a stretch of events. */
  function Moves(events: seq<Event>, p: nat): nat
  {
    if events == [] then 0
    else Moves(events[..|events| - 1], p) + (if events[|events| - 1].Move? && events[|events| - 1].p == p then 1 else 0)
  }

  /** From any state on, a process that has the slot lets go of it with its
      sixth move at the latest, whatever the others do in between; as long as it
      has the slot it can move. */
  lemma {:induction false} SlotFreedInTime(states: seq<State>, events: seq<Event>, i: nat, j: nat, p: nat)
    requires Behaviour(states, events) && i <= j < |states| && p in states[i].procs
    ensures p in states[j].procs
    ensures MovesLeft(states[j].procs[p]) + Moves(events[i..j], p) <= MovesLeft(states[i].procs[p]) <= 6
    ensures Holds(states[j].procs[p]).Some? <==> MovesLeft(states[j].procs[p]) > 0
  {
    if j == i {
      assert events[i..j] == [];
    } else {
      SlotFreedInTime(states, events, i, j - 1, p);
      assert Step(states[j - 1], events[j - 1], states[j - 1 + 1]);
      assert events[i..j][..j - 1 - i] == events[i..j - 1] && events[i..j][j - 1 - i] == events[j - 1];
      AlwaysSafe(states, events, j - 1);
    }
  }

  /** The move that ends a restart frees the slot. */
  lemma EndFrees(s: State, p: nat, ok: bool, s': State)
    requires Safe(s) && Step(s, Move(p, ok), s') && s'.procs[p].Ended?
    ensures s'.slot.inFlight == None && s.slot.inFlight == Some(s.procs[p].run)
    ensures s'.procs[p].released ==> s'.slot.lastAttempt == s.slot.lastAttempt
    ensures !s'.procs[p].released ==> s.procs[p].run !in s'.slot.lastAttempt
  {
  }

  /** After an unsuccessful end the next call for the run claims the slot again,
      without any waiting, exactly when the clock shows at least the retry
      interval: an attempt that is not on record counts as made at time zero. */
  lemma RetryAfterFailure(s: State, p: nat, ok: bool, s': State, now: int)
    requires Safe(s) && Step(s, Move(p, ok), s') && s'.procs[p] == Ended(false)
    ensures Ask(s'.slot, s.procs[p].run, now).Claimed? <==> now >= RETRY_SECONDS
    ensures now < RETRY_SECONDS ==> Called(Ask(s'.slot, s.procs[p].run, now), s.procs[p].run) == Refused(true)
  {
    EndFrees(s, p, ok, s');
  }

  /** After a success the run has to wait out the interval from its claim on,
      unless it is resumed first. */
  lemma RetryAfterSuccess(s: State, p: nat, ok: bool, s': State, now: int)
    requires Safe(s) && Step(s, Move(p, ok), s') && s'.procs[p] == Ended(true)
    ensures var run := s.procs[p].run;
            && (Ask(s'.slot, run, now).Claimed? <==> now >= LastAttempt(s.slot, run) + RETRY_SECONDS)
            && (Ask(s'.slot.(lastAttempt := s'.slot.lastAttempt - {run}), run, now).Claimed? <==> now >= RETRY_SECONDS)
  {
    EndFrees(s, p, ok, s');
  }

  /** What a call answers when it does not claim the slot: true when its own run
      is being restarted or was attempted within the interval, false when
      another run has the slot. */
  lemma AnswerMeans(s: State, p: nat, run: string, s': State)
    requires Safe(s) && Step(s, Call(p, run), s')
    ensures s'.procs[p] == Refused(false) <==> s.slot.inFlight.Some? && s.slot.inFlight != Some(run)
    ensures s'.procs[p] == Refused(true) <==>
            (exists q :: q in s.procs && Holds(s.procs[q]) == Some(run))
            || (s.slot.inFlight.None? && s.now - LastAttempt(s.slot, run) < RETRY_SECONDS)
    ensures s'.procs[p] == Marking(run) <==>
            (forall q :: q in s.procs ==> Holds(s.procs[q]).None?) && s.now - LastAttempt(s.slot, run) >= RETRY_SECONDS
  {
  }
}
