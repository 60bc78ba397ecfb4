/** How the ranks of one generation agree on a run id over a shared file, with
    every rank interleaved with the others. */
module Rendezvous {
  import opened Sequences

  const POLLS: nat := 60

  /** What a lookup of a run id answers. */
  datatype Answer = Resumable | Ended | Missing | Failure

  datatype Leader =
    | Start
    | Checking(shared: string)
    | Creating
    | Created(run: string)
    | LeaderDone(run: string)
    | LeaderFailed

  datatype Follower =
    | Polling(polls: nat, lastSeen: string)
    | Looking(polls: nat, lastSeen: string, seen: string)
    | FollowerDone(run: string)
    | TimedOut

  /** The shared file's content (empty when there is none), the runs the control
      plane knows and whether each can be resumed, and the ranks. */
  datatype State = State(file: string, runs: map<string, bool>, leader: Leader, followers: map<nat, Follower>)

  /** What the control plane would truthfully answer. */
  function Truth(runs: map<string, bool>, run: string): Answer
  {
    if run !in runs then Missing else if runs[run] then Resumable else Ended
  }

  /** A lookup answers the truth, or fails. */
  predicate Answers(runs: map<string, bool>, run: string, answer: Answer)
  {
    answer == Truth(runs, run) || answer == Failure
  }

  datatype Event =
    | LeaderReads
    | LeaderHears(answer: Answer, resumed: bool)
    | LeaderCreates(run: string, ok: bool)
    | LeaderPublishes(ok: bool)
    | FollowerReads(k: nat)
    | FollowerHears(k: nat, answer: Answer)

  /** Rank 0 after the lookup of the old id. Only a resumable run is kept, and
      only if asking to resume it works; a failed lookup ends the attempt. */
  function Heard(shared: string, answer: Answer, resumed: bool): Leader
  {
    match answer
    case Resumable => if resumed then LeaderDone(shared) else LeaderFailed
    case Ended => Creating
    case Missing => Creating
    case Failure => LeaderFailed
  }

  /** One poll is over; the last one ends in a timeout. */
  function NextPoll(polls: nat, lastSeen: string): Follower
  {
    if polls + 1 < POLLS then Polling(polls + 1, lastSeen) else TimedOut
  }

  function FollowerAfter(f: Follower, answer: Answer): Follower
    requires f.Looking?
  {
    match answer
    case Resumable => FollowerDone(f.seen)
    case Ended => NextPoll(f.polls, f.seen)
    case Missing => NextPoll(f.polls, f.seen)
    case Failure => NextPoll(f.polls, f.lastSeen)
  }

  /** Which runs exist and can be resumed changes only by the new run. */
  ghost predicate Step(s: State, e: Event, s': State)
  {
    match e
    case LeaderReads => s.leader.Start? && s' == s.(leader := if s.file == "" then Creating else Checking(s.file))
    case LeaderHears(answer, resumed) =>
      s.leader.Checking? && Answers(s.runs, s.leader.shared, answer) && s' == s.(leader := Heard(s.leader.shared, answer, resumed))
    case LeaderCreates(run, ok) =>
      && s.leader.Creating? && run !in s.runs && run != s.file && run != ""
      && s' == if ok then s.(leader := Created(run), runs := s.runs[run := true]) else s.(leader := LeaderFailed)
    case LeaderPublishes(ok) =>
      && s.leader.Created?
      && s' == if ok then s.(leader := LeaderDone(s.leader.run), file := s.leader.run) else s.(leader := LeaderFailed)
    case FollowerReads(k) =>
      && k in s.followers && s.followers[k].Polling?
      && var f := s.followers[k];
         s' == s.(followers := s.followers[k := if s.file != "" && s.file != f.lastSeen then Looking(f.polls, f.lastSeen, s.file)
                                                else NextPoll(f.polls, f.lastSeen)])
    case FollowerHears(k, answer) =>
      && k in s.followers && s.followers[k].Looking? && Answers(s.runs, s.followers[k].seen, answer)
      && s' == s.(followers := s.followers[k := FollowerAfter(s.followers[k], answer)])
  }

  /** A generation begins: everyone starts over, on whatever the file holds. */
  ghost predicate Begins(s: State)
  {
    s.leader.Start? && forall k :: k in s.followers ==> s.followers[k] == Polling(0, "")
  }

  ghost predicate Generation(states: seq<State>, events: seq<Event>)
  {
    && |states| == |events| + 1 && Begins(states[0])
    && forall i :: 0 <= i < |events| ==> Step(states[i], events[i], states[i + 1])
  }

  /** The id every rank that returns returns: the earlier one if it can be
      resumed, else the one rank 0 has published, if it has. */
  function Agreed(first: State, s: State): Option<string>
  {
    if first.file != "" && Truth(first.runs, first.file) == Resumable then Some(first.file)
    else if s.leader.LeaderDone? then Some(s.leader.run)
    else None
  }

  ghost predicate LeaderFits(first: State, s: State)
  {
    var keeps := first.file != "" && Truth(first.runs, first.file) == Resumable;
    && (s.leader.Checking? ==> s.leader.shared == first.file && first.file != "")
    && (keeps ==> s.runs == first.runs && s.file == first.file
                  && !s.leader.Creating? && !s.leader.Created? && (s.leader.LeaderDone? ==> s.leader.run == first.file))
    && (s.file != first.file ==> s.leader.LeaderDone? && s.file == s.leader.run)
    && (s.leader.LeaderDone? && !keeps ==> s.file == s.leader.run)
    && (s.leader.Created? || s.leader.LeaderDone? ==> s.leader.run in s.runs && s.leader.run != "")
    && (forall run :: run in first.runs ==> run in s.runs && s.runs[run] == first.runs[run])
    && (!keeps && first.file != "" ==> first.file !in s.runs || !s.runs[first.file])
  }

  ghost predicate FollowerFits(first: State, s: State, f: Follower)
  {
    && (f.Looking? ==> f.seen != "" && (f.seen == first.file || (s.leader.LeaderDone? && f.seen == s.leader.run)))
    && (f.FollowerDone? ==> Agreed(first, s) == Some(f.run))
  }

  ghost predicate Fits(first: State, s: State)
  {
    LeaderFits(first, s) && forall k :: k in s.followers ==> FollowerFits(first, s, s.followers[k])
  }

  lemma StepFits(first: State, s: State, e: Event, s': State)
    requires Fits(first, s) && Step(s, e, s')
    ensures Fits(first, s')
  {
    forall k | k in s'.followers ensures FollowerFits(first, s', s'.followers[k]) {
      assert FollowerFits(first, s, s.followers[k]);
    }
  }

  lemma {:induction false} AlwaysFits(states: seq<State>, events: seq<Event>, i: nat)
    requires Generation(states, events) && i < |states|
    ensures Fits(states[0], states[i])
  {
    if i > 0 {
      AlwaysFits(states, events, i - 1);
      assert Step(states[i - 1], events[i - 1], states[i - 1 + 1]);
      StepFits(states[0], states[i - 1], events[i - 1], states[i]);
    }
  }

  /** The run ids returned so far. */
  ghost predicate Returned(s: State, run: string)
  {
    s.leader == LeaderDone(run) || exists k :: k in s.followers && s.followers[k] == FollowerDone(run)
  }

  lemma ReturnedIsAgreed(states: seq<State>, events: seq<Event>, i: nat, run: string)
    requires Generation(states, events) && i < |states| && Returned(states[i], run)
    ensures Agreed(states[0], states[i]) == Some(run)
  {
    AlwaysFits(states, events, i);
    if states[i].leader != LeaderDone(run) {
      var k :| k in states[i].followers && states[i].followers[k] == FollowerDone(run);
      assert FollowerFits(states[0], states[i], states[i].followers[k]);
    }
  }

  lemma {:induction false} AgreedStays(states: seq<State>, events: seq<Event>, i: nat, j: nat)
    requires Generation(states, events) && i <= j < |states| && Agreed(states[0], states[i]).Some?
    requires Returned(states[i], Agreed(states[0], states[i]).value)
    ensures Agreed(states[0], states[j]) == Agreed(states[0], states[i])
  {
    if i < j {
      AgreedStays(states, events, i, j - 1);
      AlwaysFits(states, events, j - 1);
      AlwaysFits(states, events, i);
      assert Step(states[j - 1], events[j - 1], states[j - 1 + 1]);
    }
  }

  /** All ranks that return, whenever they do, return the same run id. */
  lemma RanksAgree(states: seq<State>, events: seq<Event>, i: nat, j: nat, run: string, run': string)
    requires Generation(states, events) && i <= j < |states|
    requires Returned(states[i], run) && Returned(states[j], run')
    ensures run == run'
  {
    ReturnedIsAgreed(states, events, i, run);
    ReturnedIsAgreed(states, events, j, run');
    AgreedStays(states, events, i, j);
  }

  /** The shared id is replaced only when rank 0 was told that the old run is
      gone or over, or when there was no id. */
  lemma {:induction false} ReplacedOnlyIfOver(states: seq<State>, events: seq<Event>, i: nat)
    requires Generation(states, events) && i < |states| && states[i].file != states[0].file
    ensures states[0].file == "" || Truth(states[0].runs, states[0].file) != Resumable
    ensures forall j :: 0 <= j < i && events[j].LeaderHears? ==> events[j].answer.Ended? || events[j].answer.Missing?
  {
    AlwaysFits(states, events, i);
    forall j | 0 <= j < i && events[j].LeaderHears? ensures events[j].answer.Ended? || events[j].answer.Missing? {
      AlwaysFits(states, events, j);
      assert Step(states[j], events[j], states[j + 1]);
      if events[j].answer.Failure? { FailedForGood(states, events, j + 1, i); }
    }
  }

  /** Once rank 0 has failed, nothing more is published. */
  lemma {:induction false} FailedForGood(states: seq<State>, events: seq<Event>, i: nat, j: nat)
    requires Generation(states, events) && i <= j < |states| && states[i].leader.LeaderFailed?
    ensures states[j].leader.LeaderFailed? && states[j].file == states[i].file
  {
    if i < j {
      FailedForGood(states, events, i, j - 1);
      assert Step(states[j - 1], events[j - 1], states[j - 1 + 1]);
    }
  }

  /** A transient lookup error of rank 0 leaves the shared id as it is. */
  lemma ErrorKeepsShared(states: seq<State>, events: seq<Event>, i: nat, j: nat)
    requires Generation(states, events) && i < j < |states| && events[i].LeaderHears? && events[i].answer.Failure?
    ensures states[j].file == states[0].file && states[j].leader.LeaderFailed?
  {
    AlwaysFits(states, events, i);
    assert Step(states[i], events[i], states[i + 1]);
    FailedForGood(states, events, i + 1, j);
  }
}
