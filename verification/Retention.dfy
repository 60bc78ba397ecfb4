/** The retention pass: group the bucket by run and checkpoint, keep the runs
    and checkpoints worth keeping, delete the rest batch by batch, and then
    forget the deleted checkpoints' records. */
module Retention {
  import opened Sequences
  import opened ObjectKeys
  import opened ObjectStore
  import opened RunStates
  import opened Coordinator
  import opened Ranking
  import opened Listings
  import Protocol

  const BATCH: nat := 1000

  datatype RetentionConfig = RetentionConfig(keepCommittedPerRun: nat, keepRuns: nat, orphanGraceSeconds: nat)

  datatype RetentionResult = RetentionResult(checkpointsDeleted: nat, objectsDeleted: nat, bytesFreed: nat)

  // ------------------------------------------------------------------
  // What a pass plans

  predicate Active(state: RunState)
  {
    state in {RUNNING, CHECKPOINTING, RunState.COMMITTED, RECOVERING}
  }

  /** Failed, and no failed run was updated later. */
  ghost predicate NewestFailed(runs: map<string, RunStatus>, run: string)
  {
    && run in runs && runs[run].state == RunState.FAILED
    && forall r :: r in runs && runs[r].state == RunState.FAILED ==> runs[r].updatedAt <= runs[run].updatedAt
  }

  /** Kept whatever the bucket holds of it. */
  ghost predicate Sheltered(runs: map<string, RunStatus>, run: string)
  {
    (run in runs && Active(runs[run].state)) || NewestFailed(runs, run)
  }

  /** How many runs in the bucket were written to more recently. */
  ghost function RunRank(items: seq<Item>, run: string): nat
  {
    Rank(Runs(items), RunNewest(items), RunFirst(items), run)
  }

  ghost predicate Retained(items: seq<Item>, cfg: RetentionConfig, runs: map<string, RunStatus>, run: string)
  {
    Sheltered(runs, run) || (run in Runs(items) && RunRank(items, run) < cfg.keepRuns)
  }

  /** The run's groups that have a manifest. */
  ghost function Committed(items: seq<Item>, run: string): set<Id>
  {
    set id | id in Groups(items) && id.0 == run && HasManifest(items, id)
  }

  /** How many checkpoints with a manifest in the run are newer. */
  ghost function CommitRank(items: seq<Item>, id: Id): nat
  {
    Rank(Committed(items, id.0), GroupNewest(items), GroupFirst(items), id)
  }

  ghost predicate Expendable(items: seq<Item>, cfg: RetentionConfig, now: int, id: Id)
  {
    if HasManifest(items, id) then CommitRank(items, id) >= cfg.keepCommittedPerRun
    else Latest(Filter(items, InGroup(id))) < now - cfg.orphanGraceSeconds
  }

  ghost function Plan(items: seq<Item>, cfg: RetentionConfig, runs: map<string, RunStatus>, now: int): (plan: set<Id>)
  {
    set id | id in Groups(items) && (!Retained(items, cfg, runs, id.0) || Expendable(items, cfg, now, id))
  }

  // ------------------------------------------------------------------
  // Grouping

  /** The groups met among the first i objects, with their objects so far. */
  ghost predicate GroupedUpTo(items: seq<Item>, i: nat, order: seq<Id>, grouped: map<Id, seq<Item>>)
    requires i <= |items|
  {
    OrderedUpTo(items, i, order) && forall id :: EntryUpTo(items, i, grouped, id)
  }

  ghost predicate EntryUpTo(items: seq<Item>, i: nat, grouped: map<Id, seq<Item>>, id: Id)
    requires i <= |items|
  {
    && (id in grouped <==> First(items, InGroup(id)) < i)
    && (id in grouped ==> grouped[id] == Filter(items[..i], InGroup(id)))
  }

  ghost predicate OrderedUpTo(items: seq<Item>, i: nat, order: seq<Id>)
  {
    && (forall id :: id in order <==> First(items, InGroup(id)) < i)
    && Rising(GroupFirst(items), order)
  }

  lemma FilterNext(items: seq<Item>, i: nat, p: Item -> bool)
    requires i < |items|
    ensures Filter(items[..i + 1], p) == Filter(items[..i], p) + (if p(items[i]) then [items[i]] else [])
    ensures First(items, p) >= i ==> Filter(items[..i], p) == []
  {
    assert items[..i + 1][..i] == items[..i];
    assert First(items, p) >= i ==> forall j :: 0 <= j < i ==> !p(items[..i][j]);
    assert Filter(items[..i], p) == [] || Filter(items[..i], p)[0] in Filter(items[..i], p);
  }

  /** The groups met up to the next object. */
  lemma MetNext(items: seq<Item>, i: nat, id: Id, other: Id)
    requires i < |items| && IdOf(items[i]) == Some(id)
    ensures First(items, InGroup(other)) < i + 1 <==> First(items, InGroup(other)) < i || other == id
  {
    assert IsFirst(items, InGroup(other), First(items, InGroup(other)));
    assert InGroup(other)(items[i]) <==> other == id;
  }

  lemma OrderNext(items: seq<Item>, i: nat, order: seq<Id>, id: Id)
    requires i < |items| && OrderedUpTo(items, i, order) && IdOf(items[i]) == Some(id)
    ensures OrderedUpTo(items, i + 1, if id in order then order else order + [id])
  {
    var longer := if id in order then order else order + [id];
    forall other ensures other in longer <==> First(items, InGroup(other)) < i + 1 {
      MetNext(items, i, id, other);
    }
    if id !in order { RisingNext(GroupFirst(items), order, id); }
  }

  lemma ListedIfGrouped(items: seq<Item>, i: nat, order: seq<Id>, grouped: map<Id, seq<Item>>, id: Id)
    requires i <= |items| && OrderedUpTo(items, i, order) && EntryUpTo(items, i, grouped, id)
    ensures id in order <==> id in grouped
  {
  }

  /** The next object joins its group. */
  lemma JoinsGroup(items: seq<Item>, i: nat, order: seq<Id>, grouped: map<Id, seq<Item>>, id: Id, next: nat,
                   joined: map<Id, seq<Item>>)
    requires i < |items| && GroupedUpTo(items, i, order, grouped) && IdOf(items[i]) == Some(id) && next == i + 1
    requires joined == grouped[id := (if id in grouped then grouped[id] else []) + [items[i]]]
    ensures GroupedUpTo(items, next, if id in grouped then order else order + [id], joined)
  {
    assert EntryUpTo(items, i, grouped, id);
    ListedIfGrouped(items, i, order, grouped, id);
    OrderNext(items, i, order, id);
    EntriesNext(items, i, grouped, id, next, joined);
  }

  lemma EntriesNext(items: seq<Item>, i: nat, grouped: map<Id, seq<Item>>, id: Id, next: nat,
                    joined: map<Id, seq<Item>>)
    requires i < |items| && IdOf(items[i]) == Some(id) && next == i + 1
    requires joined == grouped[id := (if id in grouped then grouped[id] else []) + [items[i]]]
    requires forall other :: EntryUpTo(items, i, grouped, other)
    ensures forall other :: EntryUpTo(items, next, joined, other)
  {
    forall other ensures EntryUpTo(items, next, joined, other) {
      assert EntryUpTo(items, i, grouped, id) && EntryUpTo(items, i, grouped, other);
      EntryNext(items, i, grouped, id, other);
    }
  }

  lemma EntryNext(items: seq<Item>, i: nat, grouped: map<Id, seq<Item>>, id: Id, other: Id)
    requires i < |items| && IdOf(items[i]) == Some(id)
    requires EntryUpTo(items, i, grouped, id) && EntryUpTo(items, i, grouped, other)
    ensures EntryUpTo(items, i + 1, grouped[id := (if id in grouped then grouped[id] else []) + [items[i]]], other)
  {
    FilterNext(items, i, InGroup(other));
    assert InGroup(id)(items[i]);
    assert First(items, InGroup(other)) == i ==> InGroup(other)(items[i]);
  }

  lemma JoinsNone(items: seq<Item>, i: nat, order: seq<Id>, grouped: map<Id, seq<Item>>)
    requires i < |items| && GroupedUpTo(items, i, order, grouped) && IdOf(items[i]) == None
    ensures GroupedUpTo(items, i + 1, order, grouped)
  {
    assert forall id :: First(items, InGroup(id)) != i;
    var next := i + 1;
    forall id ensures EntryUpTo(items, next, grouped, id) {
      assert EntryUpTo(items, i, grouped, id);
      FilterNext(items, i, InGroup(id));
    }
  }

  /** All objects are grouped. */
  ghost predicate Grouped(items: seq<Item>, order: seq<Id>, grouped: map<Id, seq<Item>>)
  {
    GroupedUpTo(items, |items|, order, grouped)
  }

  lemma GroupIs(items: seq<Item>, order: seq<Id>, grouped: map<Id, seq<Item>>, id: Id)
    requires Grouped(items, order, grouped)
    ensures id in order <==> id in Groups(items)
    ensures id in grouped <==> id in Groups(items)
    ensures id in grouped ==> grouped[id] == Filter(items, InGroup(id)) && grouped[id] != []
  {
    assert items[..|items|] == items;
    GroupListed(items, id);
    assert EntryUpTo(items, |items|, grouped, id);
  }

  method GroupByCheckpoint(items: seq<Item>) returns (order: seq<Id>, grouped: map<Id, seq<Item>>)
    ensures Grouped(items, order, grouped)
  {
    order, grouped := [], map[];
    for i := 0 to |items|
      invariant GroupedUpTo(items, i, order, grouped)
    {
      if IdOf(items[i]).Some? {
        var id := IdOf(items[i]).value;
        var joined := grouped[id := (if id in grouped then grouped[id] else []) + [items[i]]];
        JoinsGroup(items, i, order, grouped, id, i + 1, joined);
        if id !in grouped { order := order + [id]; }
        grouped := joined;
      } else {
        JoinsNone(items, i, order, grouped);
      }
    }
  }

  /** The run's groups in order of discovery. */
  ghost predicate GroupsOfRun(items: seq<Item>, run: string, ids: seq<Id>)
  {
    && (forall id :: id in ids <==> id in Groups(items) && id.0 == run)
    && Rising(GroupFirst(items), ids)
  }

  ghost predicate GroupedByRun(items: seq<Item>, runs: seq<string>, byRun: map<string, seq<Id>>)
  {
    && (forall run :: run in byRun <==> run in Runs(items))
    && (forall run :: run in runs <==> run in Runs(items))
    && (forall run :: run in byRun ==> GroupsOfRun(items, run, byRun[run]))
    && Rising(RunFirst(items), runs)
  }

  /** A run is first met with its first group. */
  lemma RunMetWithGroup(items: seq<Item>, order: seq<Id>, i: nat)
    requires OrderedUpTo(items, |items|, order) && i < |order|
    requires forall m :: 0 <= m < i ==> order[m].0 != order[i].0
    ensures First(items, InRun(order[i].0)) == First(items, InGroup(order[i]))
  {
    var run := order[i].0;
    var pos, f := First(items, InGroup(order[i])), First(items, InRun(run));
    assert order[i] in order;
    assert InGroup(order[i])(items[pos]) && InRun(run)(items[pos]);
    assert f <= pos;
    var id := IdOf(items[f]).value;
    assert InGroup(id)(items[f]);
    assert First(items, InGroup(id)) <= f && id in order;
    var m :| 0 <= m < |order| && order[m] == id;
    assert m >= i;
  }

  /** The groups of each run, in the order given. */
  function ByRun(ids: seq<Id>): (byRun: map<string, seq<Id>>)
  {
    if ids == [] then map[]
    else
      var before, last := ByRun(ids[..|ids| - 1]), ids[|ids| - 1];
      before[last.0 := (if last.0 in before then before[last.0] else []) + [last]]
  }

  /** The runs in the order of their first group. */
  function RunOrder(ids: seq<Id>): (runs: seq<string>)
  {
    if ids == [] then []
    else
      var before, last := RunOrder(ids[..|ids| - 1]), ids[|ids| - 1];
      if last.0 in before then before else before + [last.0]
  }

  lemma {:induction false} ByRunHas(ids: seq<Id>, run: string)
    ensures run in ByRun(ids) <==> exists id :: id in ids && id.0 == run
    ensures run in RunOrder(ids) <==> run in ByRun(ids)
    ensures run in ByRun(ids) ==> forall id :: id in ByRun(ids)[run] <==> id in ids && id.0 == run
  {
    if ids != [] {
      var before, last := ids[..|ids| - 1], ids[|ids| - 1];
      assert ids == before + [last];
      ByRunHas(before, run);
      if last.0 == run { assert last in ids; }
    }
  }

  lemma {:induction false} ByRunRises(at: Id -> nat, ids: seq<Id>, run: string)
    requires Rising(at, ids) && run in ByRun(ids)
    ensures Rising(at, ByRun(ids)[run])
  {
    var before, last := ids[..|ids| - 1], ids[|ids| - 1];
    assert ids == before + [last];
    if run in ByRun(before) {
      ByRunRises(at, before, run);
      ByRunHas(before, run);
      var mine := ByRun(before)[run];
      forall k | 0 <= k < |mine| ensures at(mine[k]) < at(last) {
        assert mine[k] in mine;
        var m :| 0 <= m < |before| && before[m] == mine[k];
        assert ids[m] == mine[k];
      }
    }
  }

  /** The runs rise with the position at which they are first met. */
  lemma {:induction false} RunOrderRises(items: seq<Item>, order: seq<Id>, n: nat)
    requires OrderedUpTo(items, |items|, order) && n <= |order|
    ensures Rising(RunFirst(items), RunOrder(order[..n]))
  {
    if n > 0 {
      var i := n - 1;
      RunOrderRises(items, order, i);
      assert order[..n][..i] == order[..i];
      var before, run := RunOrder(order[..i]), order[i].0;
      if run !in before {
        FirstOfRun(order, i);
        RunMetWithGroup(items, order, i);
        MetEarlier(items, order, i);
        Rises(RunFirst(items), before, run);
      }
    }
  }

  lemma Rises<T(!new)>(at: T -> nat, s: seq<T>, x: T)
    requires Rising(at, s) && forall y :: y in s ==> at(y) < at(x)
    ensures Rising(at, s + [x])
  {
    assert forall k :: 0 <= k < |s| ==> s[k] in s;
  }

  lemma MetEarlier(items: seq<Item>, order: seq<Id>, i: nat)
    requires OrderedUpTo(items, |items|, order) && i < |order|
    ensures forall run :: run in RunOrder(order[..i]) ==> First(items, InRun(run)) < First(items, InGroup(order[i]))
  {
    forall run | run in RunOrder(order[..i]) ensures First(items, InRun(run)) < First(items, InGroup(order[i])) {
      ByRunHas(order[..i], run);
      var id :| id in order[..i] && id.0 == run;
      RunNoLater(items, order, i, id);
    }
  }

  lemma FirstOfRun(order: seq<Id>, i: nat)
    requires i < |order| && order[i].0 !in RunOrder(order[..i])
    ensures forall m :: 0 <= m < i ==> order[m].0 != order[i].0
  {
    ByRunHas(order[..i], order[i].0);
    assert forall m :: 0 <= m < i ==> order[m] in order[..i];
  }

  lemma RunNoLater(items: seq<Item>, order: seq<Id>, i: nat, id: Id)
    requires OrderedUpTo(items, |items|, order) && i < |order| && id in order[..i]
    ensures First(items, InRun(id.0)) < First(items, InGroup(order[i]))
  {
    var m :| 0 <= m < i && order[m] == id;
    assert id in order;
    assert InRun(id.0)(items[First(items, InGroup(id))]);
  }

  method GroupByRun(order: seq<Id>) returns (runs: seq<string>, byRun: map<string, seq<Id>>)
    ensures runs == RunOrder(order) && byRun == ByRun(order)
  {
    runs, byRun := [], map[];
    for i := 0 to |order|
      invariant runs == RunOrder(order[..i]) && byRun == ByRun(order[..i])
    {
      assert order[..i + 1][..i] == order[..i];
      var run := order[i].0;
      ByRunHas(order[..i], run);
      if run !in byRun { runs := runs + [run]; }
      byRun := byRun[run := (if run in byRun then byRun[run] else []) + [order[i]]];
    }
    assert order[..|order|] == order;
  }

  lemma OrderIsComplete(items: seq<Item>, order: seq<Id>)
    requires OrderedUpTo(items, |items|, order)
    ensures forall id :: id in order <==> id in Groups(items)
  {
    forall id ensures id in Groups(items) <==> First(items, InGroup(id)) < |items| {
      GroupListed(items, id);
    }
    assert forall j :: 0 <= j < |order| ==> order[j] in order;
  }

  lemma RunEntryIs(items: seq<Item>, order: seq<Id>, run: string)
    requires OrderedUpTo(items, |items|, order)
    ensures run in ByRun(order) <==> run in Runs(items)
    ensures run in RunOrder(order) <==> run in Runs(items)
    ensures run in ByRun(order) ==> GroupsOfRun(items, run, ByRun(order)[run])
  {
    OrderIsComplete(items, order);
    ByRunHas(order, run);
    if run in ByRun(order) {
      ByRunRises(GroupFirst(items), order, run);
      var ids := ByRun(order)[run];
      assert forall j :: 0 <= j < |ids| ==> ids[j] in ids;
    }
  }

  lemma RunsAre(items: seq<Item>, order: seq<Id>)
    requires OrderedUpTo(items, |items|, order)
    ensures GroupedByRun(items, RunOrder(order), ByRun(order))
  {
    forall run
      ensures run in ByRun(order) <==> run in Runs(items)
      ensures run in RunOrder(order) <==> run in Runs(items)
      ensures run in ByRun(order) ==> GroupsOfRun(items, run, ByRun(order)[run])
    {
      RunEntryIs(items, order, run);
    }
    assert order[..|order|] == order;
    RunOrderRises(items, order, |order|);
    var runs := RunOrder(order);
    assert forall j :: 0 <= j < |runs| ==> runs[j] in runs;
  }

  // ------------------------------------------------------------------
  // Choosing what to keep

  /** The newest object of several groups. */
  function NewestAmong(ids: seq<Id>, grouped: map<Id, seq<Item>>): (time: int)
    requires forall i :: 0 <= i < |ids| ==> ids[i] in grouped
  {
    if ids == [] then 0
    else if |ids| == 1 then Latest(grouped[ids[0]])
    else
      var rest := NewestAmong(ids[1..], grouped);
      if Latest(grouped[ids[0]]) >= rest then Latest(grouped[ids[0]]) else rest
  }

  lemma {:induction false} NewestAmongIs(ids: seq<Id>, grouped: map<Id, seq<Item>>)
    requires forall i :: 0 <= i < |ids| ==> ids[i] in grouped
    ensures forall i :: 0 <= i < |ids| ==> Latest(grouped[ids[i]]) <= NewestAmong(ids, grouped)
    ensures ids != [] ==> exists i :: 0 <= i < |ids| && Latest(grouped[ids[i]]) == NewestAmong(ids, grouped)
  {
    if |ids| == 1 {
      assert Latest(grouped[ids[0]]) == NewestAmong(ids, grouped);
    } else if |ids| > 1 {
      NewestAmongIs(ids[1..], grouped);
      assert forall i :: 0 < i < |ids| ==> ids[i] == ids[1..][i - 1];
      if Latest(grouped[ids[0]]) < NewestAmong(ids, grouped) {
        var j :| 0 <= j < |ids[1..]| && Latest(grouped[ids[1..][j]]) == NewestAmong(ids[1..], grouped);
        assert Latest(grouped[ids[j + 1]]) == NewestAmong(ids, grouped);
      } else {
        assert Latest(grouped[ids[0]]) == NewestAmong(ids, grouped);
      }
    }
  }

  /** The lists of these groups. */
  ghost predicate Gathered(items: seq<Item>, grouped: map<Id, seq<Item>>, ids: seq<Id>)
  {
    forall i :: 0 <= i < |ids| ==> ids[i] in grouped && grouped[ids[i]] == Filter(items, InGroup(ids[i])) && grouped[ids[i]] != []
  }

  lemma GatheredOfRun(items: seq<Item>, order: seq<Id>, grouped: map<Id, seq<Item>>, run: string, ids: seq<Id>)
    requires Grouped(items, order, grouped) && GroupsOfRun(items, run, ids)
    ensures Gathered(items, grouped, ids)
  {
    forall i | 0 <= i < |ids|
      ensures ids[i] in grouped && grouped[ids[i]] == Filter(items, InGroup(ids[i])) && grouped[ids[i]] != []
    {
      assert ids[i] in ids;
      GroupIs(items, order, grouped, ids[i]);
    }
  }

  /** The newest object of a run's groups is the run's newest object. */
  lemma RunNewestIs(items: seq<Item>, grouped: map<Id, seq<Item>>, run: string, ids: seq<Id>)
    requires Gathered(items, grouped, ids) && GroupsOfRun(items, run, ids) && run in Runs(items)
    ensures NewestAmong(ids, grouped) == RunNewest(items)(run)
  {
    NewestAmongIs(ids, grouped);
    var id := NewestGroup(items, run);
    assert id in ids;
    forall i | 0 <= i < |ids| ensures Latest(grouped[ids[i]]) <= RunNewest(items)(run) {
      assert ids[i] in ids;
      GroupInRun(items, ids[i]);
    }
    var j :| 0 <= j < |ids| && ids[j] == id;
    assert grouped[ids[j]] == Filter(items, InGroup(id));
    assert NewestAmong(ids, grouped) >= Latest(grouped[ids[j]]);
    assert NewestAmong(ids, grouped) >= RunNewest(items)(run);
  }

  lemma GroupInRun(items: seq<Item>, id: Id)
    requires id in Groups(items)
    ensures Latest(Filter(items, InGroup(id))) <= RunNewest(items)(id.0)
  {
    GroupListed(items, id);
    var group := Filter(items, InGroup(id));
    var y :| y in group && y.modified == Latest(group);
    assert InRun(id.0)(y) && y in Filter(items, InRun(id.0));
  }

  /** The group that holds the run's newest object. */
  lemma NewestGroup(items: seq<Item>, run: string) returns (id: Id)
    requires run in Runs(items)
    ensures id in Groups(items) && id.0 == run && Latest(Filter(items, InGroup(id))) >= RunNewest(items)(run)
  {
    RunListed(items, run);
    var all := Filter(items, InRun(run));
    var x :| x in all && x.modified == Latest(all);
    id := IdOf(x).value;
    var i :| 0 <= i < |items| && items[i] == x;
    assert InGroup(id)(x) && x in Filter(items, InGroup(id));
  }

  /** The retained runs among those in the bucket: sheltered ones, and the most
      recently written ones. */
  method RetainedRuns(items: seq<Item>, order: seq<Id>, grouped: map<Id, seq<Item>>, runOrder: seq<string>, byRun: map<string, seq<Id>>,
                      cfg: RetentionConfig, runs: map<string, RunStatus>)
    returns (retained: set<string>)
    requires Grouped(items, order, grouped) && GroupedByRun(items, runOrder, byRun)
    ensures forall run :: run in Runs(items) ==> (run in retained <==> Retained(items, cfg, runs, run))
  {
    var sheltered := ShelteredRuns(runs);
    var key := (run: string) =>
      if run in byRun && (forall i :: 0 <= i < |byRun[run]| ==> byRun[run][i] in grouped) then NewestAmong(byRun[run], grouped) else 0;
    forall run | run in runOrder ensures key(run) == RunNewest(items)(run) {
      GatheredOfRun(items, order, grouped, run, byRun[run]);
      RunNewestIs(items, grouped, run, byRun[run]);
    }
    var recency := NewestFirst(runOrder, key, RunNewest(items), RunFirst(items));
    var n := if cfg.keepRuns <= |recency| then cfg.keepRuns else |recency|;
    forall run | run in Runs(items) ensures run in recency[..n] <==> RunRank(items, run) < cfg.keepRuns {
      RecentRun(items, recency, n, cfg.keepRuns, run);
    }
    retained := sheltered + set run | run in recency[..n];
  }

  lemma RecentRun(items: seq<Item>, recency: seq<string>, n: nat, keep: nat, run: string)
    requires Ranked(RunNewest(items), RunFirst(items), recency) && (forall r :: r in recency <==> r in Runs(items))
    requires n == (if keep <= |recency| then keep else |recency|) && run in Runs(items)
    ensures run in recency[..n] <==> RunRank(items, run) < keep
  {
    FirstPlaces(RunNewest(items), RunFirst(items), recency, n, run);
    assert Elements(recency) == Runs(items);
    if n == |recency| { assert recency[..n] == recency; }
  }

  /** Active runs, and every run tied for the newest failure. */
  method ShelteredRuns(runs: map<string, RunStatus>) returns (sheltered: set<string>)
    ensures forall run :: run in sheltered <==> Sheltered(runs, run)
  {
    var active := set run | run in runs && Active(runs[run].state);
    var failed := set run | run in runs && runs[run].state == RunState.FAILED;
    var newest: Option<int> := None;
    var left := failed;
    while left != {}
      invariant left <= failed
      invariant newest.None? <==> left == failed
      invariant newest.Some? ==> (exists run :: run in failed && runs[run].updatedAt == newest.value)
      invariant forall run :: run in failed && run !in left ==> newest.Some? && runs[run].updatedAt <= newest.value
    {
      var run :| run in left;
      left := left - {run};
      if newest.None? || newest.value < runs[run].updatedAt { newest := Some(runs[run].updatedAt); }
    }
    sheltered := active + set run | run in failed && newest == Some(runs[run].updatedAt);
  }

  /** The groups of one retained run that go: beyond the newest N with a
      manifest, and without a manifest and older than the grace period. */
  method ExpendableOf(items: seq<Item>, grouped: map<Id, seq<Item>>, run: string, ids: seq<Id>, cfg: RetentionConfig, now: int)
    returns (doomed: seq<Id>)
    requires Gathered(items, grouped, ids) && GroupsOfRun(items, run, ids)
    ensures forall id :: id in doomed <==> id in ids && Expendable(items, cfg, now, id)
    ensures Distinct(doomed)
  {
    var committed, orphans := SplitByManifest(items, grouped, run, ids);
    var past := PastKept(items, grouped, run, ids, committed, cfg.keepCommittedPerRun);
    var late := OlderThan(grouped, orphans, now - cfg.orphanGraceSeconds);
    doomed := past + late;
    GoneOfRun(items, cfg, now, ids, past, late);
    DisjointDistinct(past, late);
  }

  /** Sort newest first and skip the ones to keep. */
  method PastKept(items: seq<Item>, grouped: map<Id, seq<Item>>, run: string, ids: seq<Id>, committed: seq<Id>, keep: nat)
    returns (past: seq<Id>)
    requires Gathered(items, grouped, ids) && GroupsOfRun(items, run, ids) && Rising(GroupFirst(items), committed)
    requires forall id :: id in committed <==> id in ids && HasManifest(items, id)
    ensures forall id :: id in past <==> id in committed && CommitRank(items, id) >= keep
    ensures Distinct(past)
  {
    var key := (id: Id) => if id in grouped then Latest(grouped[id]) else 0;
    forall id | id in committed ensures key(id) == GroupNewest(items)(id) {
      assert id in ids;
    }
    var ranked := NewestFirst(committed, key, GroupNewest(items), GroupFirst(items));
    var n := if keep <= |ranked| then keep else |ranked|;
    forall id | id in committed ensures id in ranked[n..] <==> CommitRank(items, id) >= keep {
      PastNewest(items, run, ids, ranked, n, keep, id);
    }
    RankedDistinct(GroupNewest(items), GroupFirst(items), ranked);
    past := ranked[n..];
    assert forall id :: id in past ==> id in ranked;
  }

  /** Together these are the expendable groups of the run. */
  lemma GoneOfRun(items: seq<Item>, cfg: RetentionConfig, now: int, ids: seq<Id>, past: seq<Id>, late: seq<Id>)
    requires forall id :: id in past <==> id in ids && HasManifest(items, id) && CommitRank(items, id) >= cfg.keepCommittedPerRun
    requires forall id :: id in late <==> id in ids && !HasManifest(items, id)
                                          && Latest(Filter(items, InGroup(id))) < now - cfg.orphanGraceSeconds
    ensures forall id :: id in past + late <==> id in ids && Expendable(items, cfg, now, id)
  {
  }

  lemma DisjointDistinct<T>(a: seq<T>, b: seq<T>)
    requires Distinct(a) && Distinct(b) && forall x :: x in a ==> x !in b
    ensures Distinct(a + b)
  {
    assert forall i :: 0 <= i < |a| ==> a[i] in a;
  }

  ghost predicate Distinct<T>(s: seq<T>)
  {
    forall i, j :: 0 <= i < j < |s| ==> s[i] != s[j]
  }

  lemma RankedDistinct<T(!new)>(newest: T -> int, at: T -> nat, s: seq<T>)
    requires Ranked(newest, at, s)
    ensures Distinct(s)
  {
    assert forall i, j :: 0 <= i < j < |s| ==> Ahead(newest, at, s[i], s[j]);
  }

  lemma PastNewest(items: seq<Item>, run: string, ids: seq<Id>, ranked: seq<Id>, n: nat, keep: nat, id: Id)
    requires GroupsOfRun(items, run, ids) && Ranked(GroupNewest(items), GroupFirst(items), ranked)
    requires forall other :: other in ranked <==> other in ids && HasManifest(items, other)
    requires n == (if keep <= |ranked| then keep else |ranked|) && id in ranked
    ensures id in ranked[n..] <==> CommitRank(items, id) >= keep
  {
    FirstPlaces(GroupNewest(items), GroupFirst(items), ranked, n, id);
    assert Elements(ranked) == Committed(items, run);
  }

  ghost function Manifested(items: seq<Item>): Id -> bool { id => HasManifest(items, id) }

  method SplitByManifest(items: seq<Item>, grouped: map<Id, seq<Item>>, run: string, ids: seq<Id>)
    returns (committed: seq<Id>, orphans: seq<Id>)
    requires Gathered(items, grouped, ids) && GroupsOfRun(items, run, ids)
    ensures forall id :: id in committed <==> id in ids && HasManifest(items, id)
    ensures forall id :: id in orphans <==> id in ids && !HasManifest(items, id)
    ensures Rising(GroupFirst(items), committed) && Distinct(orphans)
  {
    committed, orphans := [], [];
    for i := 0 to |ids|
      invariant SplitUpTo(Manifested(items), GroupFirst(items), ids, i, committed, orphans)
    {
      SplitNext(Manifested(items), GroupFirst(items), ids, i, committed, orphans);
      var found := AnyManifest(items, grouped, ids, i);
      if found { committed := committed + [ids[i]]; } else { orphans := orphans + [ids[i]]; }
    }
    SplitDone(items, ids, committed, orphans);
  }

  /** any(obj is a manifest for obj in group i). */
  method AnyManifest(items: seq<Item>, grouped: map<Id, seq<Item>>, ids: seq<Id>, i: nat) returns (found: bool)
    requires i < |ids| && Gathered(items, grouped, ids)
    ensures found <==> Manifested(items)(ids[i])
  {
    var group := grouped[ids[i]];
    MemberMeans(group);
    found := exists j :: 0 <= j < |group| && IsManifest(group[j]);
  }

  lemma SplitDone(items: seq<Item>, ids: seq<Id>, committed: seq<Id>, orphans: seq<Id>)
    requires SplitUpTo(Manifested(items), GroupFirst(items), ids, |ids|, committed, orphans)
    ensures forall id :: id in committed <==> id in ids && HasManifest(items, id)
    ensures forall id :: id in orphans <==> id in ids && !HasManifest(items, id)
    ensures Rising(GroupFirst(items), committed) && Distinct(orphans)
  {
    assert ids[..|ids|] == ids;
  }

  lemma MemberMeans(group: seq<Item>)
    ensures (exists x :: x in group && IsManifest(x)) <==> exists j :: 0 <= j < |group| && IsManifest(group[j])
  {
    if j :| 0 <= j < |group| && IsManifest(group[j]) { assert group[j] in group; }
  }

  method OlderThan(grouped: map<Id, seq<Item>>, orphans: seq<Id>, cutoff: int) returns (late: seq<Id>)
    requires forall id :: id in orphans ==> id in grouped
    requires Distinct(orphans)
    ensures forall id :: id in late <==> id in orphans && Latest(grouped[id]) < cutoff
    ensures Distinct(late)
  {
    late := [];
    for i := 0 to |orphans|
      invariant forall id :: id in late <==> id in orphans[..i] && Latest(grouped[id]) < cutoff
      invariant Distinct(late)
    {
      assert orphans[..i + 1] == orphans[..i] + [orphans[i]];
      assert orphans[i] !in orphans[..i];
      if Latest(grouped[orphans[i]]) < cutoff { late := late + [orphans[i]]; }
    }
    assert orphans[..|orphans|] == orphans;
  }

  // ------------------------------------------------------------------
  // The pass

  ghost predicate PlanIs(items: seq<Item>, cfg: RetentionConfig, runs: map<string, RunStatus>, now: int, toDelete: seq<Id>)
  {
    Distinct(toDelete) && forall id :: id in toDelete <==> id in Plan(items, cfg, runs, now)
  }

  method MakePlan(items: seq<Item>, cfg: RetentionConfig, runs: map<string, RunStatus>, now: int)
    returns (toDelete: seq<Id>, grouped: map<Id, seq<Item>>)
    ensures PlanIs(items, cfg, runs, now, toDelete) && Gathered(items, grouped, toDelete)
  {
    var order;
    order, grouped := GroupByCheckpoint(items);
    var runOrder, byRun := GroupByRun(order);
    RunsAre(items, order);
    var retained := RetainedRuns(items, order, grouped, runOrder, byRun, cfg, runs);
    toDelete := PlanRuns(items, order, grouped, runOrder, byRun, retained, cfg, runs, now);
    forall i | 0 <= i < |toDelete|
      ensures toDelete[i] in grouped && grouped[toDelete[i]] == Filter(items, InGroup(toDelete[i])) && grouped[toDelete[i]] != []
    {
      assert toDelete[i] in toDelete;
      GroupIs(items, order, grouped, toDelete[i]);
    }
  }

  method PlanRuns(items: seq<Item>, order: seq<Id>, grouped: map<Id, seq<Item>>, runOrder: seq<string>, byRun: map<string, seq<Id>>,
                  retained: set<string>, cfg: RetentionConfig, runs: map<string, RunStatus>, now: int)
    returns (toDelete: seq<Id>)
    requires Grouped(items, order, grouped) && GroupedByRun(items, runOrder, byRun)
    requires forall run :: run in Runs(items) ==> (run in retained <==> Retained(items, cfg, runs, run))
    ensures PlanIs(items, cfg, runs, now, toDelete)
  {
    toDelete := [];
    ghost var plan := Plan(items, cfg, runs, now);
    for i := 0 to |runOrder|
      invariant PlanUpTo(plan, runOrder, i, toDelete)
    {
      toDelete := PlanNext(items, order, grouped, runOrder, byRun, retained, cfg, runs, now, i, toDelete);
    }
    PlanComplete(items, cfg, runs, now, runOrder, toDelete);
  }

  lemma PlanComplete(items: seq<Item>, cfg: RetentionConfig, runs: map<string, RunStatus>, now: int, runOrder: seq<string>, toDelete: seq<Id>)
    requires forall run :: run in Runs(items) ==> run in runOrder
    requires PlanUpTo(Plan(items, cfg, runs, now), runOrder, |runOrder|, toDelete)
    ensures PlanIs(items, cfg, runs, now, toDelete)
  {
    forall id | id in Plan(items, cfg, runs, now) ensures id in toDelete {
      assert id.0 in Runs(items) && id.0 in runOrder;
      var j :| 0 <= j < |runOrder| && runOrder[j] == id.0;
    }
  }

  /** Add what goes of run i. */
  method PlanNext(items: seq<Item>, order: seq<Id>, grouped: map<Id, seq<Item>>, runOrder: seq<string>, byRun: map<string, seq<Id>>,
                  retained: set<string>, cfg: RetentionConfig, ghost runs: map<string, RunStatus>, now: int, i: nat, before: seq<Id>)
    returns (toDelete: seq<Id>)
    requires Grouped(items, order, grouped) && GroupedByRun(items, runOrder, byRun) && i < |runOrder|
    requires forall run :: run in Runs(items) ==> (run in retained <==> Retained(items, cfg, runs, run))
    requires PlanUpTo(Plan(items, cfg, runs, now), runOrder, i, before)
    ensures PlanUpTo(Plan(items, cfg, runs, now), runOrder, i + 1, toDelete)
  {
    var run := runOrder[i];
    assert run in runOrder && run in Runs(items) && run in byRun;
    GatheredOfRun(items, order, grouped, run, byRun[run]);
    var doomed := PlanRun(items, grouped, run, byRun[run], run in retained, cfg, runs, now);
    RunPlanned(Plan(items, cfg, runs, now), RunFirst(items), runOrder, i, before, doomed);
    toDelete := before + doomed;
  }

  /** Everything of a run that is not retained, and what can go of one that is. */
  method PlanRun(items: seq<Item>, grouped: map<Id, seq<Item>>, run: string, ids: seq<Id>, keep: bool, cfg: RetentionConfig,
                 ghost runs: map<string, RunStatus>, now: int)
    returns (doomed: seq<Id>)
    requires Gathered(items, grouped, ids) && GroupsOfRun(items, run, ids) && keep == Retained(items, cfg, runs, run)
    ensures Distinct(doomed) && forall id :: id in doomed <==> id in Plan(items, cfg, runs, now) && id.0 == run
  {
    doomed := ids;
    if keep { doomed := ExpendableOf(items, grouped, run, ids, cfg, now); }
    PlanOfRun(items, cfg, runs, now, run, ids, doomed);
  }

  /** The plan for the first i runs. */
  ghost predicate PlanUpTo(plan: set<Id>, runOrder: seq<string>, i: nat, toDelete: seq<Id>)
    requires i <= |runOrder|
  {
    Distinct(toDelete) && forall id :: id in toDelete <==> id in plan && exists j :: 0 <= j < i && runOrder[j] == id.0
  }

  lemma RunPlanned(plan: set<Id>, at: string -> nat, runOrder: seq<string>, i: nat, toDelete: seq<Id>, doomed: seq<Id>)
    requires Rising(at, runOrder) && i < |runOrder| && PlanUpTo(plan, runOrder, i, toDelete)
    requires Distinct(doomed) && forall id :: id in doomed <==> id in plan && id.0 == runOrder[i]
    ensures PlanUpTo(plan, runOrder, i + 1, toDelete + doomed)
  {
    assert forall j :: 0 <= j < i ==> at(runOrder[j]) < at(runOrder[i]);
    forall k, l | 0 <= k < |toDelete| && 0 <= l < |doomed| ensures toDelete[k] != doomed[l] {
      assert toDelete[k] in toDelete && doomed[l] in doomed;
    }
  }

  /** What goes of one run. */
  lemma PlanOfRun(items: seq<Item>, cfg: RetentionConfig, runs: map<string, RunStatus>, now: int, run: string, ids: seq<Id>, doomed: seq<Id>)
    requires GroupsOfRun(items, run, ids)
    requires Retained(items, cfg, runs, run) ==> Distinct(doomed) && forall id :: id in doomed <==> id in ids && Expendable(items, cfg, now, id)
    requires !Retained(items, cfg, runs, run) ==> doomed == ids
    ensures Distinct(doomed)
    ensures forall id :: id in doomed <==> id in Plan(items, cfg, runs, now) && id.0 == run
  {
  }

  function Keys(items: seq<Item>): (keys: seq<string>)
    ensures |keys| == |items|
  {
    seq(|items|, i requires 0 <= i < |items| => items[i].key)
  }

  function Size(items: seq<Item>): (total: nat)
  {
    if items == [] then 0 else Size(items[..|items| - 1]) + items[|items| - 1].size
  }

  /** All objects of the groups, group after group. */
  function ObjectsOf(ids: seq<Id>, grouped: map<Id, seq<Item>>): seq<Item>
    requires forall i :: 0 <= i < |ids| ==> ids[i] in grouped
  {
    if ids == [] then [] else ObjectsOf(ids[..|ids| - 1], grouped) + grouped[ids[|ids| - 1]]
  }

  lemma {:induction false} FilterNone(items: seq<Item>, p: Item -> bool)
    requires forall x :: x in items ==> !p(x)
    ensures Filter(items, p) == []
  {
    assert Filter(items, p) == [] || Filter(items, p)[0] in Filter(items, p);
  }

  /** Adding one more group adds exactly its objects. */
  lemma {:induction false} OneMoreGroup(items: seq<Item>, ids: set<Id>, id: Id)
    requires id !in ids
    ensures multiset(Filter(items, Among(ids + {id}))) == multiset(Filter(items, Among(ids))) + multiset(Filter(items, InGroup(id)))
  {
    if items != [] {
      var before, last := items[..|items| - 1], items[|items| - 1];
      OneMoreGroup(before, ids, id);
      assert Among(ids + {id})(last) <==> Among(ids)(last) || InGroup(id)(last);
      assert !(Among(ids)(last) && InGroup(id)(last));
    }
  }

  /** Each object of the planned groups is deleted, and only once. */
  lemma {:induction false} ObjectsOfPlan(items: seq<Item>, ids: seq<Id>, grouped: map<Id, seq<Item>>)
    requires Distinct(ids) && Gathered(items, grouped, ids)
    ensures multiset(ObjectsOf(ids, grouped)) == multiset(Filter(items, Among(set id | id in ids)))
  {
    if ids == [] {
      FilterNone(items, Among({}));
      assert (set id | id in ids) == {};
    } else {
      var before, last := ids[..|ids| - 1], ids[|ids| - 1];
      assert ids == before + [last];
      ObjectsOfPlan(items, before, grouped);
      assert last !in before;
      assert (set id | id in ids) == (set id | id in before) + {last};
      OneMoreGroup(items, (set id | id in before), last);
    }
  }

  lemma {:induction false} SizeAppend(a: seq<Item>, b: seq<Item>)
    ensures Size(a + b) == Size(a) + Size(b)
  {
    if b == [] {
      assert a + b == a;
    } else {
      SizeAppend(a, b[..|b| - 1]);
      assert (a + b)[..|a + b| - 1] == a + b[..|b| - 1];
    }
  }

  lemma TakeOut(items: seq<Item>, j: nat)
    requires j < |items|
    ensures var others := items[..j] + items[j + 1..];
            multiset(items) == multiset(others) + multiset{items[j]} && Size(items) == Size(others) + items[j].size
  {
    assert items == items[..j] + [items[j]] + items[j + 1..];
    SizeAppend(items[..j] + [items[j]], items[j + 1..]);
    SizeAppend(items[..j], [items[j]]);
    SizeAppend(items[..j], items[j + 1..]);
    assert Size([items[j]]) == items[j].size;
  }

  /** Number and size of objects do not depend on their order. */
  lemma CancelOne<T>(a: multiset<T>, b: multiset<T>, x: T)
    requires a + multiset{x} == b + multiset{x}
    ensures a == b
  {
    assert a == a + multiset{x} - multiset{x} == b;
  }

  /** Taking the first item of one list out of both. */
  lemma TakeOutBoth(a: seq<Item>, b: seq<Item>, j: nat)
    requires a != [] && j < |b| && b[j] == a[0] && multiset(a) == multiset(b)
    ensures var rest, others := a[..0] + a[1..], b[..j] + b[j + 1..];
            && multiset(rest) == multiset(others)
            && Size(a) == Size(rest) + a[0].size && Size(b) == Size(others) + a[0].size
  {
    TakeOut(a, 0);
    TakeOut(b, j);
    CancelOne(multiset(a[..0] + a[1..]), multiset(b[..j] + b[j + 1..]), a[0]);
  }

  lemma {:induction false} SizeOfMultiset(a: seq<Item>, b: seq<Item>)
    requires multiset(a) == multiset(b)
    ensures |a| == |b| && Size(a) == Size(b)
    decreases |a|
  {
    assert |multiset(a)| == |a| && |multiset(b)| == |b|;
    if a != [] {
      assert a[0] in multiset(b);
      var j :| 0 <= j < |b| && b[j] == a[0];
      TakeOutBoth(a, b, j);
      SizeOfMultiset(a[..0] + a[1..], b[..j] + b[j + 1..]);
    }
  }

  /** A complete listing: every key of the bucket, each once. */
  ghost predicate Lists(objects: Bucket, items: seq<Item>)
  {
    && (forall i, j :: 0 <= i < j < |items| ==> items[i].key != items[j].key)
    && (forall x :: x in items ==> x.key in objects)
    && (forall k :: k in objects ==> exists x :: x in items && x.key == k)
  }

  /** Only listed objects are gone, and of the first n none is left. */
  ghost predicate Shrunk(before: Bucket, after: Bucket, items: seq<Item>, n: nat)
    requires n <= |items|
  {
    && (forall k :: k in after ==> k in before && after[k] == before[k])
    && (forall k :: k in before && k !in after ==> exists i :: 0 <= i < |items| && items[i].key == k)
    && (forall i :: 0 <= i < n ==> items[i].key !in after)
  }

  lemma BatchGone(before: Bucket, between: Bucket, after: Bucket, items: seq<Item>, offset: nat, end: nat, complete: bool)
    requires offset <= end <= |items| && Shrunk(before, between, items, offset)
    requires forall k :: k in after ==> k in between && after[k] == between[k]
    requires forall k :: k in between && k !in Keys(items[offset..end]) ==> k in after
    requires complete ==> forall k :: k in Keys(items[offset..end]) ==> k !in after
    ensures Shrunk(before, after, items, if complete then end else offset)
  {
    var keys := Keys(items[offset..end]);
    assert forall i :: offset <= i < end ==> items[i].key == keys[i - offset];
    forall k | k in before && k !in after ensures exists i :: 0 <= i < |items| && items[i].key == k {
      if k in between {
        var j :| 0 <= j < |keys| && keys[j] == k;
        assert items[offset + j].key == k;
      }
    }
  }

  /** Delete in batches of 1000, until one reports an error. */
  method DeleteBatches(s3: S3Client, items: seq<Item>) returns (ok: bool, ghost batches: seq<seq<Item>>)
    modifies s3`objects
    ensures Shrunk(old(s3.objects), s3.objects, items, if ok then |items| else 0)
    ensures ok ==> batches == Slices(items, BATCH)
    ensures s3.reliable ==> ok
  {
    batches := [];
    var offset := 0;
    while offset < |items|
      invariant offset <= |items|
      invariant batches + Slices(items[offset..], BATCH) == Slices(items, BATCH)
      invariant Shrunk(old(s3.objects), s3.objects, items, offset)
    {
      var end := if offset + BATCH <= |items| then offset + BATCH else |items|;
      NextSlice(items, offset, end);
      ghost var between := s3.objects;
      var errors := s3.DeleteObjects(Keys(items[offset..end]));
      BatchGone(old(s3.objects), between, s3.objects, items, offset, end, errors == []);
      if errors != [] { return false, batches; }
      batches := batches + [items[offset..end]];
      offset := end;
    }
    ok := true;
  }

  lemma NextSlice(items: seq<Item>, offset: nat, end: nat)
    requires offset < |items| && end == if offset + BATCH <= |items| then offset + BATCH else |items|
    ensures Slices(items[offset..], BATCH) == [items[offset..end]] + Slices(items[end..], BATCH)
  {
    var rest := items[offset..];
    assert rest[..end - offset] == items[offset..end] && rest[end - offset..] == items[end..];
    assert |rest| <= BATCH ==> items[offset..end] == rest && items[end..] == [];
  }

  /** When all planned objects are gone, exactly the planned groups are gone. */
  lemma BucketAfterPass(before: Bucket, after: Bucket, items: seq<Item>, deleted: seq<Item>, plan: set<Id>)
    requires Lists(before, items) && multiset(deleted) == multiset(Filter(items, Among(plan)))
    requires Shrunk(before, after, deleted, |deleted|)
    ensures after == Protocol.WithoutObjects(before, plan)
  {
    forall k | k in before ensures k in after <==> !Protocol.InPlan(k, plan) {
      var x :| x in items && x.key == k;
      ObjectAfterPass(before, after, items, deleted, plan, x);
    }
  }

  lemma ObjectAfterPass(before: Bucket, after: Bucket, items: seq<Item>, deleted: seq<Item>, plan: set<Id>, x: Item)
    requires x in items && x.key in before && multiset(deleted) == multiset(Filter(items, Among(plan)))
    requires forall i, j :: 0 <= i < j < |items| ==> items[i].key != items[j].key
    requires Shrunk(before, after, deleted, |deleted|)
    ensures x.key in after <==> !Protocol.InPlan(x.key, plan)
  {
    assert Among(plan)(x) <==> Protocol.InPlan(x.key, plan);
    if Among(plan)(x) {
      assert x in Filter(items, Among(plan)) && x in multiset(deleted);
      var i :| 0 <= i < |deleted| && deleted[i] == x;
    } else {
      NotDeleted(items, deleted, plan, x);
    }
  }

  lemma NotDeleted(items: seq<Item>, deleted: seq<Item>, plan: set<Id>, x: Item)
    requires multiset(deleted) == multiset(Filter(items, Among(plan))) && x in items && !Among(plan)(x)
    requires forall i, j :: 0 <= i < j < |items| ==> items[i].key != items[j].key
    ensures forall i :: 0 <= i < |deleted| ==> deleted[i].key != x.key
  {
    forall i | 0 <= i < |deleted| ensures deleted[i].key != x.key {
      assert deleted[i] in multiset(deleted) && deleted[i] in Filter(items, Among(plan));
    }
  }

  /** What a pass without errors reports. */
  lemma PassCounts(items: seq<Item>, deleteItems: seq<Item>, plan: set<Id>)
    requires multiset(deleteItems) == multiset(Filter(items, Among(plan)))
    ensures Regular(Slices(deleteItems, BATCH), BATCH) && Join(Slices(deleteItems, BATCH)) == deleteItems
    ensures |deleteItems| == |Filter(items, Among(plan))| && Size(deleteItems) == Size(Filter(items, Among(plan)))
  {
    SlicesRegular(deleteItems, BATCH);
    SlicesJoin(deleteItems, BATCH);
    SizeOfMultiset(deleteItems, Filter(items, Among(plan)));
  }

  /** The delete list is the plan, each group once. */
  lemma PlannedIds(items: seq<Item>, cfg: RetentionConfig, runs: map<string, RunStatus>, now: int, toDelete: seq<Id>)
    requires PlanIs(items, cfg, runs, now, toDelete)
    ensures Plan(items, cfg, runs, now) == (set id | id in toDelete) && |toDelete| == |Plan(items, cfg, runs, now)|
  {
    assert Plan(items, cfg, runs, now) == set id | id in toDelete;
    CountDistinct(toDelete);
  }

  class CheckpointRetentionManager {
    const coordinator: Coordinator
    const s3: S3Client
    const config: RetentionConfig

    constructor (coordinator: Coordinator, s3: S3Client, config: RetentionConfig)
      ensures this.coordinator == coordinator && this.s3 == s3 && this.config == config
    {
      this.coordinator, this.s3, this.config := coordinator, s3, config;
    }

    /** One pass over a complete listing. Without an error exactly the planned
        groups lose all their objects, in batches of at most 1000 that hold each
        planned object once, then exactly the planned checkpoints their records,
        and the counts and bytes are those of the plan. With an error no record
        is removed. */
    method RunOnce(items: seq<Item>, now: int) returns (r: Outcome<RetentionResult>, ghost batches: seq<seq<Item>>)
      requires Lists(s3.objects, items)
      modifies s3`objects, coordinator`checkpoints
      ensures var plan := Plan(items, config, coordinator.runs, now);
              var planned := Filter(items, Among(plan));
              r.Ok? ==>
                && s3.objects == Protocol.WithoutObjects(old(s3.objects), plan)
                && coordinator.checkpoints == Protocol.WithoutRecords(old(coordinator.checkpoints), plan)
                && Regular(batches, BATCH) && multiset(Join(batches)) == multiset(planned)
                && r.value == RetentionResult(|plan|, |planned|, Size(planned))
      ensures r.Err? ==> coordinator.checkpoints == old(coordinator.checkpoints)
                         && Shrunk(old(s3.objects), s3.objects, Filter(items, Among(Plan(items, config, coordinator.runs, now))), 0)
      ensures s3.reliable ==> r.Ok?
    {
      var toDelete, grouped := MakePlan(items, config, coordinator.runs, now);
      ghost var plan := Plan(items, config, coordinator.runs, now);
      PlannedIds(items, config, coordinator.runs, now, toDelete);
      var ok, objects, bytes;
      ok, objects, bytes, batches := DeletePlanned(items, toDelete, grouped, plan);
      if !ok { return Err("S3 retention delete failed"), batches; }
      ForgetRecords(toDelete);
      r := Ok(RetentionResult(|toDelete|, objects, bytes));
    }

    /** The objects of the planned groups, in batches. */
    method DeletePlanned(items: seq<Item>, toDelete: seq<Id>, grouped: map<Id, seq<Item>>, ghost plan: set<Id>)
      returns (ok: bool, objects: nat, bytes: nat, ghost batches: seq<seq<Item>>)
      requires Lists(s3.objects, items) && Distinct(toDelete) && Gathered(items, grouped, toDelete) && plan == set id | id in toDelete
      modifies s3`objects
      ensures ok ==> s3.objects == Protocol.WithoutObjects(old(s3.objects), plan)
                     && Regular(batches, BATCH) && multiset(Join(batches)) == multiset(Filter(items, Among(plan)))
                     && objects == |Filter(items, Among(plan))| && bytes == Size(Filter(items, Among(plan)))
      ensures !ok ==> Shrunk(old(s3.objects), s3.objects, Filter(items, Among(plan)), 0)
      ensures s3.reliable ==> ok
    {
      ObjectsOfPlan(items, toDelete, grouped);
      var deleteItems := ObjectsOf(toDelete, grouped);
      objects, bytes := |deleteItems|, Size(deleteItems);
      ok, batches := DeleteBatches(s3, deleteItems);
      if ok {
        BucketAfterPass(old(s3.objects), s3.objects, items, deleteItems, plan);
        PassCounts(items, deleteItems, plan);
      } else {
        SameObjects(old(s3.objects), s3.objects, deleteItems, Filter(items, Among(plan)));
      }
    }

    method ForgetRecords(toDelete: seq<Id>)
      modifies coordinator`checkpoints
      ensures coordinator.checkpoints == Protocol.WithoutRecords(old(coordinator.checkpoints), set id | id in toDelete)
    {
      for i := 0 to |toDelete|
        invariant coordinator.checkpoints == Protocol.WithoutRecords(old(coordinator.checkpoints), set id | id in toDelete[..i])
      {
        assert toDelete[..i + 1] == toDelete[..i] + [toDelete[i]];
        var (run, ckpt) := toDelete[i];
        if ckpt in coordinator.checkpoints && coordinator.checkpoints[ckpt].runId == run {
          coordinator.DeleteCheckpoint(ckpt);
        }
      }
      assert toDelete[..|toDelete|] == toDelete;
    }
  }

  lemma SameObjects(before: Bucket, after: Bucket, deleted: seq<Item>, planned: seq<Item>)
    requires multiset(deleted) == multiset(planned) && Shrunk(before, after, deleted, 0)
    ensures Shrunk(before, after, planned, 0)
  {
    forall k | k in before && k !in after ensures exists i :: 0 <= i < |planned| && planned[i].key == k {
      var i :| 0 <= i < |deleted| && deleted[i].key == k;
      assert deleted[i] in multiset(planned);
      var j :| 0 <= j < |planned| && planned[j] == deleted[i];
    }
  }
}
