/** What a second retention pass does right after the first one. */
module RetentionFixpoint {
  import opened Sequences
  import opened ObjectKeys
  import opened Coordinator
  import RunStates
  import opened LexOrder
  import opened Ranking
  import opened Listings
  import opened Retention

  function CharCode(c: char): int { c as int }

  /** S3 lists keys in ascending order. */
  ghost predicate KeyOrdered(items: seq<Item>)
  {
    forall i, j :: 0 <= i < j < |items| ==> Less(CharCode, items[i].key, items[j].key)
  }

  function Outside(plan: set<Id>): Item -> bool { (item: Item) => !Among(plan)(item) }

  /** The listing of what a pass leaves behind. */
  function Rest(items: seq<Item>, plan: set<Id>): seq<Item> { Filter(items, Outside(plan)) }

  // ------------------------------------------------------------------
  // Filtering a listing

  /** Where the kept objects were before, in rising order. */
  lemma {:induction false} FilterPlaces(items: seq<Item>, p: Item -> bool) returns (places: seq<nat>)
    ensures |places| == |Filter(items, p)|
    ensures forall i :: 0 <= i < |places| ==> places[i] < |items| && Filter(items, p)[i] == items[places[i]]
    ensures forall i, j :: 0 <= i < j < |places| ==> places[i] < places[j]
  {
    if items == [] {
      places := [];
    } else {
      var last := |items| - 1;
      places := FilterPlaces(items[..last], p);
      if p(items[last]) { places := places + [last]; }
    }
  }

  lemma RestKeyOrdered(items: seq<Item>, plan: set<Id>)
    requires KeyOrdered(items)
    ensures KeyOrdered(Rest(items, plan))
  {
    var places := FilterPlaces(items, Outside(plan));
  }

  lemma {:induction false} FilterTwice(items: seq<Item>, p: Item -> bool, q: Item -> bool)
    requires forall x :: q(x) ==> p(x)
    ensures Filter(Filter(items, p), q) == Filter(items, q)
  {
    if items != [] {
      var before, last := items[..|items| - 1], items[|items| - 1];
      FilterTwice(before, p, q);
      if p(last) {
        assert Filter(items, p)[..|Filter(items, p)| - 1] == Filter(before, p);
      }
    }
  }

  lemma GroupOutside(plan: set<Id>, id: Id)
    ensures forall x :: InGroup(id)(x) ==> (Outside(plan)(x) <==> id !in plan)
  {
    forall x | InGroup(id)(x) ensures Outside(plan)(x) <==> id !in plan {
      assert IdOf(x) == Some(id);
      assert Among(plan)(x) <==> id in plan;
    }
  }

  /** A kept group keeps all its objects, and a planned one keeps none. */
  lemma GroupAfter(items: seq<Item>, plan: set<Id>, id: Id)
    ensures id in Groups(Rest(items, plan)) <==> id in Groups(items) && id !in plan
    ensures id !in plan ==> Filter(Rest(items, plan), InGroup(id)) == Filter(items, InGroup(id))
  {
    GroupListed(items, id);
    GroupListed(Rest(items, plan), id);
    GroupOutside(plan, id);
    if id !in plan {
      FilterTwice(items, Outside(plan), InGroup(id));
    } else {
      var rest := Rest(items, plan);
      assert forall x :: x in rest ==> Outside(plan)(x);
      FilterNone(rest, InGroup(id));
    }
  }

  // ------------------------------------------------------------------
  // In key order the first position is decided by the ids alone

  /** All keys with prefix p come before all keys with prefix q. */
  lemma PrefixFirst(items: seq<Item>, p: string, q: string, i: nat, j: nat)
    requires KeyOrdered(items) && i < |items| && j < |items| && i != j
    requires p <= items[i].key && q <= items[j].key && !(p <= q) && !(q <= p)
    ensures i < j <==> Less(CharCode, p, q)
  {
    PrefixesDecide(CharCode, p, q, items[i].key, items[j].key);
    PrefixesDecide(CharCode, q, p, items[j].key, items[i].key);
    if i < j {
      assert Less(CharCode, items[i].key, items[j].key);
    } else {
      LessIsAsymmetric(CharCode, items[j].key, items[i].key);
    }
  }

  lemma DirsApart(a: Id, b: Id)
    requires SlashFree(a.0) && SlashFree(a.1) && SlashFree(b.0) && SlashFree(b.1) && a != b
    ensures !(Dir(a.0, a.1) <= Dir(b.0, b.1))
  {
    if Dir(a.0, a.1) <= Dir(b.0, b.1) { UnderOne(Dir(b.0, b.1), a.0, a.1, b.0, b.1); }
  }

  lemma FirstOfGroup(items: seq<Item>, id: Id)
    requires id in Groups(items)
    ensures var i := First(items, InGroup(id)); i < |items| && InGroup(id)(items[i]) && Dir(id.0, id.1) <= items[i].key
    ensures SlashFree(id.0) && SlashFree(id.1)
  {
    GroupListed(items, id);
    SplitIsUnder(items[First(items, InGroup(id))].key);
  }

  lemma GroupOrder(items: seq<Item>, a: Id, b: Id)
    requires KeyOrdered(items) && a in Groups(items) && b in Groups(items) && a != b
    ensures GroupFirst(items)(a) < GroupFirst(items)(b) <==> Less(CharCode, Dir(a.0, a.1), Dir(b.0, b.1))
  {
    FirstOfGroup(items, a);
    FirstOfGroup(items, b);
    DirsApart(a, b);
    DirsApart(b, a);
    PrefixFirst(items, Dir(a.0, a.1), Dir(b.0, b.1), First(items, InGroup(a)), First(items, InGroup(b)));
  }

  lemma RunDirsApart(r: string, s: string)
    requires SlashFree(r) && SlashFree(s) && r != s
    ensures !(r + "/" <= s + "/")
  {
    if r + "/" <= s + "/" {
      var x := (s + "/")[|r| + 1..];
      assert s + "/" == r + "/" + x && s + "/" + "" == s + "/";
      SplitAtSlash(s, "", r, x);
    }
  }

  lemma FirstOfRun(items: seq<Item>, run: string)
    requires run in Runs(items)
    ensures var i := First(items, InRun(run)); i < |items| && InRun(run)(items[i]) && run + "/" <= items[i].key
    ensures SlashFree(run)
  {
    RunListed(items, run);
    SplitIsUnder(items[First(items, InRun(run))].key);
  }

  lemma RunOrderByKey(items: seq<Item>, r: string, s: string)
    requires KeyOrdered(items) && r in Runs(items) && s in Runs(items) && r != s
    ensures RunFirst(items)(r) < RunFirst(items)(s) <==> Less(CharCode, r + "/", s + "/")
  {
    FirstOfRun(items, r);
    FirstOfRun(items, s);
    RunDirsApart(r, s);
    RunDirsApart(s, r);
    PrefixFirst(items, r + "/", s + "/", First(items, InRun(r)), First(items, InRun(s)));
  }

  // ------------------------------------------------------------------
  // Ranks can only improve

  lemma SameAhead(items: seq<Item>, plan: set<Id>, a: Id, b: Id)
    requires KeyOrdered(items) && a in Groups(items) && b in Groups(items) && a !in plan && b !in plan
    ensures var rest := Rest(items, plan);
            Ahead(GroupNewest(rest), GroupFirst(rest), a, b) <==> Ahead(GroupNewest(items), GroupFirst(items), a, b)
  {
    var rest := Rest(items, plan);
    GroupAfter(items, plan, a);
    GroupAfter(items, plan, b);
    RestKeyOrdered(items, plan);
    if a != b {
      GroupOrder(items, a, b);
      GroupOrder(rest, a, b);
    }
  }

  lemma CommitRankImproves(items: seq<Item>, plan: set<Id>, id: Id)
    requires KeyOrdered(items) && id in Groups(items) && id !in plan
    ensures id in Groups(Rest(items, plan)) && CommitRank(Rest(items, plan), id) <= CommitRank(items, id)
  {
    var rest := Rest(items, plan);
    GroupAfter(items, plan, id);
    forall other | other in Committed(rest, id.0) && Ahead(GroupNewest(rest), GroupFirst(rest), other, id)
      ensures other in Committed(items, id.0) && Ahead(GroupNewest(items), GroupFirst(items), other, id)
    {
      GroupAfter(items, plan, other);
      SameAhead(items, plan, other, id);
    }
    RankShrinks(Committed(items, id.0), GroupNewest(items), GroupFirst(items),
                Committed(rest, id.0), GroupNewest(rest), GroupFirst(rest), id);
  }

  /** What was kept in a retained run is still worth keeping. */
  lemma KeptStaysKept(items: seq<Item>, plan: set<Id>, cfg: RetentionConfig, now: int, id: Id)
    requires KeyOrdered(items) && id in Groups(items) && id !in plan && !Expendable(items, cfg, now, id)
    ensures id in Groups(Rest(items, plan)) && !Expendable(Rest(items, plan), cfg, now, id)
  {
    GroupAfter(items, plan, id);
    CommitRankImproves(items, plan, id);
  }

  lemma RunAfter(items: seq<Item>, plan: set<Id>, run: string)
    requires run in Runs(Rest(items, plan))
    ensures run in Runs(items) && RunNewest(Rest(items, plan))(run) <= RunNewest(items)(run)
  {
    var rest := Rest(items, plan);
    RunListed(rest, run);
    RunListed(items, run);
    var left := Filter(rest, InRun(run));
    var x :| x in left && x.modified == Latest(left);
    assert x in rest && x in items && x in Filter(items, InRun(run));
  }

  /** The newest object of a run that outlives the pass. */
  ghost predicate NewestKept(items: seq<Item>, plan: set<Id>, run: string)
  {
    exists x :: x in items && InRun(run)(x) && Outside(plan)(x) && x.modified == RunNewest(items)(run)
  }

  lemma NewestKeptIs(items: seq<Item>, plan: set<Id>, run: string)
    requires NewestKept(items, plan, run)
    ensures run in Runs(Rest(items, plan)) && RunNewest(Rest(items, plan))(run) == RunNewest(items)(run)
  {
    var rest := Rest(items, plan);
    var x :| x in items && InRun(run)(x) && Outside(plan)(x) && x.modified == RunNewest(items)(run);
    assert x in rest && x in Filter(rest, InRun(run));
    RunListed(rest, run);
    RunAfter(items, plan, run);
  }

  lemma RunRankImproves(items: seq<Item>, plan: set<Id>, run: string)
    requires KeyOrdered(items) && NewestKept(items, plan, run)
    ensures run in Runs(Rest(items, plan)) && run in Runs(items)
    ensures RunRank(Rest(items, plan), run) <= RunRank(items, run)
  {
    var rest := Rest(items, plan);
    NewestKeptIs(items, plan, run);
    RunAfter(items, plan, run);
    RestKeyOrdered(items, plan);
    forall r | r in Runs(rest) && Ahead(RunNewest(rest), RunFirst(rest), r, run)
      ensures r in Runs(items) && Ahead(RunNewest(items), RunFirst(items), r, run)
    {
      RunAfter(items, plan, r);
      if r != run {
        RunOrderByKey(items, r, run);
        RunOrderByKey(rest, r, run);
      }
    }
    RankShrinks(Runs(items), RunNewest(items), RunFirst(items), Runs(rest), RunNewest(rest), RunFirst(rest), run);
  }

  /** A second pass with the same records and clock finds something to delete
      exactly when a run that still has objects is no longer retained: inside a
      retained run nothing more is ever removed. */
  lemma SecondPassExactly(items: seq<Item>, cfg: RetentionConfig, runs: map<string, RunStatus>, now: int)
    requires KeyOrdered(items)
    ensures var rest := Rest(items, Plan(items, cfg, runs, now));
            Plan(rest, cfg, runs, now) == {} <==> forall run :: run in Runs(rest) ==> Retained(rest, cfg, runs, run)
  {
    var plan := Plan(items, cfg, runs, now);
    var rest := Rest(items, plan);
    forall id | id in Groups(rest) ensures !Expendable(rest, cfg, now, id) {
      GroupAfter(items, plan, id);
      KeptStaysKept(items, plan, cfg, now, id);
    }
    if Plan(rest, cfg, runs, now) == {} {
      forall run | run in Runs(rest) ensures Retained(rest, cfg, runs, run) {
        var id :| id in Groups(rest) && id.0 == run;
        assert id !in Plan(rest, cfg, runs, now);
      }
    }
  }

  /** Retention reaches a fixpoint in one pass when every run that is kept for
      being recent and still has objects has kept its newest one. */
  lemma SecondPassDeletesNothing(items: seq<Item>, cfg: RetentionConfig, runs: map<string, RunStatus>, now: int)
    requires KeyOrdered(items)
    requires var plan := Plan(items, cfg, runs, now);
             forall run :: run in Runs(Rest(items, plan)) && !Sheltered(runs, run) ==> NewestKept(items, plan, run)
    ensures Plan(Rest(items, Plan(items, cfg, runs, now)), cfg, runs, now) == {}
  {
    var plan := Plan(items, cfg, runs, now);
    var rest := Rest(items, plan);
    SecondPassExactly(items, cfg, runs, now);
    forall run | run in Runs(rest) ensures Retained(rest, cfg, runs, run) {
      var id :| id in Groups(rest) && id.0 == run;
      GroupAfter(items, plan, id);
      assert Retained(items, cfg, runs, run);
      if !Sheltered(runs, run) {
        RunAfter(items, plan, run);
        RunRankImproves(items, plan, run);
      }
    }
  }

  // ------------------------------------------------------------------
  // Without the condition a second pass can take a committed checkpoint

  function Object(run: string, ckpt: string, name: string, modified: int): Item
  {
    Item(Dir(run, ckpt) + name, 1, modified)
  }

  /** Run a: a committed checkpoint and a newer abandoned upload; run b: one
      committed checkpoint in between. */
  function Example(): (items: seq<Item>)
    ensures |items| == 3
  {
    [Object("a", "1", "_manifest.json", 1), Object("a", "2", "x", 3), Object("b", "1", "_manifest.json", 2)]
  }

  function ExampleRuns(): map<string, RunStatus>
  {
    map["b" := RunStatus(RunStates.RUNNING, 0, 0, 1, None, None)]
  }

  lemma ObjectId(run: string, ckpt: string, name: string, modified: int)
    requires SlashFree(run) && SlashFree(ckpt)
    ensures IdOf(Object(run, ckpt, name, modified)) == Some((run, ckpt))
  {
    SplitUnder(run, ckpt, name);
  }

  lemma ManifestObject(run: string, ckpt: string, modified: int)
    ensures IsManifest(Object(run, ckpt, "_manifest.json", modified))
  {
    var key := Object(run, ckpt, "_manifest.json", modified).key;
    assert key == run + "/" + ckpt + "/_manifest.json";
    assert key[|key| - 15..] == "/_manifest.json";
  }

  lemma ExampleIds()
    ensures IdOf(Example()[0]) == Some(("a", "1")) && IdOf(Example()[1]) == Some(("a", "2")) && IdOf(Example()[2]) == Some(("b", "1"))
  {
    ObjectId("a", "1", "_manifest.json", 1);
    ObjectId("a", "2", "x", 3);
    ObjectId("b", "1", "_manifest.json", 2);
  }

  lemma ExampleManifests()
    ensures IsManifest(Example()[0]) && !IsManifest(Example()[1]) && IsManifest(Example()[2])
  {
    ManifestObject("a", "1", 1);
    ManifestObject("b", "1", 2);
  }

  lemma ExampleOrdered()
    ensures KeyOrdered(Example())
  {
    var p, q, r := Dir("a", "1"), Dir("a", "2"), Dir("b", "1");
    CommonIs(p, q, 2);
    CommonIs(p, r, 0);
    CommonIs(q, r, 0);
    PrefixesDecide(CharCode, p, q, Example()[0].key, Example()[1].key);
    PrefixesDecide(CharCode, p, r, Example()[0].key, Example()[2].key);
    PrefixesDecide(CharCode, q, r, Example()[1].key, Example()[2].key);
  }

  predicate IdIs(item: Item, id: Id) { IdOf(item) == Some(id) }

  /** The groups of the objects, one by one. */
  ghost predicate HasIds(items: seq<Item>, ids: seq<Id>)
  {
    |ids| == |items| && forall j {:trigger IdIs(items[j], ids[j])} :: 0 <= j < |items| ==> IdIs(items[j], ids[j])
  }

  lemma GroupsAre(items: seq<Item>, ids: seq<Id>)
    requires HasIds(items, ids)
    ensures Groups(items) == set j | 0 <= j < |ids| :: ids[j]
  {
    forall j | 0 <= j < |items| ensures IdOf(items[j]) == Some(ids[j]) {
      assert IdIs(items[j], ids[j]);
    }
  }

  /** The newest object of a run. */
  lemma NewestOfRun(items: seq<Item>, ids: seq<Id>, i: nat, run: string)
    requires HasIds(items, ids) && i < |ids| && ids[i].0 == run
    requires forall j :: 0 <= j < |ids| && ids[j].0 == run ==> items[j].modified <= items[i].modified
    ensures run in Runs(items) && RunNewest(items)(run) == items[i].modified
  {
    assert IdIs(items[i], ids[i]);
    assert InRun(run)(items[i]);
    RunListed(items, run);
    forall x | x in Filter(items, InRun(run)) ensures x.modified <= items[i].modified {
      var j :| 0 <= j < |items| && items[j] == x;
      assert InRun(run)(x) && IdIs(items[j], ids[j]);
    }
    LatestIs(Filter(items, InRun(run)), items[i]);
  }

  lemma LatestIs(items: seq<Item>, x: Item)
    requires x in items && forall y :: y in items ==> y.modified <= x.modified
    ensures Latest(items) == x.modified
  {
  }

  /** The only object of a group is all there is to it. */
  lemma OneObject(items: seq<Item>, ids: seq<Id>, i: nat, id: Id)
    requires HasIds(items, ids) && i < |ids| && ids[i] == id && forall j :: 0 <= j < |ids| && j != i ==> ids[j] != id
    ensures id in Groups(items) && GroupNewest(items)(id) == items[i].modified
    ensures HasManifest(items, id) <==> IsManifest(items[i])
  {
    assert IdIs(items[i], id);
    GroupListed(items, id);
    var group := Filter(items, InGroup(id));
    assert InGroup(id)(items[i]) && items[i] in group;
    forall x | x in group ensures x == items[i] {
      var j :| 0 <= j < |items| && items[j] == x;
      assert IdIs(items[j], ids[j]) && InGroup(id)(x);
    }
  }

  /** Run p.0 has a committed checkpoint and a newer abandoned upload q; run r.0
      was written to in between. */
  ghost predicate Overtaken(items: seq<Item>, p: Id, q: Id, r: Id)
  {
    && |items| == 3 && HasIds(items, [p, q, r])
    && p.0 == q.0 && p != q && p.0 != r.0
    && IsManifest(items[0]) && !IsManifest(items[1]) && IsManifest(items[2])
    && items[0].modified < items[2].modified < items[1].modified
  }

  lemma PlannedIff(items: seq<Item>, cfg: RetentionConfig, runs: map<string, RunStatus>, now: int, id: Id)
    requires id in Groups(items)
    ensures id in Plan(items, cfg, runs, now) <==> !Retained(items, cfg, runs, id.0) || Expendable(items, cfg, now, id)
  {
  }

  lemma TimeOfFirstRun(items: seq<Item>, p: Id, q: Id, r: Id)
    requires Overtaken(items, p, q, r)
    ensures p.0 in Runs(items) && RunNewest(items)(p.0) == items[1].modified
  {
    NewestOfRun(items, [p, q, r], 1, p.0);
  }

  lemma TimeOfSecondRun(items: seq<Item>, p: Id, q: Id, r: Id)
    requires Overtaken(items, p, q, r)
    ensures RunNewest(items)(r.0) == items[2].modified
  {
    NewestOfRun(items, [p, q, r], 2, r.0);
  }

  lemma TwoRuns(items: seq<Item>, p: Id, q: Id, r: Id)
    requires HasIds(items, [p, q, r]) && p.0 == q.0
    ensures forall run :: run in Runs(items) ==> run == p.0 || run == r.0
  {
    GroupsAre(items, [p, q, r]);
  }

  lemma NewestOfTwo(items: seq<Item>, run: string, other: string)
    requires forall r :: r in Runs(items) ==> r == run || r == other
    requires RunNewest(items)(other) < RunNewest(items)(run)
    ensures RunRank(items, run) == 0
  {
    RankOfNewest(Runs(items), RunNewest(items), RunFirst(items), run);
  }

  lemma FirstRunIsTop(items: seq<Item>, p: Id, q: Id, r: Id)
    requires Overtaken(items, p, q, r)
    ensures p.0 in Runs(items) && RunRank(items, p.0) == 0
  {
    TimeOfFirstRun(items, p, q, r);
    TimeOfSecondRun(items, p, q, r);
    TwoRuns(items, p, q, r);
    NewestOfTwo(items, p.0, r.0);
  }

  /** A group with the only manifest of its run is not expendable. */
  lemma SoleKept(items: seq<Item>, id: Id, cfg: RetentionConfig, now: int)
    requires HasManifest(items, id) && cfg.keepCommittedPerRun >= 1
    requires forall other :: other in Committed(items, id.0) ==> other == id
    ensures !Expendable(items, cfg, now, id)
  {
    RankOfNewest(Committed(items, id.0), GroupNewest(items), GroupFirst(items), id);
  }

  lemma ThreeGroups(items: seq<Item>, p: Id, q: Id, r: Id)
    requires HasIds(items, [p, q, r])
    ensures forall id :: id in Groups(items) ==> id == p || id == q || id == r
  {
    GroupsAre(items, [p, q, r]);
  }

  lemma FirstManifest(items: seq<Item>, p: Id, q: Id, r: Id)
    requires Overtaken(items, p, q, r)
    ensures p in Groups(items) && HasManifest(items, p)
  {
    OneObject(items, [p, q, r], 0, p);
  }

  lemma NoUploadManifest(items: seq<Item>, p: Id, q: Id, r: Id)
    requires Overtaken(items, p, q, r)
    ensures !HasManifest(items, q)
  {
    OneObject(items, [p, q, r], 1, q);
  }

  lemma OtherManifest(items: seq<Item>, p: Id, q: Id, r: Id)
    requires Overtaken(items, p, q, r)
    ensures r in Groups(items) && HasManifest(items, r)
  {
    OneObject(items, [p, q, r], 2, r);
  }

  lemma FirstKept(items: seq<Item>, p: Id, q: Id, r: Id, cfg: RetentionConfig, now: int)
    requires Overtaken(items, p, q, r) && cfg.keepCommittedPerRun >= 1
    ensures p in Groups(items) && !Expendable(items, cfg, now, p)
  {
    FirstManifest(items, p, q, r);
    NoUploadManifest(items, p, q, r);
    ThreeGroups(items, p, q, r);
    SoleKept(items, p, cfg, now);
  }

  lemma OtherKept(items: seq<Item>, p: Id, q: Id, r: Id, cfg: RetentionConfig, now: int)
    requires Overtaken(items, p, q, r) && cfg.keepCommittedPerRun >= 1
    ensures r in Groups(items) && !Expendable(items, cfg, now, r)
  {
    OtherManifest(items, p, q, r);
    ThreeGroups(items, p, q, r);
    SoleKept(items, r, cfg, now);
  }

  lemma UploadGoes(items: seq<Item>, p: Id, q: Id, r: Id, cfg: RetentionConfig, now: int)
    requires Overtaken(items, p, q, r) && items[1].modified < now - cfg.orphanGraceSeconds
    ensures q in Groups(items) && Expendable(items, cfg, now, q)
  {
    OneObject(items, [p, q, r], 1, q);
  }

  lemma FirstStays(items: seq<Item>, p: Id, q: Id, r: Id, cfg: RetentionConfig, runs: map<string, RunStatus>, now: int)
    requires Overtaken(items, p, q, r) && cfg.keepRuns == 1 && cfg.keepCommittedPerRun >= 1
    ensures p !in Plan(items, cfg, runs, now)
  {
    FirstRunIsTop(items, p, q, r);
    FirstKept(items, p, q, r, cfg, now);
    PlannedIff(items, cfg, runs, now, p);
  }

  lemma OtherStays(items: seq<Item>, p: Id, q: Id, r: Id, cfg: RetentionConfig, runs: map<string, RunStatus>, now: int)
    requires Overtaken(items, p, q, r) && cfg.keepCommittedPerRun >= 1 && Sheltered(runs, r.0)
    ensures r !in Plan(items, cfg, runs, now)
  {
    OtherKept(items, p, q, r, cfg, now);
    PlannedIff(items, cfg, runs, now, r);
  }

  lemma UploadPlanned(items: seq<Item>, p: Id, q: Id, r: Id, cfg: RetentionConfig, runs: map<string, RunStatus>, now: int)
    requires Overtaken(items, p, q, r) && items[1].modified < now - cfg.orphanGraceSeconds
    ensures q in Plan(items, cfg, runs, now)
  {
    UploadGoes(items, p, q, r, cfg, now);
    PlannedIff(items, cfg, runs, now, q);
  }

  lemma PlannedAmong(items: seq<Item>, ids: seq<Id>, cfg: RetentionConfig, runs: map<string, RunStatus>, now: int)
    requires HasIds(items, ids)
    ensures forall id :: id in Plan(items, cfg, runs, now) ==> id in ids
  {
    GroupsAre(items, ids);
  }

  lemma FirstPass(items: seq<Item>, p: Id, q: Id, r: Id, cfg: RetentionConfig, runs: map<string, RunStatus>, now: int)
    requires Overtaken(items, p, q, r) && cfg.keepRuns == 1 && cfg.keepCommittedPerRun >= 1
    requires Sheltered(runs, r.0) && items[1].modified < now - cfg.orphanGraceSeconds
    ensures Plan(items, cfg, runs, now) == {q}
  {
    FirstStays(items, p, q, r, cfg, runs, now);
    UploadPlanned(items, p, q, r, cfg, runs, now);
    OtherStays(items, p, q, r, cfg, runs, now);
    PlannedAmong(items, [p, q, r], cfg, runs, now);
  }

  lemma FilterThree(items: seq<Item>, p: Item -> bool)
    requires |items| == 3 && p(items[0]) && !p(items[1]) && p(items[2])
    ensures Filter(items, p) == [items[0], items[2]]
  {
    assert items[..2][..1] == items[..1] && items[..1][..0] == [];
    assert Filter(items[..1], p) == [items[0]];
    assert Filter(items[..2], p) == [items[0]];
  }

  lemma RestOfThree(items: seq<Item>, p: Id, q: Id, r: Id)
    requires Overtaken(items, p, q, r)
    ensures Rest(items, {q}) == [items[0], items[2]] && HasIds([items[0], items[2]], [p, r])
  {
    var ids := [p, q, r];
    assert IdIs(items[0], ids[0]) && IdIs(items[1], ids[1]) && IdIs(items[2], ids[2]);
    GroupOutside({q}, p);
    GroupOutside({q}, q);
    GroupOutside({q}, r);
    assert InGroup(p)(items[0]) && InGroup(q)(items[1]) && InGroup(r)(items[2]);
    FilterThree(items, Outside({q}));
  }

  /** Of two groups of different runs only the newer one's run is recent enough. */
  lemma Dropped(rest: seq<Item>, p: Id, r: Id, cfg: RetentionConfig, runs: map<string, RunStatus>, now: int)
    requires |rest| == 2 && HasIds(rest, [p, r]) && p.0 != r.0
    requires rest[0].modified < rest[1].modified && cfg.keepRuns == 1 && !Sheltered(runs, p.0)
    ensures p in Plan(rest, cfg, runs, now) && (HasManifest(rest, p) <==> IsManifest(rest[0]))
  {
    OneObject(rest, [p, r], 0, p);
    Behind(rest, p, r);
    PlannedIff(rest, cfg, runs, now, p);
  }

  lemma OlderTime(rest: seq<Item>, p: Id, r: Id)
    requires |rest| == 2 && HasIds(rest, [p, r]) && p.0 != r.0
    ensures RunNewest(rest)(p.0) == rest[0].modified
  {
    NewestOfRun(rest, [p, r], 0, p.0);
  }

  lemma NewerTime(rest: seq<Item>, p: Id, r: Id)
    requires |rest| == 2 && HasIds(rest, [p, r]) && p.0 != r.0
    ensures r.0 in Runs(rest) && RunNewest(rest)(r.0) == rest[1].modified
  {
    NewestOfRun(rest, [p, r], 1, r.0);
  }

  lemma Behind(rest: seq<Item>, p: Id, r: Id)
    requires |rest| == 2 && HasIds(rest, [p, r]) && p.0 != r.0 && rest[0].modified < rest[1].modified
    ensures RunRank(rest, p.0) >= 1
  {
    OlderTime(rest, p, r);
    NewerTime(rest, p, r);
    RankBehind(Runs(rest), RunNewest(rest), RunFirst(rest), p.0, r.0);
  }

  /** The first pass takes only the abandoned upload; with it goes the run's
      newest object, and the second pass takes the committed checkpoint. */
  lemma SecondPassTakesCommitted(items: seq<Item>, p: Id, q: Id, r: Id, cfg: RetentionConfig, runs: map<string, RunStatus>, now: int)
    requires Overtaken(items, p, q, r) && cfg.keepRuns == 1 && cfg.keepCommittedPerRun >= 1
    requires Sheltered(runs, r.0) && !Sheltered(runs, p.0) && items[1].modified < now - cfg.orphanGraceSeconds
    ensures Plan(items, cfg, runs, now) == {q}
    ensures p in Plan(Rest(items, {q}), cfg, runs, now) && HasManifest(Rest(items, {q}), p)
  {
    FirstPass(items, p, q, r, cfg, runs, now);
    RestOfThree(items, p, q, r);
    Dropped(Rest(items, {q}), p, r, cfg, runs, now);
  }

  lemma ExampleHasIds()
    ensures HasIds(Example(), [("a", "1"), ("a", "2"), ("b", "1")])
  {
    ExampleIds();
  }

  lemma ExampleSheltered()
    ensures Sheltered(ExampleRuns(), "b") && !Sheltered(ExampleRuns(), "a")
  {
  }

  /** There is such a listing, in key order. */
  lemma ExampleOvertaken()
    ensures KeyOrdered(Example()) && Overtaken(Example(), ("a", "1"), ("a", "2"), ("b", "1"))
    ensures Sheltered(ExampleRuns(), "b") && !Sheltered(ExampleRuns(), "a")
  {
    ExampleHasIds();
    ExampleManifests();
    ExampleOrdered();
    ExampleSheltered();
  }
}
