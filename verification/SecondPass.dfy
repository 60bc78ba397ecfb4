/** Two retention passes in a row over one bucket. */
module SecondPass {
  import opened Sequences
  import opened ObjectKeys
  import opened ObjectStore
  import opened Coordinator
  import opened DataPlane
  import opened Protocol
  import opened Listings
  import opened Retention
  import opened RetentionFixpoint

  lemma OutsideIsUnplanned(plan: set<Id>, x: Item)
    ensures Outside(plan)(x) <==> !InPlan(x.key, plan)
  {
    assert Among(plan)(x) <==> IdOf(x).Some? && IdOf(x).value in plan;
  }

  /** What is left of the listing is a listing of what is left in the bucket. */
  lemma RestListsBucket(bucket: Bucket, items: seq<Item>, plan: set<Id>)
    requires Lists(bucket, items)
    ensures Lists(WithoutObjects(bucket, plan), Rest(items, plan))
  {
    var places := FilterPlaces(items, Outside(plan));
    var rest, left := Rest(items, plan), WithoutObjects(bucket, plan);
    forall x: Item ensures x in rest <==> x in items && !InPlan(x.key, plan) { OutsideIsUnplanned(plan, x); }
    forall k | k in left ensures exists x :: x in rest && x.key == k {
      var x :| x in items && x.key == k;
      assert x in rest;
    }
  }

  /** Removing a nonempty plan takes an object out of the bucket. */
  lemma PlanTakesObject(bucket: Bucket, items: seq<Item>, plan: set<Id>, id: Id) returns (key: string)
    requires Lists(bucket, items) && id in plan && id in Groups(items)
    ensures key in bucket && key !in WithoutObjects(bucket, plan)
  {
    GroupListed(items, id);
    var x := Filter(items, InGroup(id))[0];
    assert x in Filter(items, InGroup(id));
    key := x.key;
  }

  /** A second error-free pass over the bucket that the first one leaves, at the
      same time, with the same records and a listing by key, finds every object
      where it was, if and only if each run that still has objects is still
      retained. */
  lemma SecondPassOfBucket(bucket: Bucket, items: seq<Item>, cfg: RetentionConfig, runs: map<string, RunStatus>, now: int)
    requires Lists(bucket, items) && KeyOrdered(items)
    ensures var plan := Plan(items, cfg, runs, now);
            var left, rest := WithoutObjects(bucket, plan), Rest(items, plan);
            && Lists(left, rest) && KeyOrdered(rest)
            && (WithoutObjects(left, Plan(rest, cfg, runs, now)) == left <==> forall run :: run in Runs(rest) ==> Retained(rest, cfg, runs, run))
  {
    var plan := Plan(items, cfg, runs, now);
    var left, rest := WithoutObjects(bucket, plan), Rest(items, plan);
    var second := Plan(rest, cfg, runs, now);
    RestListsBucket(bucket, items, plan);
    RestKeyOrdered(items, plan);
    SecondPassExactly(items, cfg, runs, now);
    if id :| id in second { var key := PlanTakesObject(left, rest, second, id); }
    if second == {} { assert WithoutObjects(left, second) == left; }
  }

  /** The pass run twice, over the listing by key of what is there each time. */
  method RunTwice(manager: CheckpointRetentionManager, items: seq<Item>, rest: seq<Item>, now: int)
    returns (first: Outcome<RetentionResult>, second: Outcome<RetentionResult>)
    requires Lists(manager.s3.objects, items) && KeyOrdered(items)
    requires rest == Rest(items, Plan(items, manager.config, manager.coordinator.runs, now))
    modifies manager.s3`objects, manager.coordinator`checkpoints
    ensures first.Ok? && second.Ok? ==>
              (manager.s3.objects == WithoutObjects(old(manager.s3.objects), Plan(items, manager.config, manager.coordinator.runs, now))
               <==> forall run :: run in Runs(rest) ==> Retained(rest, manager.config, manager.coordinator.runs, run))
    ensures manager.s3.reliable ==> first.Ok? && second.Ok?
    ensures first.Ok? && second.Ok? ==>
              (second.value.checkpointsDeleted == 0
               <==> forall run :: run in Runs(rest) ==> Retained(rest, manager.config, manager.coordinator.runs, run))
  {
    SecondPassOfBucket(manager.s3.objects, items, manager.config, manager.coordinator.runs, now);
    SecondPassExactly(items, manager.config, manager.coordinator.runs, now);
    ghost var batches;
    first, batches := manager.RunOnce(items, now);
    second := first;
    if first.Ok? {
      second, batches := manager.RunOnce(rest, now);
    }
  }
}
