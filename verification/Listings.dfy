/** A bucket listing seen as groups: which checkpoint and run each object
    belongs to, how new a group is, and where it is first met. */
module Listings {
  import opened Sequences
  import opened ObjectKeys

  datatype Item = Item(key: string, size: nat, modified: int)

  type Id = (string, string)

  /** Run and checkpoint of an object; None with fewer than three segments. */
  function IdOf(item: Item): (id: Option<Id>)
  {
    var parts := SplitKey(item.key);
    if parts.None? then None else Some((parts.value.0, parts.value.1))
  }

  function InGroup(id: Id): Item -> bool { (item: Item) => IdOf(item) == Some(id) }

  function InRun(run: string): Item -> bool { (item: Item) => IdOf(item).Some? && IdOf(item).value.0 == run }

  function Among(ids: set<Id>): Item -> bool { (item: Item) => IdOf(item).Some? && IdOf(item).value in ids }

  function Filter(items: seq<Item>, p: Item -> bool): (kept: seq<Item>)
    ensures forall x :: x in kept <==> x in items && p(x)
  {
    if items == [] then []
    else
      var last := |items| - 1;
      assert items == items[..last] + [items[last]];
      if p(items[last]) then Filter(items[..last], p) + [items[last]] else Filter(items[..last], p)
  }

  /** The newest modification time; zero for an empty list. */
  function Latest(items: seq<Item>): (time: int)
    ensures forall x :: x in items ==> x.modified <= time
    ensures items != [] ==> exists x :: x in items && x.modified == time
  {
    if items == [] then 0
    else
      var last := items[|items| - 1];
      var before := items[..|items| - 1];
      assert items == before + [last];
      assert last in items;
      if before == [] || Latest(before) <= last.modified then last.modified else Latest(before)
  }

  ghost predicate IsFirst(items: seq<Item>, p: Item -> bool, pos: nat)
  {
    && pos <= |items| && (pos < |items| ==> p(items[pos]))
    && forall i :: 0 <= i < pos ==> !p(items[i])
  }

  lemma {:induction false} FirstExists(items: seq<Item>, p: Item -> bool)
    ensures exists pos: nat :: IsFirst(items, p, pos)
  {
    if items == [] || p(items[0]) {
      assert IsFirst(items, p, 0);
    } else {
      FirstExists(items[1..], p);
      var pos: nat :| IsFirst(items[1..], p, pos);
      assert forall i :: 0 < i < |items| ==> items[i] == items[1..][i - 1];
      assert IsFirst(items, p, pos + 1);
    }
  }

  /** Position of the first such item; the length when there is none. */
  ghost function First(items: seq<Item>, p: Item -> bool): (pos: nat)
    ensures IsFirst(items, p, pos)
  {
    FirstExists(items, p);
    var pos: nat :| IsFirst(items, p, pos);
    pos
  }

  function Groups(items: seq<Item>): (ids: set<Id>)
  {
    set i | 0 <= i < |items| && IdOf(items[i]).Some? :: IdOf(items[i]).value
  }

  function Runs(items: seq<Item>): (runs: set<string>)
  {
    set id | id in Groups(items) :: id.0
  }

  predicate IsManifest(item: Item) { EndsWith(item.key, "/_manifest.json") }

  ghost predicate HasManifest(items: seq<Item>, id: Id)
  {
    exists x :: x in Filter(items, InGroup(id)) && IsManifest(x)
  }

  function GroupNewest(items: seq<Item>): Id -> int
  {
    id => Latest(Filter(items, InGroup(id)))
  }

  ghost function GroupFirst(items: seq<Item>): Id -> nat
  {
    id => First(items, InGroup(id))
  }

  function RunNewest(items: seq<Item>): string -> int
  {
    run => Latest(Filter(items, InRun(run)))
  }

  ghost function RunFirst(items: seq<Item>): string -> nat
  {
    run => First(items, InRun(run))
  }

  /** Something of the group is listed exactly when its first position exists. */
  lemma GroupListed(items: seq<Item>, id: Id)
    ensures id in Groups(items) <==> First(items, InGroup(id)) < |items|
    ensures id in Groups(items) <==> Filter(items, InGroup(id)) != []
  {
    if id in Groups(items) {
      var i :| 0 <= i < |items| && IdOf(items[i]) == Some(id);
      assert InGroup(id)(items[i]);
    }
    if Filter(items, InGroup(id)) != [] {
      assert Filter(items, InGroup(id))[0] in items;
    }
  }

  lemma RunListed(items: seq<Item>, run: string)
    ensures run in Runs(items) <==> First(items, InRun(run)) < |items|
    ensures run in Runs(items) <==> Filter(items, InRun(run)) != []
  {
    if run in Runs(items) {
      var id :| id in Groups(items) && id.0 == run;
      var i :| 0 <= i < |items| && IdOf(items[i]) == Some(id);
      assert InRun(run)(items[i]);
    }
    if First(items, InRun(run)) < |items| {
      var i := First(items, InRun(run));
      assert IdOf(items[i]).value in Groups(items);
    }
    if Filter(items, InRun(run)) != [] {
      var x := Filter(items, InRun(run))[0];
      assert x in items && InRun(run)(x);
    }
  }
}
