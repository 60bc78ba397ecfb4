/** Keeping the newest N: a stable newest-first sort, and the fact that the
    place of an entry is the number of entries ahead of it. */
module Ranking {

  /** a goes before b: it is newer, or as new and found earlier. */
  ghost predicate Ahead<T(!new)>(newest: T -> int, at: T -> nat, a: T, b: T)
  {
    newest(a) > newest(b) || (newest(a) == newest(b) && at(a) < at(b))
  }

  ghost predicate Ranked<T(!new)>(newest: T -> int, at: T -> nat, s: seq<T>)
  {
    forall i, j :: 0 <= i < j < |s| ==> Ahead(newest, at, s[i], s[j])
  }

  /** In order of discovery. */
  ghost predicate Rising<T(!new)>(at: T -> nat, s: seq<T>)
  {
    forall i, j :: 0 <= i < j < |s| ==> at(s[i]) < at(s[j])
  }

  lemma RisingNext<T(!new)>(at: T -> nat, s: seq<T>, x: T)
    requires Rising(at, s) && forall y :: y in s ==> at(y) < at(x)
    ensures Rising(at, s + [x])
  {
  }

  /** list.sort by time, newest first; entries as new as each other stay in order. */
  method NewestFirst<T(==, !new)>(xs: seq<T>, key: T -> int, ghost newest: T -> int, ghost at: T -> nat) returns (s: seq<T>)
    requires Rising(at, xs) && forall x :: x in xs ==> key(x) == newest(x)
    ensures Ranked(newest, at, s) && |s| == |xs| && forall x :: x in s <==> x in xs
  {
    s := [];
    for i := 0 to |xs|
      invariant |s| == i && Ranked(newest, at, s)
      invariant forall x :: x in s <==> x in xs[..i]
    {
      assert xs[..i + 1] == xs[..i] + [xs[i]];
      assert xs[i] in xs;
      forall k | 0 <= k < |s| ensures at(s[k]) < at(xs[i]) && key(s[k]) == newest(s[k]) {
        assert s[k] in xs[..i];
        var m :| 0 <= m < i && xs[m] == s[k];
      }
      var j := |s|;
      while j > 0 && key(s[j - 1]) < key(xs[i])
        invariant 0 <= j <= |s|
        invariant forall k :: j <= k < |s| ==> newest(s[k]) < newest(xs[i])
      {
        j := j - 1;
      }
      Inserted(newest, at, s, j, xs[i]);
      s := s[..j] + [xs[i]] + s[j..];
    }
    assert xs[..|xs|] == xs;
  }

  lemma Inserted<T(!new)>(newest: T -> int, at: T -> nat, s: seq<T>, j: nat, x: T)
    requires Ranked(newest, at, s) && j <= |s|
    requires forall k :: 0 <= k < |s| ==> at(s[k]) < at(x)
    requires forall k :: j <= k < |s| ==> newest(s[k]) < newest(x)
    requires j > 0 ==> newest(s[j - 1]) >= newest(x)
    ensures Ranked(newest, at, s[..j] + [x] + s[j..])
  {
    assert forall k :: 0 <= k < j ==> k == j - 1 || Ahead(newest, at, s[k], s[j - 1]);
  }

  function Elements<T>(s: seq<T>): set<T> { set x | x in s }

  /** How many of these entries are ahead of x. */
  ghost function Rank<T(!new)>(all: set<T>, newest: T -> int, at: T -> nat, x: T): nat
  {
    |set y | y in all && Ahead(newest, at, y, x)|
  }

  /** In a ranked sequence the entry at place i has i entries ahead of it. */
  lemma PlaceIsRank<T(!new)>(newest: T -> int, at: T -> nat, s: seq<T>, i: nat)
    requires Ranked(newest, at, s) && i < |s|
    ensures Rank(Elements(s), newest, at, s[i]) == i
  {
    assert forall j :: i < j < |s| ==> Ahead(newest, at, s[i], s[j]);
    var all := Elements(s);
    assert (set y | y in all && Ahead(newest, at, y, s[i])) == Elements(s[..i]) by {
      forall y | y in s && Ahead(newest, at, y, s[i]) ensures y in s[..i] {
        var j :| 0 <= j < |s| && s[j] == y;
        assert s[..i][j] == y;
      }
    }
    CountDistinct(s[..i]);
  }

  lemma {:induction false} FewerElements<T>(a: set<T>, b: set<T>)
    requires a <= b
    ensures |a| <= |b|
    decreases a
  {
    if x :| x in a { FewerElements(a - {x}, b - {x}); }
  }

  /** An entry newer than all others is ahead of them. */
  lemma RankOfNewest<T(!new)>(all: set<T>, newest: T -> int, at: T -> nat, x: T)
    requires forall y :: y in all && y != x ==> newest(y) < newest(x)
    ensures Rank(all, newest, at, x) == 0
  {
    assert (set y | y in all && Ahead(newest, at, y, x)) == {};
  }

  lemma RankBehind<T(!new)>(all: set<T>, newest: T -> int, at: T -> nat, x: T, y: T)
    requires y in all && newest(x) < newest(y)
    ensures Rank(all, newest, at, x) >= 1
  {
    FewerElements({y}, set z | z in all && Ahead(newest, at, z, x));
  }

  /** A rank does not grow when no entry newly comes to be ahead. */
  lemma RankShrinks<T(!new)>(all: set<T>, newest: T -> int, at: T -> nat, all': set<T>, newest': T -> int, at': T -> nat, x: T)
    requires forall y :: y in all' && Ahead(newest', at', y, x) ==> y in all && Ahead(newest, at, y, x)
    ensures Rank(all', newest', at', x) <= Rank(all, newest, at, x)
  {
    FewerElements((set y | y in all' && Ahead(newest', at', y, x)), (set y | y in all && Ahead(newest, at, y, x)));
  }

  lemma {:induction false} CountDistinct<T>(s: seq<T>)
    requires forall i, j :: 0 <= i < j < |s| ==> s[i] != s[j]
    ensures |Elements(s)| == |s|
  {
    if s != [] {
      var last := |s| - 1;
      CountDistinct(s[..last]);
      assert Elements(s) == Elements(s[..last]) + {s[last]};
    }
  }

  /** The first n places are those with fewer than n entries ahead, and an entry
      has only one place. */
  lemma FirstPlaces<T(!new)>(newest: T -> int, at: T -> nat, s: seq<T>, n: nat, x: T)
    requires Ranked(newest, at, s) && x in s && n <= |s|
    ensures x in s[..n] <==> Rank(Elements(s), newest, at, x) < n
    ensures x in s[n..] <==> Rank(Elements(s), newest, at, x) >= n
    ensures Rank(Elements(s), newest, at, x) < |s|
  {
    var i :| 0 <= i < |s| && s[i] == x;
    forall j | 0 <= j < |s| ensures Rank(Elements(s), newest, at, s[j]) == j {
      PlaceIsRank(newest, at, s, j);
    }
    assert forall j :: 0 <= j < n ==> s[..n][j] == s[j];
    assert forall j :: n <= j < |s| ==> s[n..][j - n] == s[j];
  }

  /** The first i entries, parted by a property and each part still in order. */
  ghost predicate SplitUpTo<T(!new)>(has: T -> bool, at: T -> nat, xs: seq<T>, i: nat, yes: seq<T>, no: seq<T>)
    requires i <= |xs|
  {
    && (forall x :: x in yes <==> x in xs[..i] && has(x))
    && (forall x :: x in no <==> x in xs[..i] && !has(x))
    && Rising(at, yes) && Rising(at, no)
  }

  lemma SplitNext<T(!new)>(has: T -> bool, at: T -> nat, xs: seq<T>, i: nat, yes: seq<T>, no: seq<T>)
    requires i < |xs| && Rising(at, xs) && SplitUpTo(has, at, xs, i, yes, no)
    ensures has(xs[i]) ==> SplitUpTo(has, at, xs, i + 1, yes + [xs[i]], no)
    ensures !has(xs[i]) ==> SplitUpTo(has, at, xs, i + 1, yes, no + [xs[i]])
  {
    assert xs[..i + 1] == xs[..i] + [xs[i]];
    RisesOn(at, xs, i, yes);
    RisesOn(at, xs, i, no);
  }

  lemma RisesOn<T(!new)>(at: T -> nat, xs: seq<T>, i: nat, part: seq<T>)
    requires i < |xs| && Rising(at, xs) && Rising(at, part)
    requires forall x :: x in part ==> x in xs[..i]
    ensures Rising(at, part + [xs[i]])
  {
    forall k | 0 <= k < |part| ensures at(part[k]) < at(xs[i]) {
      assert part[k] in xs[..i];
      var m :| 0 <= m < i && xs[m] == part[k];
    }
  }
}
