/** Byte strings, and the two ways the data path regroups them: joining a list
    of chunks, and cutting a sequence into slices of one fixed size. */
module Sequences {

  newtype Byte = x: int | 0 <= x < 256

  type Bytes = seq<Byte>

  datatype Option<+T> = None | Some(value: T)

  /** A result as the service returns it: a value, or an error message. */
  datatype Outcome<+T> = Ok(value: T) | Err(message: string)

  /** The chunks one after the other. */
  function Join<T>(parts: seq<seq<T>>): (joined: seq<T>)
  {
    if parts == [] then [] else parts[0] + Join(parts[1..])
  }

  /** The sequence cut into slices of n elements; only the last may be shorter. */
  function Slices<T>(s: seq<T>, n: nat): (slices: seq<seq<T>>)
    requires n > 0
    decreases |s|
  {
    if s == [] then []
    else if |s| <= n then [s]
    else [s[..n]] + Slices(s[n..], n)
  }

  /** Parts of at most n elements, none empty, and all but the last full. */
  ghost predicate Regular<T>(parts: seq<seq<T>>, n: nat)
  {
    forall i :: 0 <= i < |parts| ==>
                  1 <= |parts[i]| <= n && (i + 1 < |parts| ==> |parts[i]| == n)
  }

  lemma {:induction false} JoinAppend<T>(a: seq<seq<T>>, b: seq<seq<T>>)
    ensures Join(a + b) == Join(a) + Join(b)
  {
    if a == [] {
      assert a + b == b;
    } else {
      JoinAppend(a[1..], b);
      assert (a + b)[0] == a[0] && (a + b)[1..] == a[1..] + b;
      assert a[0] + (Join(a[1..]) + Join(b)) == a[0] + Join(a[1..]) + Join(b);
    }
  }

  lemma JoinPush<T>(parts: seq<seq<T>>, last: seq<T>)
    ensures Join(parts + [last]) == Join(parts) + last
  {
    JoinAppend(parts, [last]);
    assert Join([last]) == last + Join([]);
  }

  lemma {:induction false} SlicesJoin<T>(s: seq<T>, n: nat)
    requires n > 0
    ensures Join(Slices(s, n)) == s
    decreases |s|
  {
    if |s| > n {
      SlicesJoin(s[n..], n);
      assert Slices(s, n)[1..] == Slices(s[n..], n);
    } else if s != [] {
      assert Join([s]) == s + Join([]);
    }
  }

  lemma {:induction false} SlicesRegular<T>(s: seq<T>, n: nat)
    requires n > 0
    ensures Regular(Slices(s, n), n)
    decreases |s|
  {
    if |s| > n {
      SlicesRegular(s[n..], n);
    }
  }

  /** Slice i starts at i * n, and there are as many as it takes to cover s. */
  lemma {:induction false} SliceAt<T>(s: seq<T>, n: nat, i: nat)
    requires n > 0 && i < |Slices(s, n)|
    ensures i * n < |s|
    ensures Slices(s, n)[i] == s[i * n..if (i + 1) * n <= |s| then (i + 1) * n else |s|]
    ensures i + 1 == |Slices(s, n)| <==> |s| <= (i + 1) * n
    decreases |s|
  {
    if |s| > n && i > 0 {
      SliceAt(s[n..], n, i - 1);
      assert (i - 1) * n + n == i * n && i * n + n == (i + 1) * n;
      var hi := if (i + 1) * n <= |s| then (i + 1) * n else |s|;
      assert s[n..][i * n - n..hi - n] == s[i * n..hi];
    } else if |s| > n {
      assert Slices(s, n)[0] == s[..n];
      assert |Slices(s[n..], n)| >= 1;
    }
  }

  /** The bytes before slice i are exactly the i * n first ones. */
  lemma {:induction false} SlicesBefore<T>(s: seq<T>, n: nat, i: nat)
    requires n > 0 && i < |Slices(s, n)|
    ensures |Join(Slices(s, n)[..i])| == i * n
    decreases |s|
  {
    if i > 0 {
      assert |s| > n;
      SlicesBefore(s[n..], n, i - 1);
      assert Slices(s, n)[..i][1..] == Slices(s[n..], n)[..i - 1];
      assert (i - 1) * n + n == i * n;
    }
  }

  /** The regular grouping of a sequence is unique: however the parts came
      about, they are the fixed-size slices of what they add up to. */
  lemma {:induction false} RegularUnique<T>(parts: seq<seq<T>>, n: nat)
    requires n > 0 && Regular(parts, n)
    ensures parts == Slices(Join(parts), n)
    decreases |parts|
  {
    if |parts| == 1 {
      assert Join(parts) == parts[0] + Join(parts[1..]) == parts[0];
      assert parts == [parts[0]];
    } else if |parts| > 1 {
      var rest := parts[1..];
      RegularUnique(rest, n);
      assert |parts[0]| == n && Join(parts) == parts[0] + Join(rest);
      assert Join(rest) == rest[0] + Join(rest[1..]);
      assert Join(parts)[..n] == parts[0] && Join(parts)[n..] == Join(rest);
    }
  }
}
