/** Lexicographic order of byte and character strings, by element code. */
module LexOrder {

  /** Length of the longest common prefix. */
  function Common<T(==)>(a: seq<T>, b: seq<T>): (n: nat)
    ensures n <= |a| && n <= |b| && a[..n] == b[..n]
    ensures n < |a| && n < |b| ==> a[n] != b[n]
  {
    if a == [] || b == [] || a[0] != b[0] then 0
    else
      var n := Common(a[1..], b[1..]);
      assert a[..n + 1] == [a[0]] + a[1..][..n] && b[..n + 1] == [b[0]] + b[1..][..n];
      n + 1
  }

  /** a comes strictly before b. */
  predicate Less<T(==)>(code: T -> int, a: seq<T>, b: seq<T>)
  {
    var n := Common(a, b);
    n < |b| && (n == |a| || code(a[n]) < code(b[n]))
  }

  lemma SamePrefix<T>(a: seq<T>, b: seq<T>, n: nat)
    requires n <= |a| && n <= |b| && a[..n] == b[..n]
    ensures forall i :: 0 <= i < n ==> a[i] == b[i]
  {
    forall i | 0 <= i < n ensures a[i] == b[i] {
      assert a[..n][i] == b[..n][i];
    }
  }

  /** The first position where two strings part is their common length. */
  lemma CommonIs<T>(a: seq<T>, b: seq<T>, n: nat)
    requires n <= |a| && n <= |b| && a[..n] == b[..n]
    requires n == |a| || n == |b| || a[n] != b[n]
    ensures Common(a, b) == n
  {
    var m := Common(a, b);
    SamePrefix(a, b, n);
    SamePrefix(a, b, m);
  }

  /** Strings starting with p and with q compare as p and q do, when neither
      of p and q is a prefix of the other. */
  lemma PrefixesDecide<T>(code: T -> int, p: seq<T>, q: seq<T>, a: seq<T>, b: seq<T>)
    requires !(p <= q) && !(q <= p)
    requires p <= a && q <= b
    ensures Less(code, a, b) <==> Less(code, p, q)
  {
    var n := Common(p, q);
    assert p[..|p|] == p && q[..|q|] == q;
    assert n < |p| && n < |q|;
    assert a[..n] == p[..n] == q[..n] == b[..n];
    CommonIs(a, b, n);
  }

  lemma LessIsAsymmetric<T>(code: T -> int, a: seq<T>, b: seq<T>)
    requires Less(code, a, b)
    ensures !Less(code, b, a)
  {
    var n := Common(a, b);
    CommonIs(b, a, n);
  }
}
