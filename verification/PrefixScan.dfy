/** The etcd adapter's prefix scan: a range request whose upper bound is
    computed from the prefix returns exactly the keys with that prefix, as the
    in-memory store's filter does. */
module PrefixScan {
  import opened Sequences
  import opened LexOrder

  function Code(b: Byte): int { b as int }

  predicate Before(a: Bytes, b: Bytes) { Less(Code, a, b) }

  predicate AllFF(prefix: Bytes)
  {
    forall i :: 0 <= i < |prefix| ==> prefix[i] == 0xFF
  }

  /** Every string with the prefix lies strictly below end. */
  ghost predicate AbovePrefix(prefix: Bytes, end: Bytes)
  {
    forall key: Bytes :: prefix <= key ==> Before(key, end)
  }

  /** The entries whose key starts with the prefix. */
  function WithPrefix(data: map<Bytes, Bytes>, prefix: Bytes): (found: map<Bytes, Bytes>)
  {
    map key | key in data && prefix <= key :: data[key]
  }

  /** The etcd range request: keys from start, below rangeEnd; a range end of
      one zero byte means no upper bound. */
  function Range(data: map<Bytes, Bytes>, start: Bytes, rangeEnd: Bytes): (found: map<Bytes, Bytes>)
  {
    map key | key in data && !Before(key, start) && (rangeEnd == [0] || Before(key, rangeEnd)) :: data[key]
  }

  /** The last byte below 0xFF, incremented, ends the bound. */
  ghost predicate IsBoundAt(prefix: Bytes, end: Bytes, j: nat)
  {
    j < |prefix| && prefix[j] < 0xFF && (forall i :: j < i < |prefix| ==> prefix[i] == 0xFF)
    && end == prefix[..j] + [prefix[j] + 1]
  }

  /** What the computed range end is. */
  ghost predicate IsEnd(prefix: Bytes, end: Bytes)
  {
    if AllFF(prefix) then end == [0] else exists j: nat :: IsBoundAt(prefix, end, j)
  }

  method PrefixEnd(prefix: Bytes) returns (end: Bytes)
    ensures IsEnd(prefix, end)
    ensures AllFF(prefix) ==> end == [0]
    ensures !AllFF(prefix) ==> forall key: Bytes :: prefix <= key <==> !Before(key, prefix) && Before(key, end)
    ensures !AllFF(prefix) ==> AbovePrefix(prefix, end) && forall b: Bytes :: AbovePrefix(prefix, b) ==> !Before(b, end)
  {
    var buffer := new Byte[|prefix|](i requires 0 <= i < |prefix| => prefix[i]);
    var index := |prefix|;
    while index > 0
      invariant 0 <= index <= |prefix|
      invariant buffer[..] == prefix
      invariant forall i :: index <= i < |prefix| ==> prefix[i] == 0xFF
    {
      index := index - 1;
      if buffer[index] < 0xFF {
        buffer[index] := buffer[index] + 1;
        end := buffer[..index + 1];
        assert end == prefix[..index] + [prefix[index] + 1];
        assert IsBoundAt(prefix, end, index);
        BoundExact(prefix, end, index);
        return;
      }
    }
    end := [0];
  }

  lemma BoundExact(prefix: Bytes, end: Bytes, j: nat)
    requires IsBoundAt(prefix, end, j)
    ensures !AllFF(prefix)
    ensures forall key: Bytes :: prefix <= key <==> !Before(key, prefix) && Before(key, end)
    ensures AbovePrefix(prefix, end)
    ensures forall b: Bytes :: AbovePrefix(prefix, b) ==> !Before(b, end)
  {
    assert prefix[j] != 0xFF;
    forall key: Bytes ensures prefix <= key <==> !Before(key, prefix) && Before(key, end)
    {
      if prefix <= key {
        InRange(prefix, end, j, key);
      } else if !Before(key, prefix) {
        OutOfRange(prefix, end, j, key);
      }
    }
    forall b: Bytes | AbovePrefix(prefix, b) ensures !Before(b, end)
    {
      BoundLeast(prefix, end, j, b);
    }
  }

  lemma InRange(prefix: Bytes, end: Bytes, j: nat, key: Bytes)
    requires IsBoundAt(prefix, end, j) && prefix <= key
    ensures !Before(key, prefix) && Before(key, end)
  {
    CommonIs(key, prefix, |prefix|);
    assert key[..j] == prefix[..j] == end[..j];
    CommonIs(key, end, j);
  }

  lemma OutOfRange(prefix: Bytes, end: Bytes, j: nat, key: Bytes)
    requires IsBoundAt(prefix, end, j) && !(prefix <= key) && !Before(key, prefix)
    ensures !Before(key, end)
  {
    var n := Common(key, prefix);
    assert n < |prefix| && n < |key| && prefix[n] < key[n];
    assert key[..n] == prefix[..n] == end[..n];
    if n < j || key[j] != end[j] {
      CommonIs(key, end, n);
    } else {
      assert key[..j + 1] == end;
      CommonIs(key, end, |end|);
    }
  }

  /** A bound of all strings with the prefix is no smaller than end. */
  lemma BoundLeast(prefix: Bytes, end: Bytes, j: nat, b: Bytes)
    requires IsBoundAt(prefix, end, j) && AbovePrefix(prefix, b)
    ensures !Before(b, end)
  {
    CommonIs(b, b, |b|);
    assert prefix <= b ==> Before(b, b);
    assert Before(prefix, b);
    LessIsAsymmetric(Code, prefix, b);
    OutOfRange(prefix, end, j, b);
  }

  /** With no upper bound, the keys from an all-0xFF prefix on are those that
      start with it. */
  lemma FromAllFF(prefix: Bytes, key: Bytes)
    requires AllFF(prefix)
    ensures !Before(key, prefix) <==> prefix <= key
  {
    var n := Common(key, prefix);
    if prefix <= key {
      CommonIs(key, prefix, |prefix|);
    } else if n < |key| {
      assert prefix[..|prefix|] == prefix;
      assert prefix[n] == 0xFF && key[n] < 0xFF;
    }
  }

  /** The two stores agree: over the same data the range request and the filter
      find the same entries, for every prefix a range request can start with. */
  lemma RangeIsFilter(data: map<Bytes, Bytes>, prefix: Bytes, end: Bytes)
    requires prefix != [] && IsEnd(prefix, end)
    ensures Range(data, prefix, end) == WithPrefix(data, prefix)
  {
    if AllFF(prefix) {
      forall key: Bytes { FromAllFF(prefix, key); }
    } else {
      var j: nat :| IsBoundAt(prefix, end, j);
      BoundExact(prefix, end, j);
      BoundNotZero(prefix, end);
    }
  }

  /** The fallback store: a dictionary filtered by prefix. */
  class InMemoryKVStore {
    var data: map<Bytes, Bytes>

    constructor ()
      ensures data == map[]
    {
      data := map[];
    }

    method Put(key: Bytes, value: Bytes)
      modifies this
      ensures data == old(data)[key := value]
    {
      data := data[key := value];
    }

    /** Every entry is looked at; those whose key starts with the prefix are kept. */
    method GetPrefix(prefix: Bytes) returns (found: map<Bytes, Bytes>)
      ensures forall key :: key in found <==> key in data && prefix <= key
      ensures forall key :: key in found ==> found[key] == data[key]
      ensures found == WithPrefix(data, prefix)
    {
      found := map[];
      var left := data.Keys;
      while left != {}
        invariant left <= data.Keys
        invariant forall key :: key in found <==> key in data && key !in left && prefix <= key
        invariant forall key :: key in found ==> found[key] == data[key]
      {
        var key :| key in left;
        left := left - {key};
        if prefix <= key { found := found[key := data[key]]; }
      }
    }
  }

  /** The etcd adapter: one range request per prefix. */
  class EtcdKVStore {
    var data: map<Bytes, Bytes>

    constructor ()
      ensures data == map[]
    {
      data := map[];
    }

    method Put(key: Bytes, value: Bytes)
      modifies this
      ensures data == old(data)[key := value]
    {
      data := data[key := value];
    }

    method GetPrefix(prefix: Bytes) returns (found: map<Bytes, Bytes>)
      requires prefix != []
      ensures found == WithPrefix(data, prefix)
    {
      var rangeEnd := PrefixEnd(prefix);
      RangeIsFilter(data, prefix, rangeEnd);
      found := Range(data, prefix, rangeEnd);
    }
  }

  /** A computed bound is never mistaken for etcd's unbounded range end. */
  lemma BoundNotZero(prefix: Bytes, end: Bytes)
    requires !AllFF(prefix) && AbovePrefix(prefix, end)
    ensures end != [0]
  {
    assert Before(prefix, end);
  }
}
