/** The Badger store as the broker uses it: a map from byte strings to byte strings whose
    iterators visit keys in lexicographic order under a prefix. */
module KeyValue {
  import opened Bytes

  type Kv = map<Bytes, Bytes>

  class Badger {
    var kv: Kv

    constructor ()
      ensures kv == map[]
    {
      kv := map[];
    }
  }

  function Under(kv: Kv, start: Bytes, prefix: Bytes): (ks: set<Bytes>)
  {
    set k | k in kv && IsPrefix(prefix, k) && AtMost(start, k)
  }

  predicate Ascending(keys: seq<Bytes>)
  {
    forall i, j :: 0 <= i < j < |keys| ==> Less(keys[i], keys[j])
  }

  /** The contract of an iterator opened at `start` with option Prefix: the matching keys, ascending. */
  ghost predicate IsScan(keys: seq<Bytes>, kv: Kv, start: Bytes, prefix: Bytes)
  {
    && Ascending(keys)
    && (forall k :: k in keys <==> k in Under(kv, start, prefix))
  }

  /** The contract leaves no freedom: two scans of the same store from the same place list the same keys. */
  lemma ScanUnique(a: seq<Bytes>, b: seq<Bytes>, kv: Kv, start: Bytes, prefix: Bytes)
    requires IsScan(a, kv, start, prefix) && IsScan(b, kv, start, prefix)
    ensures a == b
  {
    forall k ensures k in a <==> k in b { assert k in a <==> k in Under(kv, start, prefix); }
    SameList(a, b);
  }

  /** The first key is below all others. */
  lemma FirstIsLeast(a: seq<Bytes>, k: Bytes)
    requires Ascending(a) && a != [] && k in a && k != a[0]
    ensures Less(a[0], k) && !Less(k, a[0])
  {
    var i :| 0 <= i < |a| && a[i] == k;
    assert Less(a[0], a[i]);
    if Less(k, a[0]) {
      LessTransitive(k, a[0], k);
      LessIrreflexive(k);
    }
  }

  lemma TailKeys(a: seq<Bytes>, k: Bytes)
    requires Ascending(a) && a != []
    ensures Ascending(a[1..]) && (k in a[1..] <==> k in a && k != a[0])
  {
    assert a == [a[0]] + a[1..];
    if a[0] in a[1..] {
      var i :| 0 <= i < |a[1..]| && a[1..][i] == a[0];
      assert Less(a[0], a[i + 1]);
      LessIrreflexive(a[0]);
    }
  }

  lemma NoneIsEmpty(a: seq<Bytes>, b: seq<Bytes>)
    requires forall k :: k in a <==> k in b
    ensures a == [] <==> b == []
  {
    assert a != [] ==> a[0] in b;
    assert b != [] ==> b[0] in a;
  }

  lemma {:induction false} SameList(a: seq<Bytes>, b: seq<Bytes>)
    requires Ascending(a) && Ascending(b) && forall k :: k in a <==> k in b
    ensures a == b
  {
    NoneIsEmpty(a, b);
    if a != [] {
      assert a[0] in b;
      assert b[0] in a;
      if a[0] != b[0] {
        FirstIsLeast(a, b[0]);
        FirstIsLeast(b, a[0]);
      }
      forall k ensures k in a[1..] <==> k in b[1..] {
        TailKeys(a, k);
        TailKeys(b, k);
      }
      SameList(a[1..], b[1..]);
      assert a == [a[0]] + a[1..] && b == [b[0]] + b[1..];
    }
  }

  /** Seeking to the prefix itself visits every key under it. */
  lemma {:induction false} PrefixIsFirst(prefix: Bytes, k: Bytes)
    requires IsPrefix(prefix, k)
    ensures AtMost(prefix, k)
  {
    assert k == prefix + k[|prefix|..];
    assert prefix == prefix + [];
    LessAfterPrefix(prefix, [], k[|prefix|..]);
  }
}
