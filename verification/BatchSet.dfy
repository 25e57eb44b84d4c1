/** The database's batch write: multi-row upserts of at most 400 pairs inside one transaction. */
module BatchSet {

  type Table = map<string, string>

  const MAX_PAIRS: nat := 400

  /** The key order is whatever the range over the map yields. */
  ghost predicate IsOrder(keys: seq<string>, pairs: Table)
  {
    (forall i, j :: 0 <= i < j < |keys| ==> keys[i] != keys[j]) && (forall k :: k in keys <==> k in pairs)
  }

  /** The table after the first n rows, written in order. */
  function Written(db: Table, keys: seq<string>, vals: seq<string>, n: nat): (t: Table)
    requires n <= |keys| == |vals|
    decreases n
  {
    if n == 0 then db else Written(db, keys, vals, n - 1)[keys[n - 1] := vals[n - 1]]
  }

  ghost predicate Paired(keys: seq<string>, vals: seq<string>, pairs: Table)
  {
    |keys| == |vals| && forall j :: 0 <= j < |keys| ==> keys[j] in pairs && vals[j] == pairs[keys[j]]
  }

  lemma {:induction false} WrittenPart(db: Table, keys: seq<string>, vals: seq<string>, pairs: Table, n: nat)
    requires Paired(keys, vals, pairs) && n <= |keys|
    ensures Written(db, keys, vals, n) == db + map k | k in pairs && k in keys[..n] :: pairs[k]
    decreases n
  {
    if n > 0 {
      WrittenPart(db, keys, vals, pairs, n - 1);
      assert keys[..n] == keys[..n - 1] + [keys[n - 1]];
    }
  }

  /** All rows written, in whatever order, make one merge of the map into the table. */
  lemma AllWritten(db: Table, keys: seq<string>, vals: seq<string>, pairs: Table)
    requires IsOrder(keys, pairs) && Paired(keys, vals, pairs)
    ensures Written(db, keys, vals, |keys|) == db + pairs
  {
    WrittenPart(db, keys, vals, pairs, |keys|);
    assert keys[..|keys|] == keys;
    assert (map k | k in pairs && k in keys[..|keys|] :: pairs[k]) == pairs;
  }

  function CeilDiv(n: nat, d: nat): (q: nat)
    requires d > 0
  {
    (n + d - 1) / d
  }

  /** BatchSet. `order` is the iteration order of the map and `failAt` the statement that fails, if any. The
      400-pair statements together equal one merge of the map into the table, whatever the order; a failed
      statement rolls everything back. `statements` counts what was executed. */
  method BatchSet(db: Table, pairs: Table, order: seq<string>, failAt: int) returns (ok: bool, r: Table, statements: nat)
    requires IsOrder(order, pairs)
    ensures ok ==> r == db + pairs && statements == CeilDiv(|order|, MAX_PAIRS)
    ensures !ok ==> r == db && statements == failAt
    ensures ok <==> !(0 <= failAt < CeilDiv(|order|, MAX_PAIRS))
  {
    var vals: seq<string> := [];
    for i := 0 to |order|
      invariant |vals| == i && forall j :: 0 <= j < i ==> order[j] in pairs && vals[j] == pairs[order[j]]
    {
      assert order[i] in order;
      vals := vals + [pairs[order[i]]];
    }
    AllWritten(db, order, vals, pairs);
    var tx;
    ok, tx, statements := Statements(db, order, vals, failAt);
    r := if ok then tx else db;
  }

  /** The chunk loop. */
  method Statements(db: Table, keys: seq<string>, vals: seq<string>, failAt: int) returns (ok: bool, tx: Table, statements: nat)
    requires |keys| == |vals|
    ensures ok ==> tx == Written(db, keys, vals, |keys|) && statements == CeilDiv(|keys|, MAX_PAIRS)
    ensures !ok ==> statements == failAt
    ensures ok <==> !(0 <= failAt < CeilDiv(|keys|, MAX_PAIRS))
  {
    tx, statements := db, 0;
    var start := 0;
    while start < |keys|
      invariant start == MAX_PAIRS * statements && (statements > 0 ==> start - MAX_PAIRS < |keys|)
      invariant tx == Written(db, keys, vals, if start < |keys| then start else |keys|)
      invariant !(0 <= failAt < statements)
    {
      var end := start + MAX_PAIRS;
      if end > |keys| {
        end := |keys|;
      }
      if statements == failAt {
        return false, db, statements;
      }
      tx := Execute(tx, db, keys, vals, start, end);
      statements := statements + 1;
      start := start + MAX_PAIRS;
    }
    ok := true;
  }

  /** One multi-row statement: its rows are written in order. */
  method Execute(t: Table, ghost db: Table, keys: seq<string>, vals: seq<string>, lo: nat, hi: nat) returns (r: Table)
    requires lo <= hi <= |keys| == |vals| && t == Written(db, keys, vals, lo)
    ensures r == Written(db, keys, vals, hi)
  {
    r := t;
    for i := lo to hi
      invariant r == Written(db, keys, vals, i)
    {
      r := r[keys[i] := vals[i]];
    }
  }
}
