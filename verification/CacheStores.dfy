/** The three caching strategies over a cache that may forget any key at any time and a database:
    each method is proved against a function on values, and each strategy against a plain map. */
module CacheStores {

  type Table = map<string, string>

  datatype Reply = Found(value: string) | NotFound | Done

  function Read(t: Table, key: string): (r: Reply)
  {
    if key in t then Found(t[key]) else NotFound
  }

  /** `Expire` is the cache losing keys by itself. */
  datatype Op = Get(key: string) | Set(key: string, value: string) | Flush | Expire(keys: set<string>)

  // ----- the reference: a plain map -----

  function PlainStep(t: Table, op: Op): (r: (Reply, Table))
  {
    match op
    case Get(k) => (Read(t, k), t)
    case Set(k, v) => (Done, t[k := v])
    case _ => (Done, t)
  }

  function PlainRun(t: Table, ops: seq<Op>): (replies: seq<Reply>)
    decreases |ops|
  {
    if ops == [] then []
    else
      var (reply, u) := PlainStep(t, ops[0]);
      [reply] + PlainRun(u, ops[1..])
  }

  // ----- cache-aside and write-through -----

  datatype Pair = Pair(cache: Table, db: Table)

  /** The read path both strategies share: fill the cache from the database on a miss. */
  function FillingGet(s: Pair, k: string): (r: (Reply, Pair))
  {
    if k in s.cache then (Found(s.cache[k]), s)
    else if k in s.db then (Found(s.db[k]), s.(cache := s.cache[k := s.db[k]]))
    else (NotFound, s)
  }

  /** Cache-aside writes around the cache; write-through writes both. */
  function PairStep(s: Pair, op: Op, through: bool): (r: (Reply, Pair))
  {
    match op
    case Get(k) => FillingGet(s, k)
    case Set(k, v) => (Done, Pair(if through then s.cache[k := v] else s.cache - {k}, s.db[k := v]))
    case Flush => (Done, s)
    case Expire(ks) => (Done, s.(cache := s.cache - ks))
  }

  function PairRun(s: Pair, ops: seq<Op>, through: bool): (replies: seq<Reply>)
    decreases |ops|
  {
    if ops == [] then []
    else
      var (reply, t) := PairStep(s, ops[0], through);
      [reply] + PairRun(t, ops[1..], through)
  }

  class CacheAside {
    var cache: Table
    var db: Table

    constructor (db: Table)
      ensures cache == map[] && this.db == db
    {
      cache, this.db := map[], db;
    }

    method Fetch(key: string) returns (r: Reply)
      modifies this`cache
      ensures (r, Pair(cache, db)) == PairStep(old(Pair(cache, db)), Get(key), false)
    {
      if key in cache {
        return Found(cache[key]);
      }
      if key !in db {
        return NotFound;
      }
      var val := db[key];
      cache := cache[key := val];
      r := Found(val);
    }

    method Store(key: string, value: string)
      modifies this
      ensures Pair(cache, db) == PairStep(old(Pair(cache, db)), Set(key, value), false).1
    {
      db := db[key := value];
      cache := cache - {key};
    }
  }

  class WriteThrough {
    var cache: Table
    var db: Table

    constructor (db: Table)
      ensures cache == map[] && this.db == db
    {
      cache, this.db := map[], db;
    }

    method Fetch(key: string) returns (r: Reply)
      modifies this`cache
      ensures (r, Pair(cache, db)) == PairStep(old(Pair(cache, db)), Get(key), true)
    {
      if key in cache {
        return Found(cache[key]);
      }
      if key !in db {
        return NotFound;
      }
      var val := db[key];
      cache := cache[key := val];
      r := Found(val);
    }

    method Store(key: string, value: string)
      modifies this
      ensures Pair(cache, db) == PairStep(old(Pair(cache, db)), Set(key, value), true).1
    {
      db := db[key := value];
      cache := cache[key := value];
    }
  }

  /** What the cache holds is true of the table. */
  predicate Agrees(cache: Table, t: Table)
  {
    forall k | k in cache :: k in t && t[k] == cache[k]
  }

  lemma {:induction false} PairIsPlain(s: Pair, ops: seq<Op>, through: bool)
    requires Agrees(s.cache, s.db)
    ensures PairRun(s, ops, through) == PlainRun(s.db, ops)
    decreases |ops|
  {
    if ops != [] {
      PairIsPlain(PairStep(s, ops[0], through).1, ops[1..], through);
    }
  }

  // ----- write-back -----

  datatype Buffered = Buffered(cache: Table, dirty: Table, db: Table)

  /** A dirty hit does not refill the cache. */
  function BufferedGet(s: Buffered, k: string): (r: (Reply, Buffered))
  {
    if k in s.cache then (Found(s.cache[k]), s)
    else if k in s.dirty then (Found(s.dirty[k]), s)
    else if k in s.db then (Found(s.db[k]), s.(cache := s.cache[k := s.db[k]]))
    else (NotFound, s)
  }

  /** With Flush as one step. */
  function BufferedStep(s: Buffered, op: Op): (r: (Reply, Buffered))
  {
    match op
    case Get(k) => BufferedGet(s, k)
    case Set(k, v) => (Done, s.(cache := s.cache[k := v], dirty := s.dirty[k := v]))
    case Flush => (Done, s.(dirty := map[], db := s.db + s.dirty))
    case Expire(ks) => (Done, s.(cache := s.cache - ks))
  }

  function BufferedRun(s: Buffered, ops: seq<Op>): (replies: seq<Reply>)
    decreases |ops|
  {
    if ops == [] then []
    else
      var (reply, t) := BufferedStep(s, ops[0]);
      [reply] + BufferedRun(t, ops[1..])
  }

  class WriteBack {
    var cache: Table
    var dirty: Table
    var db: Table

    constructor (db: Table)
      ensures Buffered(cache, dirty, this.db) == Buffered(map[], map[], db)
    {
      cache, dirty, this.db := map[], map[], db;
    }

    method Fetch(key: string) returns (r: Reply)
      modifies this`cache
      ensures (r, Buffered(cache, dirty, db)) == BufferedGet(old(Buffered(cache, dirty, db)), key)
    {
      if key in cache {
        return Found(cache[key]);
      }
      if key in dirty {
        return Found(dirty[key]);
      }
      if key !in db {
        return NotFound;
      }
      var val := db[key];
      cache := cache[key := val];
      r := Found(val);
    }

    method Store(key: string, value: string) returns (dirtyLen: nat)
      modifies this`cache, this`dirty
      ensures Buffered(cache, dirty, db) == BufferedStep(old(Buffered(cache, dirty, db)), Set(key, value)).1
      ensures dirtyLen == |dirty|
    {
      cache := cache[key := value];
      dirty := dirty[key := value];
      dirtyLen := |dirty|;
    }

    /** The locked half of flushDirty: take the dirty set and leave an empty one. */
    method TakeBatch() returns (batch: Table)
      modifies this`dirty
      ensures batch == old(dirty) && dirty == map[]
    {
      batch := dirty;
      dirty := map[];
    }

    method FlushAll()
      modifies this`dirty, this`db
      ensures Buffered(cache, dirty, db) == BufferedStep(old(Buffered(cache, dirty, db)), Flush).1
    {
      if |dirty| == 0 {
        assert dirty == map[] && db + dirty == db;
        return;
      }
      var batch := TakeBatch();
      db := db + batch;
    }
  }

  lemma BufferedStepIsPlain(s: Buffered, op: Op)
    requires Agrees(s.cache, s.db + s.dirty)
    ensures var (reply, t) := BufferedStep(s, op);
            (reply, t.db + t.dirty) == PlainStep(s.db + s.dirty, op) && Agrees(t.cache, t.db + t.dirty)
  {
    var t := BufferedStep(s, op).1;
    match op
    case Set(k, v) => assert t.db + t.dirty == (s.db + s.dirty)[k := v];
    case Flush => assert t.db + t.dirty == s.db + s.dirty;
    case _ =>
  }

  lemma {:induction false} BufferedIsPlain(s: Buffered, ops: seq<Op>)
    requires Agrees(s.cache, s.db + s.dirty)
    ensures BufferedRun(s, ops) == PlainRun(s.db + s.dirty, ops)
    decreases |ops|
  {
    if ops != [] {
      BufferedStepIsPlain(s, ops[0]);
      BufferedIsPlain(BufferedStep(s, ops[0]).1, ops[1..]);
    }
  }

  /** Started on the same data, the three strategies give the replies of a plain map, hence each other's,
      on every sequence of reads, writes, flushes and spontaneous cache expiry. */
  lemma StrategiesAgree(db: Table, ops: seq<Op>)
    ensures PairRun(Pair(map[], db), ops, false) == PlainRun(db, ops)
    ensures PairRun(Pair(map[], db), ops, true) == PlainRun(db, ops)
    ensures BufferedRun(Buffered(map[], map[], db), ops) == PlainRun(db, ops)
  {
    PairIsPlain(Pair(map[], db), ops, false);
    PairIsPlain(Pair(map[], db), ops, true);
    assert db + map[] == db;
    BufferedIsPlain(Buffered(map[], map[], db), ops);
  }

  // ----- what the stores hold, told from the history alone -----

  /** The first n operations of `ops` have been carried out. */
  function PlainAt(db: Table, ops: seq<Op>, n: nat): (t: Table)
    requires n <= |ops|
  {
    if n == 0 then db else PlainStep(PlainAt(db, ops, n - 1), ops[n - 1]).1
  }

  function PairAt(db: Table, ops: seq<Op>, n: nat, through: bool): (s: Pair)
    requires n <= |ops|
  {
    if n == 0 then Pair(map[], db) else PairStep(PairAt(db, ops, n - 1, through), ops[n - 1], through).1
  }

  function BufferedAt(db: Table, ops: seq<Op>, n: nat): (s: Buffered)
    requires n <= |ops|
  {
    if n == 0 then Buffered(map[], map[], db) else BufferedStep(BufferedAt(db, ops, n - 1), ops[n - 1]).1
  }

  predicate Writes(op: Op, k: string)
  {
    op.Set? && op.key == k
  }

  predicate Expires(op: Op, k: string)
  {
    op.Expire? && k in op.keys
  }

  predicate Gets(op: Op, k: string)
  {
    op == Get(k)
  }

  /** Cache-aside and write-through: the database is the plain map after every operation. */
  lemma {:induction false} PairHoldsWrites(db: Table, ops: seq<Op>, n: nat, through: bool)
    requires n <= |ops|
    ensures PairAt(db, ops, n, through).db == PlainAt(db, ops, n)
    ensures Agrees(PairAt(db, ops, n, through).cache, PlainAt(db, ops, n))
  {
    if n > 0 { PairHoldsWrites(db, ops, n - 1, through); }
  }

  /** Operation i puts k in the cache: a read that finds it, and a write under write-through. */
  predicate PairFills(db: Table, ops: seq<Op>, i: nat, k: string, through: bool)
    requires i < |ops|
  {
    (Gets(ops[i], k) && k in PlainAt(db, ops, i)) || (through && Writes(ops[i], k))
  }

  /** An operation takes k out: expiry, and a write under cache-aside. */
  predicate PairEvicts(op: Op, k: string, through: bool)
  {
    Expires(op, k) || (!through && Writes(op, k))
  }

  predicate PairCached(db: Table, ops: seq<Op>, n: nat, k: string, through: bool)
    requires n <= |ops|
  {
    exists i | 0 <= i < n :: PairFills(db, ops, i, k, through) && forall j | i < j < n :: !PairEvicts(ops[j], k, through)
  }

  /** A key is cached exactly when something put it there and nothing took it out since. */
  lemma {:induction false} PairCachesWhatWasFilled(db: Table, ops: seq<Op>, n: nat, k: string, through: bool)
    requires n <= |ops|
    ensures k in PairAt(db, ops, n, through).cache <==> PairCached(db, ops, n, k, through)
  {
    if n > 0 {
      PairCachesWhatWasFilled(db, ops, n - 1, k, through);
      PairHoldsWrites(db, ops, n - 1, through);
      if PairFills(db, ops, n - 1, k, through) {
        assert PairCached(db, ops, n, k, through);
      } else if PairEvicts(ops[n - 1], k, through) {
        assert !PairCached(db, ops, n, k, through);
      } else {
        assert PairCached(db, ops, n, k, through) <==> PairCached(db, ops, n - 1, k, through);
      }
    }
  }

  lemma {:induction false} BufferedHoldsWrites(db: Table, ops: seq<Op>, n: nat)
    requires n <= |ops|
    ensures var s := BufferedAt(db, ops, n); s.db + s.dirty == PlainAt(db, ops, n) && Agrees(s.cache, s.db + s.dirty)
  {
    if n > 0 {
      BufferedHoldsWrites(db, ops, n - 1);
      BufferedStepIsPlain(BufferedAt(db, ops, n - 1), ops[n - 1]);
    } else {
      assert db + map[] == db;
    }
  }

  /** The last flush was operation m - 1, or there was none and m is 0. */
  predicate LastFlush(ops: seq<Op>, m: nat, n: nat)
    requires m <= n <= |ops|
  {
    (m == 0 || ops[m - 1].Flush?) && forall i | m <= i < n :: !ops[i].Flush?
  }

  /** Write-back: the database is the plain map as it was at the last flush, so right after a flush it is the
      plain map and nothing is dirty. */
  lemma {:induction false} DatabaseIsLastFlush(db: Table, ops: seq<Op>, m: nat, n: nat)
    requires m <= n <= |ops| && LastFlush(ops, m, n)
    ensures BufferedAt(db, ops, n).db == PlainAt(db, ops, m)
    ensures m == n ==> BufferedAt(db, ops, n).dirty == map[]
    decreases n - m
  {
    if m < n {
      DatabaseIsLastFlush(db, ops, m, n - 1);
    } else if n > 0 {
      BufferedHoldsWrites(db, ops, n - 1);
      assert PlainAt(db, ops, n) == PlainAt(db, ops, n - 1);
    }
  }

  /** The keys that wait for a flush are the ones written since the last. */
  lemma {:induction false} DirtyIsUnflushed(db: Table, ops: seq<Op>, m: nat, n: nat, k: string)
    requires m <= n <= |ops| && LastFlush(ops, m, n)
    ensures k in BufferedAt(db, ops, n).dirty <==> exists i | m <= i < n :: Writes(ops[i], k)
    decreases n - m
  {
    if m < n {
      DirtyIsUnflushed(db, ops, m, n - 1, k);
      if exists i | m <= i < n :: Writes(ops[i], k) {
        var i :| m <= i < n && Writes(ops[i], k);
        assert i < n - 1 || Writes(ops[n - 1], k);
      }
    } else if n > 0 {
      DatabaseIsLastFlush(db, ops, m, n);
    }
  }

  /** Under write-back a write puts k in the cache, and so does a read that finds it in the database; a value
      found dirty is not put back. */
  predicate BufferedFills(db: Table, ops: seq<Op>, i: nat, k: string)
    requires i < |ops|
  {
    Writes(ops[i], k) || (Gets(ops[i], k) && k in PlainAt(db, ops, i) && k !in BufferedAt(db, ops, i).dirty)
  }

  predicate BufferedCached(db: Table, ops: seq<Op>, n: nat, k: string)
    requires n <= |ops|
  {
    exists i | 0 <= i < n :: BufferedFills(db, ops, i, k) && forall j | i < j < n :: !Expires(ops[j], k)
  }

  lemma {:induction false} BufferedCachesWhatWasFilled(db: Table, ops: seq<Op>, n: nat, k: string)
    requires n <= |ops|
    ensures k in BufferedAt(db, ops, n).cache <==> BufferedCached(db, ops, n, k)
  {
    if n > 0 {
      BufferedCachesWhatWasFilled(db, ops, n - 1, k);
      BufferedHoldsWrites(db, ops, n - 1);
      if BufferedFills(db, ops, n - 1, k) {
        assert BufferedCached(db, ops, n, k);
      } else if Expires(ops[n - 1], k) {
        assert !BufferedCached(db, ops, n, k);
      } else {
        assert BufferedCached(db, ops, n, k) <==> BufferedCached(db, ops, n - 1, k);
      }
    }
  }
}
