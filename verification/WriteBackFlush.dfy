/** Write-back in the steps its code takes: Set writes the cache and then, under the lock, the dirty set; the
    background flusher takes the dirty set under the lock, and it reaches the database later. */
module WriteBackFlush {
  import opened CacheStores
  import opened Common

  datatype Setting = Setting(key: string, value: string)

  /** `latest` records, for every key, the value of the last Set that has returned or written the dirty set.
      `setting` is the Set between its two writes. `late` are the cached keys that a read filled from the
      database, with another value, while a Set of them was between its writes. */
  datatype State = State(store: Buffered, taken: Option<Table>, latest: Table, setting: Option<Setting>, late: set<string>)

  datatype Action =
    | Read(key: string) | WriteCache(key: string, value: string) | WriteDirty | Lose(keys: set<string>) | Take | Commit

  function Batch(s: State): (t: Table)
  {
    if s.taken.Some? then s.taken.value else map[]
  }

  /** One flusher: a batch is taken only when none is on its way, and an empty dirty set is not taken. Sets come
      one after the other. */
  predicate Enabled(s: State, a: Action)
  {
    match a
    case WriteCache(_, _) => s.setting.None?
    case WriteDirty => s.setting.Some?
    case Take => s.taken.None? && s.store.dirty != map[]
    case Commit => s.taken.Some?
    case _ => true
  }

  /** A Set of k is between its writes. */
  predicate IsSetting(s: State, k: string)
  {
    s.setting.Some? && s.setting.value.key == k
  }

  /** The read goes to the database. */
  predicate Misses(s: State, k: string)
  {
    k !in s.store.cache && k !in s.store.dirty
  }

  /** A miss that fills the cache with another value than the Set under way has just put there. */
  predicate LateFill(s: State, k: string)
  {
    IsSetting(s, k) && Misses(s, k) && k in s.store.db && s.store.db[k] != s.setting.value.value
  }

  function Step(s: State, a: Action): (r: State)
    requires Enabled(s, a)
  {
    match a
    case Read(k) => s.(store := BufferedGet(s.store, k).1, late := s.late + if LateFill(s, k) then {k} else {})
    case WriteCache(k, v) =>
      s.(store := s.store.(cache := s.store.cache[k := v]), setting := Some(Setting(k, v)), late := s.late - {k})
    case WriteDirty =>
      var Setting(k, v) := s.setting.value;
      s.(store := s.store.(dirty := s.store.dirty[k := v]), latest := s.latest[k := v], setting := None)
    case Lose(ks) => s.(store := s.store.(cache := s.store.cache - ks), late := s.late - ks)
    case Take => s.(store := s.store.(dirty := map[]), taken := Some(s.store.dirty))
    case Commit => s.(store := s.store.(db := s.store.db + s.taken.value), taken := None)
  }

  function Init(db: Table): (s: State)
  {
    State(Buffered(map[], map[], db), None, db, None, {})
  }

  predicate Possible(s: State, actions: seq<Action>)
    decreases |actions|
  {
    actions == [] || (Enabled(s, actions[0]) && Possible(Step(s, actions[0]), actions[1..]))
  }

  function Run(s: State, actions: seq<Action>): (r: State)
    requires Possible(s, actions)
    decreases |actions|
  {
    if actions == [] then s else Run(Step(s, actions[0]), actions[1..])
  }

  // ----- nothing is lost -----

  predicate Conserved(s: State)
  {
    s.latest == s.store.db + Batch(s) + s.store.dirty
  }

  lemma StepConserves(s: State, a: Action)
    requires Conserved(s) && Enabled(s, a)
    ensures Conserved(Step(s, a))
  {
    var t := Step(s, a);
    assert t.store.db + Batch(t) + t.store.dirty == t.latest;
  }

  /** Conservation: in every run, whatever is read, lost from the cache or half flushed, the latest values
      are the database overlaid by the batch on its way overlaid by the dirty set. */
  lemma {:induction false} LatestIsConserved(s: State, actions: seq<Action>)
    requires Conserved(s) && Possible(s, actions)
    ensures Conserved(Run(s, actions))
    decreases |actions|
  {
    if actions != [] {
      StepConserves(s, actions[0]);
      LatestIsConserved(Step(s, actions[0]), actions[1..]);
    }
  }

  predicate NoCommit(actions: seq<Action>)
  {
    forall i :: 0 <= i < |actions| ==> !actions[i].Commit?
  }

  /** While a batch is on its way neither it nor the database changes. */
  lemma {:induction false} BatchStays(s: State, actions: seq<Action>)
    requires s.taken.Some? && Possible(s, actions) && NoCommit(actions)
    ensures Run(s, actions).taken == s.taken && Run(s, actions).store.db == s.store.db
    decreases |actions|
  {
    if actions != [] {
      assert !actions[0].Commit?;
      assert forall i :: 0 <= i < |actions[1..]| ==> actions[1..][i] == actions[i + 1];
      BatchStays(Step(s, actions[0]), actions[1..]);
    }
  }

  /** A flush brings everything to the database: whatever happens between taking the batch and committing it, the
      database then holds the values that were the latest when it was taken; with nothing in between these still are, and
      nothing is dirty. */
  lemma FlushReachesDatabase(s: State, between: seq<Action>)
    requires Conserved(s) && Enabled(s, Take) && Possible(Step(s, Take), between) && NoCommit(between)
    ensures var t := Run(Step(s, Take), between);
            && Enabled(t, Commit) && Step(t, Commit).store.db == s.latest && Step(t, Commit).taken.None?
            && (between == [] ==> Step(t, Commit).store.db == Step(t, Commit).latest && Step(t, Commit).store.dirty == map[])
  {
    BatchStays(Step(s, Take), between);
  }

  // ----- reads -----

  /** A reply is current when it is the latest value or, while a Set of the key is under way, the value being
      set. */
  predicate Current(s: State, k: string, r: Reply)
  {
    r == CacheStores.Read(s.latest, k) || (IsSetting(s, k) && r == Found(s.setting.value.value))
  }

  /** The reader passes cache and dirty set by and asks the database for a key whose newer value is in the batch
      on its way. */
  predicate StaleMiss(s: State, k: string)
  {
    && Misses(s, k) && k in Batch(s) && (k !in s.store.db || s.store.db[k] != Batch(s)[k])
    && !(IsSetting(s, k) && k in s.store.db && s.store.db[k] == s.setting.value.value)
  }

  /** The reader finds what a late fill has left in the cache after its Set was done. */
  predicate StaleHit(s: State, k: string)
  {
    k in s.store.cache && k in s.late && !IsSetting(s, k)
  }

  /** What a cached value is: the value being set while a Set of its key is under way, the latest one otherwise,
      except for late fills, which are neither, but were the latest when they happened. */
  predicate CacheOk(s: State, k: string)
    requires k in s.store.cache
  {
    if IsSetting(s, k) then
      && (k in s.late <==> s.store.cache[k] != s.setting.value.value)
      && (k in s.late ==> k in s.latest && s.store.cache[k] == s.latest[k])
    else k in s.latest && (k in s.late <==> s.store.cache[k] != s.latest[k])
  }

  predicate Sound(s: State)
  {
    && Conserved(s) && s.late <= s.store.cache.Keys
    && (forall k | k in s.store.cache :: CacheOk(s, k))
  }

  /** In a sound state a read is current if and only if it is neither a stale miss nor a stale hit. */
  lemma ReadIsCurrentIff(s: State, k: string)
    requires Sound(s)
    ensures Current(s, k, BufferedGet(s.store, k).0) <==> !StaleMiss(s, k) && !StaleHit(s, k)
  {
    if k in s.store.cache { assert CacheOk(s, k); }
  }

  predicate NoStaleRead(s: State, actions: seq<Action>)
    requires Possible(s, actions)
    decreases |actions|
  {
    actions == [] ||
    ((actions[0].Read? ==> !StaleMiss(s, actions[0].key) && !StaleHit(s, actions[0].key)) &&
     NoStaleRead(Step(s, actions[0]), actions[1..]))
  }

  predicate EveryReadCurrent(s: State, actions: seq<Action>)
    requires Possible(s, actions)
    decreases |actions|
  {
    actions == [] ||
    ((actions[0].Read? ==> Current(s, actions[0].key, BufferedGet(s.store, actions[0].key).0)) &&
     EveryReadCurrent(Step(s, actions[0]), actions[1..]))
  }

  lemma ReadKeepsSound(s: State, k: string)
    requires Sound(s) && !StaleMiss(s, k)
    ensures Sound(Step(s, Read(k)))
  {
    var t := Step(s, Read(k));
    forall x | x in t.store.cache ensures CacheOk(t, x) {
      if x in s.store.cache { assert CacheOk(s, x); }
    }
  }

  lemma StepKeepsSound(s: State, a: Action)
    requires Sound(s) && Enabled(s, a) && (a.Read? ==> !StaleMiss(s, a.key))
    ensures Sound(Step(s, a))
  {
    StepConserves(s, a);
    if a.Read? {
      ReadKeepsSound(s, a.key);
    } else {
      var t := Step(s, a);
      forall x | x in t.store.cache ensures CacheOk(t, x) {
        if x in s.store.cache { assert CacheOk(s, x); }
      }
    }
  }

  /** Over whole runs: every read is current, however the cache forgets, if and only if no read misses on a key
      whose value in the batch taken but not yet committed differs from the database, and none finds in the
      cache what an earlier read filled in between the two writes of a Set. */
  lemma {:induction false} ReadsAreCurrentIff(s: State, actions: seq<Action>)
    requires Sound(s) && Possible(s, actions)
    ensures EveryReadCurrent(s, actions) <==> NoStaleRead(s, actions)
    decreases |actions|
  {
    if actions != [] {
      var a := actions[0];
      if a.Read? {
        ReadIsCurrentIff(s, a.key);
      }
      if !a.Read? || !StaleMiss(s, a.key) {
        StepKeepsSound(s, a);
        ReadsAreCurrentIff(Step(s, a), actions[1..]);
      }
    }
  }

  /** A stale miss also poisons the cache: reads stay stale after the batch has been committed. */
  lemma StaleMissOutlivesCommit(s: State, k: string)
    requires Sound(s) && StaleMiss(s, k) && k in s.store.db
    ensures var t := Step(Step(s, Read(k)), Commit);
            BufferedGet(t.store, k).0 == Found(s.store.db[k]) != CacheStores.Read(t.latest, k)
  {
  }

  /** So does a late fill: once the Set is done, reads are stale although no batch is on its way. */
  lemma LateFillOutlivesSet(s: State, k: string)
    requires Sound(s) && LateFill(s, k) && !StaleMiss(s, k)
    ensures var t := Step(Step(s, Read(k)), WriteDirty);
            Current(s, k, BufferedGet(s.store, k).0) && StaleHit(t, k) && !Current(t, k, BufferedGet(t.store, k).0)
  {
    ReadKeepsSound(s, k);
    ReadIsCurrentIff(s, k);
    var t1 := Step(s, Read(k));
    StepKeepsSound(t1, WriteDirty);
    ReadIsCurrentIff(Step(t1, WriteDirty), k);
  }

  lemma InitSound(db: Table)
    ensures Sound(Init(db))
  {
    assert db + map[] + map[] == db;
  }

  /** From the start, on any database: nothing is ever lost, and every read is current if and only if the run has
      no stale read. */
  lemma FromTheStart(db: Table, actions: seq<Action>)
    requires Possible(Init(db), actions)
    ensures Conserved(Run(Init(db), actions))
    ensures EveryReadCurrent(Init(db), actions) <==> NoStaleRead(Init(db), actions)
  {
    InitSound(db);
    LatestIsConserved(Init(db), actions);
    ReadsAreCurrentIff(Init(db), actions);
  }

  /** The shortest such run: a Set, an expiry and a read between its two writes, and a read after it. */
  lemma ReadInsideSetGoesStale(k: string, x: string, v: string)
    requires x != v
    ensures var run := [WriteCache(k, v), Lose({k}), Read(k), WriteDirty, Read(k)];
            Possible(Init(map[k := x]), run) && !EveryReadCurrent(Init(map[k := x]), run)
  {
    var s0 := Init(map[k := x]);
    var s1 := Step(s0, WriteCache(k, v));
    var s2 := Step(s1, Lose({k}));
    var s3 := Step(s2, Read(k));
    InitSound(map[k := x]);
    StepKeepsSound(s0, WriteCache(k, v));
    StepKeepsSound(s1, Lose({k}));
    LateFillOutlivesSet(s2, k);
    var s4 := Step(s3, WriteDirty);
    OneMore(s4, Read(k), []);
    OneMore(s3, WriteDirty, [Read(k)]);
    OneMore(s2, Read(k), [WriteDirty, Read(k)]);
    OneMore(s1, Lose({k}), [Read(k), WriteDirty, Read(k)]);
    OneMore(s0, WriteCache(k, v), [Lose({k}), Read(k), WriteDirty, Read(k)]);
  }

  lemma OneMore(s: State, a: Action, rest: seq<Action>)
    requires Enabled(s, a) && Possible(Step(s, a), rest)
    ensures Possible(s, [a] + rest)
    ensures !EveryReadCurrent(Step(s, a), rest) ==> !EveryReadCurrent(s, [a] + rest)
    ensures a.Read? && !Current(s, a.key, BufferedGet(s.store, a.key).0) ==> !EveryReadCurrent(s, [a] + rest)
  {
    assert ([a] + rest)[1..] == rest;
  }
}
