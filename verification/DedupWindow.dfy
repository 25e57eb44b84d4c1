/** What the deduplication store promises over whole runs: it is the window of the
    last `capacity` remembered ids that are not past their TTL, and it survives a restart. */
module DedupWindow {
  import opened Bytes
  import opened Dedup

  /** One call of Remember. */
  datatype Remembered = Remembered(id: Uuid, serverMsgId: Uuid, seqNo: uint64, at: int)

  type History = seq<Remembered>

  /** A serial client of the store: a lookup, or a publish that looks an id up and remembers it on
      a miss. Every operation carries its own clock readings. */
  datatype Op =
    | Look(id: Uuid, now: int, loadNow: int)
    | Handle(id: Uuid, serverMsgId: Uuid, seqNo: uint64, now: int, loadNow: int, rememberNow: int)

  datatype World = World(store: State, history: History, clock: int)

  const EMPTY: State := State(map[], [], map[])

  function EntryOf(r: Remembered, c: Config): (e: Entry)
  {
    Entry(r.serverMsgId, r.seqNo, r.at + c.ttl)
  }

  /** The clock never goes back, and expiries fit the 64-bit record. */
  predicate Timely(w: World, op: Op, c: Config)
  {
    w.clock <= op.now <= op.loadNow &&
    (op.Handle? ==> op.loadNow <= op.rememberNow && Representable(op.rememberNow + c.ttl))
  }

  function Apply(w: World, op: Op, c: Config): (v: World)
  {
    var (answer, s) := Check(w.store, op.id, op.now, op.loadNow);
    if op.Look? || answer.Hit? then World(s, w.history, op.loadNow)
    else World(Remember(s, op.id, op.serverMsgId, op.seqNo, op.rememberNow, c),
               w.history + [Remembered(op.id, op.serverMsgId, op.seqNo, op.rememberNow)],
               op.rememberNow)
  }

  predicate TimelyRun(w: World, ops: seq<Op>, c: Config)
    decreases |ops|
  {
    ops == [] || (Timely(w, ops[0], c) && TimelyRun(Apply(w, ops[0], c), ops[1..], c))
  }

  function Run(w: World, ops: seq<Op>, c: Config): (v: World)
    decreases |ops|
  {
    if ops == [] then w else Run(Apply(w, ops[0], c), ops[1..], c)
  }

  // ----- the specification -----

  /** The index where the last `capacity` entries of the history begin. */
  function WindowStart(h: History, capacity: nat): (i: nat)
    ensures i <= |h|
  {
    if |h| <= capacity then 0 else |h| - capacity
  }

  predicate InWindowAt(h: History, id: Uuid, now: int, c: Config, i: int)
  {
    WindowStart(h, c.capacity) <= i < |h| && h[i].id == id && now <= h[i].at + c.ttl
  }

  ghost predicate InWindow(h: History, id: Uuid, now: int, c: Config)
  {
    exists i :: InWindowAt(h, id, now, c, i)
  }

  // ----- the invariant -----

  predicate Ordered(h: History, clock: int)
  {
    (forall i, j :: 0 <= i < j < |h| ==> h[i].at <= h[j].at) && (forall i :: 0 <= i < |h| ==> h[i].at <= clock)
  }

  predicate DistinctFrom(h: History, n: nat)
  {
    forall i, j :: n <= i < j < |h| ==> h[i].id != h[j].id
  }

  /** `order` is the contiguous suffix of the history that starts at index n. */
  predicate IsSuffix(order: seq<Uuid>, h: History, n: nat)
  {
    n <= |h| && |order| == |h| - n && forall i :: n <= i < |h| ==> order[i - n] == h[i].id
  }

  predicate SameKeys(s: State, c: Config)
  {
    && s.lru.Keys == (set id | id in s.order)
    && s.disk.Keys == (if c.persistent then set id | id in s.order :: DiskKey(id) else {})
  }

  /** Entry number i of the history is in `order`, memory and disk. */
  predicate EntryAt(s: State, h: History, n: nat, c: Config, i: int)
    requires n <= i < |h| && |s.order| == |h| - n
  {
    && s.order[i - n] == h[i].id
    && h[i].id in s.lru && s.lru[h[i].id] == EntryOf(h[i], c)
    && (c.persistent ==> DiskKey(h[i].id) in s.disk && s.disk[DiskKey(h[i].id)] == EncodeEntry(EntryOf(h[i], c)))
  }

  predicate SameEntries(s: State, h: History, n: nat, c: Config)
    requires IsSuffix(s.order, h, n)
  {
    forall i :: n <= i < |h| ==> EntryAt(s, h, n, c, i)
  }

  /** Memory and disk hold exactly the entries of the history from index n on. */
  ghost predicate Mirrors(s: State, h: History, n: nat, c: Config)
  {
    IsSuffix(s.order, h, n) && SameKeys(s, c) && SameEntries(s, h, n, c)
  }

  /** What has left the store is past the window or past its TTL. */
  ghost predicate OthersOut(h: History, n: nat, clock: int, c: Config)
  {
    forall i :: 0 <= i < n <= |h| ==> i < |h| - c.capacity || clock > h[i].at + c.ttl
  }

  ghost predicate Valid(w: World, c: Config)
  {
    var s, h := w.store, w.history;
    var n := |h| - |s.order|;
    && 0 <= n && |s.order| <= c.capacity
    && Mirrors(s, h, n, c)
    && DistinctFrom(h, n)
    && Ordered(h, w.clock)
    && (forall i :: 0 <= i < |h| ==> Representable(h[i].at + c.ttl))
    && OthersOut(h, n, w.clock, c)
  }

  // ----- the sweep drops an expired prefix -----

  function FirstAlive(h: History, n: nat, now: int, ttl: int): (m: nat)
    requires n <= |h|
    ensures n <= m <= |h|
    ensures forall i :: n <= i < m ==> now > h[i].at + ttl
    ensures m < |h| ==> now <= h[m].at + ttl
    decreases |h| - n
  {
    if n == |h| || now <= h[n].at + ttl then n else FirstAlive(h, n + 1, now, ttl)
  }

  lemma {:induction false} KeptSuffix(order: seq<Uuid>, lru: map<Uuid, Entry>, now: int, m: nat)
    requires m <= |order|
    requires forall i :: 0 <= i < m ==> !Live(lru, order[i], now)
    requires forall i :: m <= i < |order| ==> Live(lru, order[i], now)
    ensures Kept(order, lru, now) == order[m..]
  {
    if order != [] {
      var k := |order| - 1;
      var front := order[..k];
      if m <= k {
        KeptSuffix(front, lru, now, m);
        assert order == front + [order[k]];
        assert order[m..] == front[m..] + [order[k]];
      } else {
        KeptSuffix(front, lru, now, k);
        assert order[m..] == [];
      }
    }
  }

  /** Where the alive part of the stored suffix begins. */
  ghost function AliveFrom(w: World, now: int, c: Config): (m: nat)
    requires Valid(w, c)
    ensures |w.history| - |w.store.order| <= m <= |w.history|
  {
    FirstAlive(w.history, |w.history| - |w.store.order|, now, c.ttl)
  }

  lemma AliveSplit(w: World, now: int, c: Config)
    requires Valid(w, c)
    ensures var n := |w.history| - |w.store.order|;
            forall i :: 0 <= i < |w.store.order| ==>
              (Live(w.store.lru, w.store.order[i], now) <==> i + n >= AliveFrom(w, now, c))
  {
    var s, h := w.store, w.history;
    var n, m := |h| - |s.order|, AliveFrom(w, now, c);
    forall i | 0 <= i < |s.order|
      ensures Live(s.lru, s.order[i], now) <==> i + n >= m
    {
      assert EntryAt(s, h, n, c, i + n);
      if i + n > m { assert h[m].at <= h[i + n].at; }
    }
  }

  lemma SweepOrder(w: World, now: int, c: Config)
    requires Valid(w, c)
    ensures var n, m := |w.history| - |w.store.order|, AliveFrom(w, now, c);
            Sweep(w.store, now).order == w.store.order[m - n..]
  {
    AliveSplit(w, now, c);
    KeptSuffix(w.store.order, w.store.lru, now, AliveFrom(w, now, c) - (|w.history| - |w.store.order|));
  }

  lemma SweepSameKeys(s: State, now: int, c: Config)
    requires SameKeys(s, c)
    ensures SameKeys(Sweep(s, now), c)
  {
    KeptMembers(s.order, s.lru, now);
    SweptKeys(s, Sweep(s, now), Gone(s.order, s.lru, now), c);
  }

  lemma SweepShape(w: World, now: int, c: Config)
    requires Valid(w, c)
    ensures var n, m := |w.history| - |w.store.order|, AliveFrom(w, now, c);
            Sweep(w.store, now).order == w.store.order[m - n..]
    ensures SameKeys(Sweep(w.store, now), c)
  {
    SweepOrder(w, now, c);
    SweepSameKeys(w.store, now, c);
  }

  lemma SweepEntries(w: World, now: int, c: Config, i: nat)
    requires Valid(w, c) && AliveFrom(w, now, c) <= i < |w.history|
    ensures |Sweep(w.store, now).order| == |w.history| - AliveFrom(w, now, c)
    ensures EntryAt(Sweep(w.store, now), w.history, AliveFrom(w, now, c), c, i)
  {
    var s, t, h, m := w.store, Sweep(w.store, now), w.history, AliveFrom(w, now, c);
    var n := |h| - |s.order|;
    SweepShape(w, now, c);
    assert EntryAt(s, h, n, c, i);
    assert t.order[i - m] == s.order[i - n] == h[i].id;
    SweptEntry(s, t, c, h[i].id);
  }

  /** Whatever is still in `order` after a sweep has its entry in memory and on disk as before. */
  lemma SweptEntry(s: State, t: State, c: Config, id: Uuid)
    requires SameKeys(t, c) && id in t.order
    requires forall x | x in t.lru :: x in s.lru && t.lru[x] == s.lru[x]
    requires forall k | k in t.disk :: k in s.disk && t.disk[k] == s.disk[k]
    ensures id in t.lru && t.lru[id] == s.lru[id]
    ensures c.persistent ==> DiskKey(id) in t.disk && t.disk[DiskKey(id)] == s.disk[DiskKey(id)]
  {
    assert id in t.lru.Keys;
    if c.persistent {
      assert DiskKey(id) in t.disk.Keys;
    }
  }

  lemma SweepSuffix(w: World, now: int, c: Config)
    requires Valid(w, c)
    ensures IsSuffix(Sweep(w.store, now).order, w.history, AliveFrom(w, now, c))
  {
    var s, t, h, m := w.store, Sweep(w.store, now), w.history, AliveFrom(w, now, c);
    var n := |h| - |s.order|;
    SweepOrder(w, now, c);
    forall i | m <= i < |h| ensures t.order[i - m] == h[i].id {
      assert t.order[i - m] == s.order[i - n];
    }
  }

  lemma SweepMirrors(w: World, now: int, c: Config)
    requires Valid(w, c)
    ensures Mirrors(Sweep(w.store, now), w.history, AliveFrom(w, now, c), c)
  {
    var t, h, m := Sweep(w.store, now), w.history, AliveFrom(w, now, c);
    SweepSuffix(w, now, c);
    SweepShape(w, now, c);
    forall i | m <= i < |h| ensures EntryAt(t, h, m, c, i) {
      SweepEntries(w, now, c, i);
    }
  }

  lemma SweepKeepsValid(w: World, now: int, c: Config)
    requires Valid(w, c) && w.clock <= now
    ensures Valid(World(Sweep(w.store, now), w.history, now), c)
    ensures |w.history| - |Sweep(w.store, now).order| == AliveFrom(w, now, c)
  {
    SweepMirrors(w, now, c);
    var n, m := |w.history| - |w.store.order|, AliveFrom(w, now, c);
    assert DistinctFrom(w.history, m);
    assert OthersOut(w.history, m, now, c);
  }

  lemma SweptKeys(s: State, t: State, gone: set<Uuid>, c: Config)
    requires SameKeys(s, c) && t.lru == s.lru - gone && t.disk == Erase(s.disk, gone)
    requires forall id :: id in t.order <==> id in s.order && id !in gone
    ensures SameKeys(t, c)
  {
    forall k
      ensures k in t.disk.Keys <==> c.persistent && k in (set id | id in t.order :: DiskKey(id))
    {
      if k in t.disk {
        var id :| id in s.order && DiskKey(id) == k;
        assert id !in gone;
      }
      if c.persistent && k in (set id | id in t.order :: DiskKey(id)) {
        var id :| id in t.order && DiskKey(id) == k;
        forall x | x in gone ensures DiskKey(x) != k {
          if DiskKey(x) == k { DiskKeyInjective(x, id); }
        }
      }
    }
    forall id ensures id in t.lru.Keys <==> id in t.order { }
  }

  // ----- Check -----

  /** A mirrored suffix has an id exactly when some index of the history from n on has it. */
  lemma MirrorHas(s: State, h: History, n: nat, c: Config, id: Uuid)
    requires Mirrors(s, h, n, c)
    ensures id in s.lru <==> exists i :: n <= i < |h| && h[i].id == id
    ensures id in s.order <==> id in s.lru
    ensures DiskKey(id) in s.disk <==> c.persistent && id in s.order
  {
    if id in s.order {
      var j :| 0 <= j < |s.order| && s.order[j] == id;
      assert s.order[(j + n) - n] == h[j + n].id;
    }
    if DiskKey(id) in s.disk {
      assert DiskKey(id) in s.disk.Keys;
      var x :| x in s.order && DiskKey(x) == DiskKey(id);
      DiskKeyInjective(x, id);
    }
    if c.persistent && id in s.order {
      assert DiskKey(id) in s.disk.Keys;
    }
    assert id in s.lru <==> id in s.lru.Keys;
  }

  /** After a sweep the window is what is left in the store. */
  lemma WindowIsStored(w: World, id: Uuid, now: int, c: Config, i: int)
    requires Valid(w, c) && w.clock <= now
    ensures InWindowAt(w.history, id, now, c, i) <==> AliveFrom(w, now, c) <= i < |w.history| && w.history[i].id == id
  {
    var h, m := w.history, AliveFrom(w, now, c);
    if m <= i < |h| && i > m { assert h[m].at <= h[i].at; }
  }

  lemma MirrorAnswer(t: State, h: History, m: nat, c: Config, i: nat)
    requires Mirrors(t, h, m, c) && m <= i < |h|
    ensures h[i].id in t.lru && t.lru[h[i].id] == EntryOf(h[i], c)
  {
    assert EntryAt(t, h, m, c, i);
  }

  /** In a valid world Check hits exactly the window, answers with what was remembered, changes
      nothing but the sweep, and never needs the disk. */
  lemma CheckIsWindow(w: World, id: Uuid, now: int, loadNow: int, c: Config)
    requires Valid(w, c) && w.clock <= now
    ensures var (answer, s) := Check(w.store, id, now, loadNow);
            && s == Sweep(w.store, now)
            && (answer.Hit? <==> InWindow(w.history, id, now, c))
            && (forall i :: InWindowAt(w.history, id, now, c, i) ==> answer == Hit(EntryOf(w.history[i], c)))
  {
    var h, t, m := w.history, Sweep(w.store, now), AliveFrom(w, now, c);
    SweepMirrors(w, now, c);
    MirrorHas(t, h, m, c, id);
    if id in t.lru {
      var i :| m <= i < |h| && h[i].id == id;
      WindowIsStored(w, id, now, c, i);
    }
    forall i | InWindowAt(h, id, now, c, i) ensures id in t.lru && t.lru[id] == EntryOf(h[i], c) {
      WindowIsStored(w, id, now, c, i);
      MirrorAnswer(t, h, m, c, i);
    }
  }

  // ----- Remember after a miss -----

  lemma AddMirrors(s: State, h: History, n: nat, r: Remembered, c: Config)
    requires Mirrors(s, h, n, c) && r.id !in s.order
    ensures Mirrors(Add(s, r.id, EntryOf(r, c), c.persistent), h + [r], n, c)
  {
    var t := Add(s, r.id, EntryOf(r, c), c.persistent);
    assert forall id :: id in t.order <==> id in s.order || id == r.id;
    assert SameKeys(t, c);
    var g := h + [r];
    forall i | n <= i < |g| ensures EntryAt(t, g, n, c, i) {
      if i < |h| {
        assert EntryAt(s, h, n, c, i);
        assert g[i] == h[i] && h[i].id in s.order;
        if DiskKey(h[i].id) == DiskKey(r.id) { DiskKeyInjective(h[i].id, r.id); }
      }
    }
  }

  lemma DropOldestMirrors(s: State, h: History, n: nat, c: Config)
    requires Mirrors(s, h, n, c) && DistinctFrom(h, n) && n < |h|
    ensures Mirrors(State(s.lru - {s.order[0]}, s.order[1..], Erase(s.disk, {s.order[0]})), h, n + 1, c)
  {
    var oldest := s.order[0];
    var t := State(s.lru - {oldest}, s.order[1..], Erase(s.disk, {oldest}));
    assert oldest == s.order[n - n] == h[n].id;
    forall id ensures id in t.order <==> id in s.order && id != oldest {
      if id in t.order {
        var j :| 0 <= j < |t.order| && t.order[j] == id;
        assert s.order[(n + 1 + j) - n] == h[n + 1 + j].id;
      }
      assert s.order == [oldest] + t.order;
    }
    SweptKeys(s, t, {oldest}, c);
    var m := n + 1;
    forall i | m <= i < |h| ensures EntryAt(t, h, m, c, i) {
      assert EntryAt(s, h, n, c, i);
      assert t.order[i - n - 1] == s.order[i - n];
      if DiskKey(h[i].id) == DiskKey(oldest) { DiskKeyInjective(h[i].id, oldest); }
    }
  }

  lemma RememberMirrors(s: State, h: History, n: nat, r: Remembered, c: Config)
    requires Mirrors(s, h, n, c) && DistinctFrom(h + [r], n) && r.id !in s.order
    requires 0 < c.capacity && |s.order| <= c.capacity
    ensures Mirrors(Remember(s, r.id, r.serverMsgId, r.seqNo, r.at, c), h + [r],
                    if |s.order| == c.capacity then n + 1 else n, c)
  {
    var a := Add(s, r.id, EntryOf(r, c), c.persistent);
    AddMirrors(s, h, n, r, c);
    if |s.order| == c.capacity {
      DropOldestMirrors(a, h + [r], n, c);
      var d := State(a.lru - {a.order[0]}, a.order[1..], Erase(a.disk, {a.order[0]}));
      assert Trim(a, c.capacity) == Trim(d, c.capacity) == d;
    }
  }

  lemma StillDistinct(s: State, h: History, n: nat, r: Remembered)
    requires IsSuffix(s.order, h, n) && DistinctFrom(h, n) && r.id !in s.order
    ensures DistinctFrom(h + [r], n)
  {
    forall i | n <= i < |h| ensures h[i].id != r.id {
      assert s.order[i - n] == h[i].id;
    }
  }

  lemma HistoryGrows(h: History, n: nat, m: nat, clock: int, r: Remembered, c: Config)
    requires n <= m <= n + 1 && n <= |h| && |h| - n <= c.capacity && (m == n + 1 <==> |h| - n == c.capacity)
    requires DistinctFrom(h + [r], n) && Ordered(h, clock) && OthersOut(h, n, clock, c)
    requires forall i :: 0 <= i < |h| ==> Representable(h[i].at + c.ttl)
    requires clock <= r.at && Representable(r.at + c.ttl)
    ensures DistinctFrom(h + [r], m) && Ordered(h + [r], r.at) && OthersOut(h + [r], m, r.at, c)
    ensures forall i :: 0 <= i < |h + [r]| ==> Representable((h + [r])[i].at + c.ttl)
  {
  }

  lemma RememberKeepsValid(w: World, r: Remembered, c: Config)
    requires Valid(w, c) && c.capacity > 0 && r.id !in w.store.order
    requires w.clock <= r.at && Representable(r.at + c.ttl)
    ensures Valid(World(Remember(w.store, r.id, r.serverMsgId, r.seqNo, r.at, c), w.history + [r], r.at), c)
  {
    var h, n := w.history, |w.history| - |w.store.order|;
    var m := if |w.store.order| == c.capacity then n + 1 else n;
    StillDistinct(w.store, h, n, r);
    RememberMirrors(w.store, h, n, r, c);
    HistoryGrows(h, n, m, w.clock, r, c);
    ValidFrom(World(Remember(w.store, r.id, r.serverMsgId, r.seqNo, r.at, c), h + [r], r.at), m, c);
  }

  lemma ValidFrom(w: World, m: nat, c: Config)
    requires Mirrors(w.store, w.history, m, c) && |w.history| - m <= c.capacity
    requires DistinctFrom(w.history, m) && Ordered(w.history, w.clock) && OthersOut(w.history, m, w.clock, c)
    requires forall i :: 0 <= i < |w.history| ==> Representable(w.history[i].at + c.ttl)
    ensures Valid(w, c)
  {
    assert |w.history| - |w.store.order| == m;
  }

  // ----- whole runs -----

  lemma LaterClockIsValid(w: World, clock: int, c: Config)
    requires Valid(w, c) && w.clock <= clock
    ensures Valid(World(w.store, w.history, clock), c)
  {
    assert OthersOut(w.history, |w.history| - |w.store.order|, clock, c);
  }

  lemma CheckKeepsValid(w: World, id: Uuid, now: int, loadNow: int, c: Config)
    requires Valid(w, c) && w.clock <= now <= loadNow
    ensures var (answer, s) := Check(w.store, id, now, loadNow);
            Valid(World(s, w.history, loadNow), c) && (answer.Miss? ==> id !in s.order)
  {
    CheckIsWindow(w, id, now, loadNow, c);
    SweepKeepsValid(w, now, c);
    var t := Sweep(w.store, now);
    LaterClockIsValid(World(t, w.history, now), loadNow, c);
    MirrorHas(t, w.history, |w.history| - |t.order|, c, id);
  }

  lemma ApplyKeepsValid(w: World, op: Op, c: Config)
    requires Valid(w, c) && c.capacity > 0 && Timely(w, op, c)
    ensures Valid(Apply(w, op, c), c)
  {
    CheckKeepsValid(w, op.id, op.now, op.loadNow, c);
    var (answer, s) := Check(w.store, op.id, op.now, op.loadNow);
    if op.Handle? && answer.Miss? {
      RememberKeepsValid(World(s, w.history, op.loadNow), Remembered(op.id, op.serverMsgId, op.seqNo, op.rememberNow), c);
    }
  }

  lemma {:induction false} RunKeepsValid(w: World, ops: seq<Op>, c: Config)
    requires Valid(w, c) && c.capacity > 0 && TimelyRun(w, ops, c)
    ensures Valid(Run(w, ops, c), c)
    decreases |ops|
  {
    if ops != [] {
      ApplyKeepsValid(w, ops[0], c);
      RunKeepsValid(Apply(w, ops[0], c), ops[1..], c);
    }
  }

  /** The refinement theorem. After every serial run from an empty store, `order` is a duplicate-free
      contiguous suffix of the remembered ids, no longer than `capacity`, and equal to the keys of
      `lru` and of the disk; and Check finds an id exactly when it is among the last `capacity`
      remembered ids and not past its TTL, with the server id, seq and expiry it was given. */
  lemma StoreIsWindow(ops: seq<Op>, start: int, c: Config, id: Uuid, now: int, loadNow: int)
    requires c.capacity > 0 && TimelyRun(World(EMPTY, [], start), ops, c)
    requires Run(World(EMPTY, [], start), ops, c).clock <= now
    ensures var w := Run(World(EMPTY, [], start), ops, c);
            var n := |w.history| - |w.store.order|;
            var answer := Check(w.store, id, now, loadNow).0;
            && 0 <= n && |w.store.order| <= c.capacity
            && IsSuffix(w.store.order, w.history, n) && DistinctFrom(w.history, n) && SameKeys(w.store, c)
            && (answer.Hit? <==> InWindow(w.history, id, now, c))
            && (forall i :: InWindowAt(w.history, id, now, c, i) ==> answer == Hit(EntryOf(w.history[i], c)))
  {
    var w := World(EMPTY, [], start);
    RunKeepsValid(w, ops, c);
    CheckIsWindow(Run(w, ops, c), id, now, loadNow, c);
  }

  // ----- restart -----

  /** A new process: memory is empty, the disk is what the old one left. */
  function Restarted(s: State): (t: State)
  {
    State(map[], [], s.disk)
  }

  lemma MirrorEntry(s: State, h: History, n: nat, c: Config, id: Uuid)
    requires Mirrors(s, h, n, c) && id in s.lru
    requires forall i :: n <= i < |h| ==> Representable(h[i].at + c.ttl)
    ensures Representable(s.lru[id].expiresAt)
    ensures c.persistent ==> DiskKey(id) in s.disk && s.disk[DiskKey(id)] == EncodeEntry(s.lru[id])
  {
    MirrorHas(s, h, n, c, id);
    var i :| n <= i < |h| && h[i].id == id;
    assert EntryAt(s, h, n, c, i);
  }

  /** Restart agreement: from any state of a serial run begun on an empty persistent store, throwing
      memory away does not change the answer to the first Check of any id at any later time. The
      disk lookup reads the clock again, so a restarted store answers for that later reading. */
  lemma RestartAgreement(ops: seq<Op>, start: int, c: Config, id: Uuid, now: int, loadNow: int)
    requires c.capacity > 0 && c.persistent && TimelyRun(World(EMPTY, [], start), ops, c)
    requires Run(World(EMPTY, [], start), ops, c).clock <= now <= loadNow
    ensures var s := Run(World(EMPTY, [], start), ops, c).store;
            Check(Restarted(s), id, now, loadNow).0 == Check(s, id, loadNow, loadNow).0
  {
    RunKeepsValid(World(EMPTY, [], start), ops, c);
    var w := Run(World(EMPTY, [], start), ops, c);
    RestartedCheck(w, id, now, loadNow, c);
  }

  lemma RestartedCheck(w: World, id: Uuid, now: int, loadNow: int, c: Config)
    requires Valid(w, c) && c.persistent && w.clock <= now <= loadNow
    ensures Check(Restarted(w.store), id, now, loadNow).0 == Check(w.store, id, loadNow, loadNow).0
  {
    var s, h := w.store, w.history;
    var n := |h| - |s.order|;
    assert Sweep(Restarted(s), now) == Restarted(s) by {
      assert Gone([], map[], now) == {};
      assert s.disk - (set x: Uuid | x in {} :: DiskKey(x)) == s.disk;
    }
    MirrorHas(s, h, n, c, id);
    CheckIsWindow(w, id, loadNow, loadNow, c);
    if id in s.lru {
      MirrorEntry(s, h, n, c, id);
      EntryRoundTrip(s.lru[id]);
      var i :| n <= i < |h| && h[i].id == id;
      MirrorAnswer(s, h, n, c, i);
      assert InWindowAt(h, id, loadNow, c, i) <==> loadNow <= s.lru[id].expiresAt;
      WindowUnique(w, id, loadNow, c, i);
    } else {
      forall i ensures !InWindowAt(h, id, loadNow, c, i) {
        assert OthersOut(h, n, loadNow, c);
      }
    }
  }

  /** Only the stored index of an id can be inside the window. */
  lemma WindowUnique(w: World, id: Uuid, now: int, c: Config, i: nat)
    requires Valid(w, c) && w.clock <= now
    requires |w.history| - |w.store.order| <= i < |w.history| && w.history[i].id == id
    ensures InWindow(w.history, id, now, c) <==> InWindowAt(w.history, id, now, c, i)
  {
    if InWindow(w.history, id, now, c) {
      var j :| InWindowAt(w.history, id, now, c, j);
      var n := |w.history| - |w.store.order|;
      assert j >= n && DistinctFrom(w.history, n);
      assert j == i;
    }
  }

  /** After that first Check the agreement is gone: an id reloaded from disk never enters `order`, so
      the restarted store still reports it after its TTL, when the store that stayed up does not. */
  lemma ReloadedIdOutlivesItsTtl(w: World, id: Uuid, now: int, later: int, c: Config)
    requires Valid(w, c) && c.persistent && w.clock <= now <= later
    requires id in w.store.lru && now <= w.store.lru[id].expiresAt < later
    ensures var reloaded := Check(Restarted(w.store), id, now, now).1;
            Check(reloaded, id, later, later).0.Hit? && Check(w.store, id, later, later).0.Miss?
  {
    var s, h := w.store, w.history;
    var n := |h| - |s.order|;
    RestartedCheck(w, id, now, now, c);
    MirrorHas(s, h, n, c, id);
    var i :| n <= i < |h| && h[i].id == id;
    MirrorAnswer(s, h, n, c, i);
    WindowUnique(w, id, now, c, i);
    assert InWindowAt(h, id, now, c, i);
    CheckIsWindow(w, id, now, now, c);
    CheckIsWindow(w, id, later, later, c);
    WindowUnique(w, id, later, c, i);
    var reloaded := Check(Restarted(s), id, now, now).1;
    assert reloaded.order == [] && id in reloaded.lru;
  }
}
