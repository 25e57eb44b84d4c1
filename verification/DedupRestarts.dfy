/** The deduplication store over runs with any number of restarts. A restart empties memory and `order` and
    keeps the disk, so the store becomes the window of the running process plus what earlier processes left
    on disk. */
module DedupRestarts {
  import opened Bytes
  import opened Dedup
  import opened DedupWindow

  /** `store` is the real store. `base` is what it would be had the process started on an empty disk, with the
      ids remembered since the start; `left` is what earlier processes left on disk; `reloaded` are the ids of
      `left` that a Check has brought back into memory; `past` is what earlier processes remembered. */
  datatype Life = Life(store: State, base: World, reloaded: set<Uuid>, left: map<Uuid, Entry>, past: History)

  datatype LifeOp = Serve(op: Op) | Restart

  function Begin(start: int): (l: Life)
  {
    Life(EMPTY, World(EMPTY, [], start), {}, map[], [])
  }

  /** What one Check of an id outside `base` does to the old entries. */
  function Reload(l: Life, id: Uuid, loadNow: int): (r: (set<Uuid>, map<Uuid, Entry>))
  {
    if id in l.reloaded || id !in l.left then (l.reloaded, l.left)
    else if loadNow <= l.left[id].expiresAt then (l.reloaded + {id}, l.left)
    else (l.reloaded, l.left - {id})
  }

  function Next(l: Life, x: LifeOp, c: Config): (m: Life)
  {
    match x
    case Restart =>
      Life(Restarted(l.store), World(EMPTY, [], l.base.clock), {}, l.left + l.base.store.lru, l.past + l.base.history)
    case Serve(op) =>
      var (answer, s) := Check(l.store, op.id, op.now, op.loadNow);
      var swept := Sweep(l.base.store, op.now);
      var (reloaded, left) := if op.id in swept.lru then (l.reloaded, l.left) else Reload(l, op.id, op.loadNow);
      if op.Look? || answer.Hit? then
        Life(s, World(swept, l.base.history, op.loadNow), reloaded, left, l.past)
      else
        var r := Remembered(op.id, op.serverMsgId, op.seqNo, op.rememberNow);
        Life(Remember(s, op.id, op.serverMsgId, op.seqNo, op.rememberNow, c),
             World(Remember(swept, op.id, op.serverMsgId, op.seqNo, op.rememberNow, c), l.base.history + [r], op.rememberNow),
             reloaded, left, l.past)
  }

  predicate TimelyOp(l: Life, x: LifeOp, c: Config)
  {
    x.Serve? ==> Timely(l.base, x.op, c)
  }

  predicate TimelyLife(l: Life, xs: seq<LifeOp>, c: Config)
    decreases |xs|
  {
    xs == [] || (TimelyOp(l, xs[0], c) && TimelyLife(Next(l, xs[0], c), xs[1..], c))
  }

  function LifeRun(l: Life, xs: seq<LifeOp>, c: Config): (m: Life)
    decreases |xs|
  {
    if xs == [] then l else LifeRun(Next(l, xs[0], c), xs[1..], c)
  }

  // ----- the real store is `base` and the old entries, side by side -----

  predicate PartAt(s: State, b: State, reloaded: set<Uuid>, left: map<Uuid, Entry>, id: Uuid)
  {
    var k := DiskKey(id);
    && (id in reloaded ==> id in left && id in s.lru && s.lru[id] == left[id])
    && (id in b.lru ==> id in s.lru && s.lru[id] == b.lru[id])
    && (id in s.lru ==> id in b.lru || id in reloaded)
    && (k in b.disk ==> k in s.disk && s.disk[k] == b.disk[k])
    && (k in s.disk ==> k in b.disk || id in left)
    && (id in left ==>
          && id !in b.lru && id !in b.order && k !in b.disk
          && k in s.disk && s.disk[k] == EncodeEntry(left[id]) && Representable(left[id].expiresAt))
  }

  ghost predicate Parts(s: State, b: State, reloaded: set<Uuid>, left: map<Uuid, Entry>)
  {
    s.order == b.order && forall id: Uuid :: PartAt(s, b, reloaded, left, id)
  }

  lemma EraseAt(disk: Disk, ids: set<Uuid>, id: Uuid)
    ensures DiskKey(id) in Erase(disk, ids) <==> DiskKey(id) in disk && id !in ids
    ensures DiskKey(id) in Erase(disk, ids) ==> Erase(disk, ids)[DiskKey(id)] == disk[DiskKey(id)]
  {
    if DiskKey(id) in disk && DiskKey(id) !in Erase(disk, ids) {
      var x :| x in ids && DiskKey(x) == DiskKey(id);
      DiskKeyInjective(x, id);
    }
  }

  /** Removing ids of `order` from both sides. */
  lemma DropParts(s: State, b: State, t: State, u: State, gone: set<Uuid>, reloaded: set<Uuid>, left: map<Uuid, Entry>)
    requires Parts(s, b, reloaded, left) && t.order == u.order
    requires t.lru == s.lru - gone && t.disk == Erase(s.disk, gone) && u.lru == b.lru - gone && u.disk == Erase(b.disk, gone)
    requires forall id | id in gone :: id in b.order
    requires forall id | id in u.order :: id in b.order
    ensures Parts(t, u, reloaded, left)
  {
    forall id: Uuid ensures PartAt(t, u, reloaded, left, id) {
      assert PartAt(s, b, reloaded, left, id);
      EraseAt(s.disk, gone, id);
      EraseAt(b.disk, gone, id);
    }
  }

  lemma {:induction false} KeptSame(order: seq<Uuid>, a: map<Uuid, Entry>, b: map<Uuid, Entry>, now: int)
    requires forall i | 0 <= i < |order| :: order[i] in b && order[i] in a && a[order[i]] == b[order[i]]
    ensures Kept(order, a, now) == Kept(order, b, now) && Gone(order, a, now) == Gone(order, b, now)
  {
    if order != [] {
      KeptSame(order[..|order| - 1], a, b, now);
    }
  }

  lemma SweepParts(s: State, b: State, reloaded: set<Uuid>, left: map<Uuid, Entry>, now: int, c: Config)
    requires Parts(s, b, reloaded, left) && SameKeys(b, c)
    ensures Parts(Sweep(s, now), Sweep(b, now), reloaded, left)
  {
    forall i | 0 <= i < |b.order| ensures b.order[i] in b.lru && b.order[i] in s.lru && s.lru[b.order[i]] == b.lru[b.order[i]] {
      assert b.order[i] in b.lru.Keys;
      assert PartAt(s, b, reloaded, left, b.order[i]);
    }
    KeptSame(b.order, s.lru, b.lru, now);
    KeptMembers(b.order, b.lru, now);
    DropParts(s, b, Sweep(s, now), Sweep(b, now), Gone(b.order, b.lru, now), reloaded, left);
  }

  lemma {:induction false} TrimParts(s: State, b: State, reloaded: set<Uuid>, left: map<Uuid, Entry>, capacity: nat)
    requires Parts(s, b, reloaded, left)
    ensures Parts(Trim(s, capacity), Trim(b, capacity), reloaded, left)
    decreases |b.order|
  {
    if |b.order| > capacity {
      var o := b.order[0];
      var t := State(s.lru - {o}, s.order[1..], Erase(s.disk, {o}));
      var u := State(b.lru - {o}, b.order[1..], Erase(b.disk, {o}));
      DropParts(s, b, t, u, {o}, reloaded, left);
      TrimParts(t, u, reloaded, left, capacity);
    }
  }

  lemma AddParts(s: State, b: State, reloaded: set<Uuid>, left: map<Uuid, Entry>, id: Uuid, e: Entry, persistent: bool)
    requires Parts(s, b, reloaded, left) && id !in left
    ensures Parts(Add(s, id, e, persistent), Add(b, id, e, persistent), reloaded, left)
  {
    var t, u := Add(s, id, e, persistent), Add(b, id, e, persistent);
    forall x: Uuid ensures PartAt(t, u, reloaded, left, x) {
      assert PartAt(s, b, reloaded, left, x);
      if DiskKey(x) == DiskKey(id) { DiskKeyInjective(x, id); }
    }
  }

  // ----- one Check -----

  /** Check through the parts: the window first, then what is in memory, then what is alive on disk. */
  lemma CheckParts(l: Life, id: Uuid, now: int, loadNow: int, c: Config)
    requires Parts(l.store, l.base.store, l.reloaded, l.left) && Valid(l.base, c) && l.base.clock <= now
    ensures var (answer, s) := Check(l.store, id, now, loadNow);
            var b := Sweep(l.base.store, now);
            var (reloaded, left) := if id in b.lru then (l.reloaded, l.left) else Reload(l, id, loadNow);
            && Parts(s, b, reloaded, left)
            && (id in b.lru ==> answer == Hit(b.lru[id]))
            && (id in l.reloaded ==> id in l.left)
            && (id !in b.lru ==>
                  answer == if id in l.left && (id in l.reloaded || loadNow <= l.left[id].expiresAt) then Hit(l.left[id]) else Miss)
            && (answer.Miss? ==> id !in left)
  {
    var t, b := Sweep(l.store, now), Sweep(l.base.store, now);
    SweepParts(l.store, l.base.store, l.reloaded, l.left, now, c);
    SweepMirrors(l.base, now, c);
    MirrorHas(b, l.base.history, AliveFrom(l.base, now, c), c, id);
    assert PartAt(t, b, l.reloaded, l.left, id);
    if id !in t.lru && id in l.left {
      EntryRoundTrip(l.left[id]);
      LoadParts(t, b, l, id, loadNow);
    } else if id !in t.lru {
      assert DiskKey(id) !in t.disk;
    }
  }

  lemma LoadParts(t: State, b: State, l: Life, id: Uuid, loadNow: int)
    requires Parts(t, b, l.reloaded, l.left) && id !in t.lru && id in l.left && DecodeEntry(EncodeEntry(l.left[id])) == l.left[id]
    ensures var (answer, disk) := Load(t.disk, id, loadNow);
            var (reloaded, left) := Reload(l, id, loadNow);
            && answer == (if loadNow <= l.left[id].expiresAt then Hit(l.left[id]) else Miss)
            && Parts(State(if answer.Hit? then t.lru[id := answer.entry] else t.lru, t.order, disk), b, reloaded, left)
  {
    assert PartAt(t, b, l.reloaded, l.left, id);
    var (answer, disk) := Load(t.disk, id, loadNow);
    var (reloaded, left) := Reload(l, id, loadNow);
    var s := State(if answer.Hit? then t.lru[id := answer.entry] else t.lru, t.order, disk);
    forall x: Uuid ensures PartAt(s, b, reloaded, left, x) {
      assert PartAt(t, b, l.reloaded, l.left, x);
      EraseAt(t.disk, {id}, x);
    }
  }

  // ----- every run -----

  /** Entry number i of an earlier process is still inside the window of everything remembered so far. */
  predicate StillDue(l: Life, c: Config, i: int)
  {
    0 <= i < |l.past| && |l.past| + |l.base.history| - c.capacity <= i && l.base.clock <= l.past[i].at + c.ttl
  }

  /** What earlier processes left was remembered by them, and includes all that is still due. */
  ghost predicate LeftOk(l: Life, c: Config)
  {
    && (forall id | id in l.left :: RememberedAs(l.past, id, l.left[id], c))
    && (forall i | StillDue(l, c, i) :: l.past[i].id in l.left && l.left[l.past[i].id] == EntryOf(l.past[i], c))
    && (forall i | 0 <= i < |l.past| :: l.past[i].at <= l.base.clock && Representable(l.past[i].at + c.ttl))
  }

  ghost predicate RememberedAs(h: History, id: Uuid, e: Entry, c: Config)
  {
    exists i :: 0 <= i < |h| && h[i].id == id && EntryOf(h[i], c) == e
  }

  ghost predicate Sound(l: Life, c: Config)
  {
    Parts(l.store, l.base.store, l.reloaded, l.left) && Valid(l.base, c) && LeftOk(l, c)
  }

  lemma RestartKeepsSound(l: Life, c: Config)
    requires Sound(l, c) && c.persistent
    ensures Sound(Next(l, Restart, c), c)
  {
    var m, h := Next(l, Restart, c), l.base.history;
    var b := l.base.store;
    var n := |h| - |b.order|;
    forall id: Uuid ensures PartAt(m.store, EMPTY, {}, m.left, id) {
      assert PartAt(l.store, b, l.reloaded, l.left, id);
      MirrorHas(b, h, n, c, id);
      if id in b.lru {
        MirrorEntry(b, h, n, c, id);
      }
    }
    assert Valid(m.base, c);
    forall id | id in m.left ensures RememberedAs(m.past, id, m.left[id], c) {
      LeftWasRemembered(l, id, c);
    }
    forall i | StillDue(m, c, i) ensures m.past[i].id in m.left && m.left[m.past[i].id] == EntryOf(m.past[i], c) {
      DueIsLeft(l, i, c);
    }
    forall i | 0 <= i < |m.past| ensures m.past[i].at <= m.base.clock && Representable(m.past[i].at + c.ttl) {
      assert m.past[i] == if i < |l.past| then l.past[i] else h[i - |l.past|];
    }
  }

  lemma LeftWasRemembered(l: Life, id: Uuid, c: Config)
    requires Sound(l, c) && id in l.left + l.base.store.lru
    ensures RememberedAs(l.past + l.base.history, id, (l.left + l.base.store.lru)[id], c)
  {
    var b, h, all := l.base.store, l.base.history, l.past + l.base.history;
    var n := |h| - |b.order|;
    if id in b.lru {
      MirrorHas(b, h, n, c, id);
      var i :| n <= i < |h| && h[i].id == id;
      MirrorAnswer(b, h, n, c, i);
      assert all[|l.past| + i] == h[i];
    } else {
      var i :| 0 <= i < |l.past| && l.past[i].id == id && EntryOf(l.past[i], c) == l.left[id];
      assert all[i] == l.past[i];
    }
  }

  lemma DueIsLeft(l: Life, i: int, c: Config)
    requires Sound(l, c)
    requires var all := l.past + l.base.history; 0 <= i < |all| && |all| - c.capacity <= i && l.base.clock <= all[i].at + c.ttl
    ensures var r, left := (l.past + l.base.history)[i], l.left + l.base.store.lru;
            r.id in left && left[r.id] == EntryOf(r, c)
  {
    var b, h := l.base.store, l.base.history;
    if i < |l.past| {
      assert StillDue(l, c, i);
      assert PartAt(l.store, b, l.reloaded, l.left, l.past[i].id);
    } else {
      var n := |h| - |b.order|;
      assert OthersOut(h, n, l.base.clock, c);
      assert i - |l.past| >= n;
      MirrorAnswer(b, h, n, c, i - |l.past|);
    }
  }

  lemma SweptBase(w: World, now: int, loadNow: int, c: Config)
    requires Valid(w, c) && w.clock <= now <= loadNow
    ensures Valid(World(Sweep(w.store, now), w.history, loadNow), c)
  {
    SweepKeepsValid(w, now, c);
    LaterClockIsValid(World(Sweep(w.store, now), w.history, now), loadNow, c);
  }

  lemma OrderInMemory(w: World, now: int, c: Config, id: Uuid)
    requires Valid(w, c) && id in Sweep(w.store, now).order
    ensures id in Sweep(w.store, now).lru
  {
    SweepShape(w, now, c);
    assert id in Sweep(w.store, now).lru.Keys;
  }

  lemma MissIsAbsent(l: Life, id: Uuid, now: int, loadNow: int, c: Config)
    requires Sound(l, c) && l.base.clock <= now && Check(l.store, id, now, loadNow).0.Miss?
    ensures id !in Sweep(l.base.store, now).order
  {
    CheckParts(l, id, now, loadNow, c);
    if id in Sweep(l.base.store, now).order {
      OrderInMemory(l.base, now, c, id);
    }
  }

  lemma ServeKeepsBase(l: Life, op: Op, c: Config)
    requires Sound(l, c) && c.capacity > 0 && Timely(l.base, op, c)
    ensures Valid(Next(l, Serve(op), c).base, c)
  {
    SweptBase(l.base, op.now, op.loadNow, c);
    var swept := World(Sweep(l.base.store, op.now), l.base.history, op.loadNow);
    if op.Handle? && Check(l.store, op.id, op.now, op.loadNow).0.Miss? {
      MissIsAbsent(l, op.id, op.now, op.loadNow, c);
      RememberKeepsValid(swept, Remembered(op.id, op.serverMsgId, op.seqNo, op.rememberNow), c);
    }
  }

  lemma ServeKeepsParts(l: Life, op: Op, c: Config)
    requires Sound(l, c) && Timely(l.base, op, c)
    ensures var m := Next(l, Serve(op), c); Parts(m.store, m.base.store, m.reloaded, m.left)
  {
    CheckParts(l, op.id, op.now, op.loadNow, c);
    var (answer, s) := Check(l.store, op.id, op.now, op.loadNow);
    var m, swept := Next(l, Serve(op), c), Sweep(l.base.store, op.now);
    if op.Handle? && answer.Miss? {
      var e := Entry(op.serverMsgId, op.seqNo, op.rememberNow + c.ttl);
      AddParts(s, swept, m.reloaded, m.left, op.id, e, c.persistent);
      TrimParts(Add(s, op.id, e, c.persistent), Add(swept, op.id, e, c.persistent), m.reloaded, m.left, c.capacity);
    }
  }

  lemma ServeKeepsLeft(l: Life, op: Op, c: Config)
    requires LeftOk(l, c) && Timely(l.base, op, c)
    ensures LeftOk(Next(l, Serve(op), c), c)
  {
    var m := Next(l, Serve(op), c);
    assert forall id | id in m.left :: id in l.left && m.left[id] == l.left[id];
    forall i | StillDue(m, c, i) ensures m.past[i].id in m.left && m.left[m.past[i].id] == EntryOf(m.past[i], c) {
      assert StillDue(l, c, i);
    }
  }

  lemma NextKeepsSound(l: Life, x: LifeOp, c: Config)
    requires Sound(l, c) && c.capacity > 0 && c.persistent && TimelyOp(l, x, c)
    ensures Sound(Next(l, x, c), c)
  {
    match x
    case Restart => RestartKeepsSound(l, c);
    case Serve(op) =>
      ServeKeepsBase(l, op, c);
      ServeKeepsParts(l, op, c);
      ServeKeepsLeft(l, op, c);
  }

  lemma {:induction false} LifeKeepsSound(l: Life, xs: seq<LifeOp>, c: Config)
    requires Sound(l, c) && c.capacity > 0 && c.persistent && TimelyLife(l, xs, c)
    ensures Sound(LifeRun(l, xs, c), c)
    decreases |xs|
  {
    if xs != [] {
      NextKeepsSound(l, xs[0], c);
      LifeKeepsSound(Next(l, xs[0], c), xs[1..], c);
    }
  }

  /** Which ids a Check finds after any run with any number of restarts: exactly those inside the window of the
      running process, those it has reloaded before, whatever their age, and those an earlier process left on
      disk that are not past their TTL. In particular no answer is invented, and no id inside the window of
      everything ever remembered is missed. */
  lemma FoundAcrossRestarts(xs: seq<LifeOp>, start: int, c: Config, id: Uuid, now: int, loadNow: int)
    requires c.capacity > 0 && c.persistent && TimelyLife(Begin(start), xs, c)
    requires LifeRun(Begin(start), xs, c).base.clock <= now <= loadNow
    ensures var l := LifeRun(Begin(start), xs, c);
            var answer, all := Check(l.store, id, now, loadNow).0, l.past + l.base.history;
            && (answer.Hit? <==>
                  InWindow(l.base.history, id, now, c) || id in l.reloaded || (id in l.left && loadNow <= l.left[id].expiresAt))
            && (answer.Hit? ==> RememberedAs(all, id, answer.entry, c))
            && (InWindow(all, id, loadNow, c) ==> answer.Hit?)
  {
    var l := LifeRun(Begin(start), xs, c);
    LifeKeepsSound(Begin(start), xs, c);
    FoundIn(l, id, now, loadNow, c);
    AnswerWasRemembered(l, id, now, loadNow, c);
    if InWindow(l.past + l.base.history, id, loadNow, c) {
      WindowIsFound(l, id, now, loadNow, c);
    }
  }

  lemma FoundIn(l: Life, id: Uuid, now: int, loadNow: int, c: Config)
    requires Sound(l, c) && l.base.clock <= now
    ensures Check(l.store, id, now, loadNow).0.Hit? <==>
              InWindow(l.base.history, id, now, c) || id in l.reloaded || (id in l.left && loadNow <= l.left[id].expiresAt)
    ensures InWindow(l.base.history, id, now, c) <==> id in Sweep(l.base.store, now).lru
  {
    CheckParts(l, id, now, loadNow, c);
    CheckIsWindow(l.base, id, now, loadNow, c);
    var b := Sweep(l.base.store, now);
    SweepMirrors(l.base, now, c);
    MirrorHas(b, l.base.history, AliveFrom(l.base, now, c), c, id);
  }

  lemma AnswerWasRemembered(l: Life, id: Uuid, now: int, loadNow: int, c: Config)
    requires Sound(l, c) && l.base.clock <= now
    ensures var answer := Check(l.store, id, now, loadNow).0;
            answer.Hit? ==> RememberedAs(l.past + l.base.history, id, answer.entry, c)
  {
    CheckParts(l, id, now, loadNow, c);
    var b := Sweep(l.base.store, now);
    assert PartAt(l.store, l.base.store, l.reloaded, l.left, id);
    if id in b.lru {
      assert id in l.base.store.lru && b.lru[id] == l.base.store.lru[id];
      LeftWasRemembered(l, id, c);
    } else if Check(l.store, id, now, loadNow).0.Hit? {
      var i :| 0 <= i < |l.past| && l.past[i].id == id && EntryOf(l.past[i], c) == l.left[id];
      assert (l.past + l.base.history)[i] == l.past[i];
    }
  }

  lemma WindowIsFound(l: Life, id: Uuid, now: int, loadNow: int, c: Config)
    requires Sound(l, c) && l.base.clock <= now <= loadNow && InWindow(l.past + l.base.history, id, loadNow, c)
    ensures Check(l.store, id, now, loadNow).0.Hit?
  {
    var h, all := l.base.history, l.past + l.base.history;
    var i :| InWindowAt(all, id, loadNow, c, i);
    FoundIn(l, id, now, loadNow, c);
    if i < |l.past| {
      assert StillDue(l, c, i);
    } else {
      assert InWindowAt(h, id, now, c, i - |l.past|);
    }
  }
}
