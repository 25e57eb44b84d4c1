/** The producer-side deduplication store: an id map, an insertion order and a
    disk copy, changed in place. Each method is proved against a function on the
    value `State`; DedupWindow states what those functions mean over whole runs. */
module Dedup {
  import opened Bytes
  import opened Common

  const PREFIX: Bytes := [0x64, 0x65, 0x64, 0x75, 0x70, 0x3A]  // "dedup:"
  const DEFAULT_TTL: int := 600_000_000_000  // ten minutes in nanoseconds

  datatype Entry = Entry(serverMsgId: Uuid, seqNo: uint64, expiresAt: int)

  datatype Answer = Miss | Hit(entry: Entry)

  type Disk = map<Bytes, Bytes>

  datatype State = State(lru: map<Uuid, Entry>, order: seq<Uuid>, disk: Disk)

  /** `persistent` is false when the store was built without a database. */
  datatype Config = Config(capacity: nat, ttl: int, persistent: bool)

  // ----- the disk record -----

  function DiskKey(id: Uuid): (k: Bytes)
  {
    PREFIX + id
  }

  lemma DiskKeyInjective(a: Uuid, b: Uuid)
    requires DiskKey(a) == DiskKey(b)
    ensures a == b
  {
    assert DiskKey(a)[6..] == a && DiskKey(b)[6..] == b;
  }

  /** The 32-byte record: server id, seq, expiry in nanoseconds. */
  function EncodeEntry(e: Entry): (b: Bytes)
    ensures |b| == 32
  {
    e.serverMsgId + Put64(e.seqNo) + Put64(AsUnsigned(WrapSigned(e.expiresAt)))
  }

  function DecodeEntry(b: Bytes): (e: Entry)
    requires |b| >= 32
  {
    GetUintBound(b[16..24]);
    GetUintBound(b[24..32]);
    Pow256Small();
    Entry(b[0..16], GetUint(b[16..24]), AsSigned(GetUint(b[24..32])))
  }

  predicate Representable(t: int)
  {
    -TWO_63 <= t < TWO_63
  }

  /** The record keeps an entry exactly when its expiry fits in an int64 of nanoseconds. */
  lemma EntryRoundTrip(e: Entry)
    ensures DecodeEntry(EncodeEntry(e)) == e <==> Representable(e.expiresAt)
  {
    var u := AsUnsigned(WrapSigned(e.expiresAt));
    var b := EncodeEntry(e);
    Get64(e.seqNo);
    Get64(u);
    assert b[0..16] == e.serverMsgId;
    assert b[16..24] == Put64(e.seqNo);
    assert b[24..32] == Put64(u);
  }

  // ----- the specification of each operation -----

  predicate Live(lru: map<Uuid, Entry>, id: Uuid, now: int)
  {
    id in lru && now <= lru[id].expiresAt
  }

  function Kept(order: seq<Uuid>, lru: map<Uuid, Entry>, now: int): (kept: seq<Uuid>)
  {
    if order == [] then []
    else
      var last := order[|order| - 1];
      Kept(order[..|order| - 1], lru, now) + if Live(lru, last, now) then [last] else []
  }

  function Gone(order: seq<Uuid>, lru: map<Uuid, Entry>, now: int): (gone: set<Uuid>)
  {
    set id | id in order && !Live(lru, id, now)
  }

  function Erase(disk: Disk, ids: set<Uuid>): (d: Disk)
  {
    disk - (set id | id in ids :: DiskKey(id))
  }

  /** evictExpiredLocked. */
  function Sweep(s: State, now: int): (t: State)
  {
    var gone := Gone(s.order, s.lru, now);
    State(s.lru - gone, Kept(s.order, s.lru, now), Erase(s.disk, gone))
  }

  /** loadFromDB, which reads the clock itself and deletes a record it finds expired. */
  function Load(disk: Disk, id: Uuid, now: int): (r: (Answer, Disk))
  {
    var key := DiskKey(id);
    if key !in disk || |disk[key]| < 32 then (Miss, disk)
    else
      var e := DecodeEntry(disk[key]);
      if now > e.expiresAt then (Miss, Erase(disk, {id})) else (Hit(e), disk)
  }

  /** Check, with the clock readings of its sweep and of its disk lookup. */
  function Check(s: State, id: Uuid, now: int, loadNow: int): (r: (Answer, State))
  {
    var t := Sweep(s, now);
    if id in t.lru then (Hit(t.lru[id]), t)
    else
      var (answer, disk) := Load(t.disk, id, loadNow);
      (answer, State(if answer.Hit? then t.lru[id := answer.entry] else t.lru, t.order, disk))
  }

  /** The eviction loop at the end of Remember. */
  function Trim(s: State, capacity: nat): (t: State)
    decreases |s.order|
  {
    if |s.order| <= capacity then s
    else
      var oldest := s.order[0];
      Trim(State(s.lru - {oldest}, s.order[1..], Erase(s.disk, {oldest})), capacity)
  }

  function Add(s: State, id: Uuid, e: Entry, persistent: bool): (t: State)
  {
    State(s.lru[id := e], s.order + [id], if persistent then s.disk[DiskKey(id) := EncodeEntry(e)] else s.disk)
  }

  function Remember(s: State, id: Uuid, server: Uuid, seqNo: uint64, now: int, c: Config): (t: State)
  {
    Trim(Add(s, id, Entry(server, seqNo, now + c.ttl), c.persistent), c.capacity)
  }

  /** touchLocked moves the first occurrence of an id to the end. */
  function Touch(order: seq<Uuid>, id: Uuid): (r: seq<Uuid>)
  {
    if order == [] then []
    else if order[0] == id then order[1..] + [id]
    else [order[0]] + Touch(order[1..], id)
  }

  lemma {:induction false} TouchAt(order: seq<Uuid>, id: Uuid, i: nat)
    requires i < |order| && order[i] == id && id !in order[..i]
    ensures Touch(order, id) == order[..i] + order[i + 1..] + [id]
  {
    if i > 0 {
      assert order[0] == order[..i][0];
      assert order[1..][..i - 1] == order[..i][1..];
      TouchAt(order[1..], id, i - 1);
      assert order[1..][i..] == order[i + 1..];
    } else {
      assert order[..0] + order[1..] + [id] == order[1..] + [id];
    }
  }

  lemma {:induction false} TouchAbsent(order: seq<Uuid>, id: Uuid)
    requires id !in order
    ensures Touch(order, id) == order
  {
    if order != [] {
      TouchAbsent(order[1..], id);
    }
  }

  /** SeenOrRemember, with its own clock reading and that of its disk lookup: (answer or the new entry,
      duplicate, state). */
  function SeenOrRemember(s: State, id: Uuid, server: Uuid, seqNo: uint64, now: int, loadNow: int, c: Config)
    : (r: (Entry, bool, State))
  {
    var t := Sweep(s, now);
    if id in t.lru then (t.lru[id], true, t)
    else
      var (answer, disk) := Load(t.disk, id, loadNow);
      if answer.Hit? then (answer.entry, true, State(t.lru[id := answer.entry], Touch(t.order, id), disk))
      else
        var e := Entry(server, seqNo, now + c.ttl);
        (e, false, Trim(Add(t.(disk := disk), id, e, c.persistent), c.capacity))
  }

  // ----- facts about the sweep -----

  lemma {:induction false} KeptSnoc(order: seq<Uuid>, i: nat, lru: map<Uuid, Entry>, now: int)
    requires i < |order|
    ensures Kept(order[..i + 1], lru, now)
         == Kept(order[..i], lru, now) + if Live(lru, order[i], now) then [order[i]] else []
    ensures Gone(order[..i + 1], lru, now)
         == Gone(order[..i], lru, now) + if Live(lru, order[i], now) then {} else {order[i]}
  {
    assert order[..i + 1][..i] == order[..i];
    assert order[..i + 1] == order[..i] + [order[i]];
  }

  lemma {:induction false} KeptMembers(order: seq<Uuid>, lru: map<Uuid, Entry>, now: int)
    ensures forall id :: id in Kept(order, lru, now) <==> id in order && Live(lru, id, now)
  {
    if order != [] {
      var n := |order| - 1;
      KeptMembers(order[..n], lru, now);
      assert order == order[..n] + [order[n]];
    }
  }

  lemma EraseOne(disk: Disk, ids: set<Uuid>, id: Uuid)
    ensures Erase(Erase(disk, ids), {id}) == Erase(disk, ids + {id})
  {
    var a, b := Erase(Erase(disk, ids), {id}), Erase(disk, ids + {id});
    forall k
      ensures k in a <==> k in b
      ensures k in a ==> a[k] == b[k]
    {
      if k in disk && k !in b {
        var x :| x in ids + {id} && DiskKey(x) == k;
        assert x in ids || x in {id};
      }
    }
  }

  /** After the sweep, whatever is still in `order` is also in `lru`, so the touch step of
      SeenOrRemember changes nothing and the operation is Check followed by Remember on a miss:
      same verdict, same entry on a hit, same memory and same disk, from every store state and for every
      pair of clock readings. */
  lemma SeenOrRememberIsCheckThenRemember(s: State, id: Uuid, server: Uuid, seqNo: uint64, now: int, loadNow: int, c: Config)
    ensures var (answer, t) := Check(s, id, now, loadNow);
            var (e, duplicate, u) := SeenOrRemember(s, id, server, seqNo, now, loadNow, c);
            && duplicate == answer.Hit?
            && (answer.Hit? ==> e == answer.entry && u == t)
            && (answer.Miss? ==> e == Entry(server, seqNo, now + c.ttl) && u == Remember(t, id, server, seqNo, now, c))
  {
    KeptMembers(s.order, s.lru, now);
    var t := Sweep(s, now);
    if id !in t.lru {
      assert id !in t.order;
      TouchAbsent(t.order, id);
    }
  }

  /** What a hit can be: Check answers with an entry past its TTL exactly when the id sits in `lru`
      expired but outside `order`, where the sweep cannot see it. */
  lemma StaleHitCondition(s: State, id: Uuid, now: int, loadNow: int)
    requires now <= loadNow
    ensures var answer := Check(s, id, now, loadNow).0;
            answer.Hit? && now > answer.entry.expiresAt <==>
              id in s.lru && now > s.lru[id].expiresAt && id !in s.order
  {
    var t := Sweep(s, now);
    if id !in t.lru {
      assert id in s.lru ==> id in s.order;
    }
  }

  // ----- the class -----

  class Store {
    var lru: map<Uuid, Entry>
    var order: seq<Uuid>
    var disk: Disk
    const config: Config

    ghost function Value(): State
      reads this
    {
      State(lru, order, disk)
    }

    /** New raises the capacity to 1024 and replaces a non-positive TTL by ten minutes. */
    constructor (capacity: int, ttl: int, persistent: bool, onDisk: Disk)
      requires persistent || onDisk == map[]  // no database, no records
      ensures Value() == State(map[], [], onDisk)
      ensures config.capacity >= MIN_CAPACITY && (capacity >= MIN_CAPACITY ==> config.capacity == capacity)
      ensures config.ttl > 0 && (ttl > 0 ==> config.ttl == ttl) && config.persistent == persistent
    {
      lru, order, disk := map[], [], onDisk;
      config := Config(if capacity < MIN_CAPACITY then MIN_CAPACITY else capacity,
                       if ttl <= 0 then DEFAULT_TTL else ttl, persistent);
    }

    method EvictExpired(now: int)
      modifies this
      ensures Value() == Sweep(old(Value()), now)
    {
      ghost var lru0, disk0 := lru, disk;
      var kept: seq<Uuid> := [];
      for i := 0 to |order|
        invariant order == old(order)
        invariant kept == Kept(order[..i], lru0, now)
        invariant lru == lru0 - Gone(order[..i], lru0, now)
        invariant disk == Erase(disk0, Gone(order[..i], lru0, now))
      {
        KeptSnoc(order, i, lru0, now);
        var id := order[i];
        if id !in lru || now > lru[id].expiresAt {
          EraseOne(disk0, Gone(order[..i], lru0, now), id);
          lru := lru - {id};
          disk := Erase(disk, {id});
        } else {
          kept := kept + [id];
        }
      }
      assert order[..|order|] == order;
      order := kept;
    }

    method LoadFromDisk(id: Uuid, now: int) returns (answer: Answer)
      modifies this`disk
      ensures (answer, disk) == Load(old(disk), id, now)
    {
      answer := Miss;
      var key := DiskKey(id);
      if key in disk && |disk[key]| >= 32 {
        var e := DecodeEntry(disk[key]);
        if now > e.expiresAt {
          disk := Erase(disk, {id});
        } else {
          answer := Hit(e);
        }
      }
    }

    method Lookup(id: Uuid, now: int, loadNow: int) returns (answer: Answer)
      modifies this
      ensures (answer, Value()) == Check(old(Value()), id, now, loadNow)
    {
      EvictExpired(now);
      if id in lru {
        return Hit(lru[id]);
      }
      answer := LoadFromDisk(id, loadNow);
      if answer.Hit? {
        lru := lru[id := answer.entry];
      }
    }

    method EvictOldest()
      modifies this
      ensures Value() == Trim(old(Value()), config.capacity)
    {
      while |order| > config.capacity
        invariant Trim(Value(), config.capacity) == Trim(old(Value()), config.capacity)
        decreases |order|
      {
        var oldest := order[0];
        order := order[1..];
        lru := lru - {oldest};
        disk := Erase(disk, {oldest});
      }
    }

    method Insert(id: Uuid, e: Entry)
      modifies this
      ensures Value() == Trim(Add(old(Value()), id, e, config.persistent), config.capacity)
    {
      lru := lru[id := e];
      order := order + [id];
      if config.persistent {
        disk := disk[DiskKey(id) := EncodeEntry(e)];
      }
      EvictOldest();
    }

    method Record(id: Uuid, server: Uuid, seqNo: uint64, now: int)
      modifies this
      ensures Value() == Remember(old(Value()), id, server, seqNo, now, config)
    {
      Insert(id, Entry(server, seqNo, now + config.ttl));
    }

    method MoveToEnd(id: Uuid)
      modifies this`order
      ensures order == Touch(old(order), id)
    {
      for i := 0 to |order|
        invariant order == old(order) && id !in order[..i]
      {
        if order[i] == id {
          TouchAt(order, id, i);
          order := order[..i] + order[i + 1..];
          order := order + [id];
          return;
        }
      }
      assert order[..|order|] == order;
      TouchAbsent(order, id);
    }

    method SeenOrRecord(id: Uuid, server: Uuid, seqNo: uint64, now: int, loadNow: int) returns (e: Entry, duplicate: bool)
      modifies this
      ensures (e, duplicate, Value()) == SeenOrRemember(old(Value()), id, server, seqNo, now, loadNow, config)
    {
      EvictExpired(now);
      if id in lru {
        return lru[id], true;
      }
      var answer := LoadFromDisk(id, loadNow);
      if answer.Hit? {
        lru := lru[id := answer.entry];
        MoveToEnd(id);
        return answer.entry, true;
      }
      e, duplicate := Entry(server, seqNo, now + config.ttl), false;
      Insert(id, e);
    }
  }
}
