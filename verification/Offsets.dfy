/** Per-client offsets: a memory map and its copy in the topic's store, which also holds the
    `msg:` and `meta:` keys. */
module Offsets {
  import opened Bytes
  import opened KeyValue
  import TopicLog

  const PREFIX: Bytes := [0x6F, 0x66, 0x66, 0x73, 0x65, 0x74, 0x3A]  // "offset:"

  function KeyOf(group: Bytes): (k: Bytes)
  {
    PREFIX + group
  }

  type Memory = map<Bytes, uint64>

  /** Memory and the `offset:` part of the store say the same. */
  ghost predicate InStep(kv: Kv, m: Memory)
  {
    && (forall k | k in m :: IsPrefix(PREFIX, k) && k in kv && kv[k] == Put64(m[k]))
    && (forall k | k in kv && IsPrefix(PREFIX, k) :: k in m)
  }

  function Lookup(m: Memory, group: Bytes): (n: uint64)
  {
    if KeyOf(group) in m then m[KeyOf(group)] else 0
  }

  /** What LoadFromStorage puts in memory: values shorter than eight bytes are passed over. */
  function Loaded(kv: Kv): (m: Memory)
  {
    map k | k in kv && IsPrefix(PREFIX, k) && |kv[k]| >= 8 :: First64(kv[k])
  }

  function First64(v: Bytes): (n: uint64)
    requires |v| >= 8
  {
    GetUintBound(v[..8]);
    Pow256Small();
    GetUint(v[..8])
  }

  class Offsets {
    const db: Badger
    var memory: Memory

    constructor (db: Badger)
      ensures this.db == db && memory == map[]
    {
      this.db := db;
      memory := map[];
    }

    /** The scan of the `offset:` prefix; `scan` is what the iterator visits. */
    method LoadFromStorage(scan: seq<Bytes>)
      requires memory == map[] && IsScan(scan, db.kv, PREFIX, PREFIX)
      modifies this`memory
      ensures memory == Loaded(db.kv)
    {
      for i := 0 to |scan|
        invariant forall k :: k in memory <==> k in scan[..i] && k in Loaded(db.kv)
        invariant forall k :: k in memory ==> memory[k] == Loaded(db.kv)[k]
      {
        var k := scan[i];
        assert k in Under(db.kv, PREFIX, PREFIX);
        if |db.kv[k]| >= 8 {
          memory := memory[k := First64(db.kv[k])];
        }
      }
      forall k | k in Loaded(db.kv) ensures k in scan {
        PrefixIsFirst(PREFIX, k);
        assert k in Under(db.kv, PREFIX, PREFIX);
      }
      assert scan[..|scan|] == scan;
    }

    method Get(group: Bytes) returns (n: uint64)
      ensures n == Lookup(memory, group)
    {
      n := if KeyOf(group) in memory then memory[KeyOf(group)] else 0;
    }

    method Set(group: Bytes, offset: uint64)
      requires InStep(db.kv, memory)
      modifies this`memory, db
      ensures InStep(db.kv, memory) && memory == old(memory)[KeyOf(group) := offset]
      ensures Lookup(memory, group) == offset
      ensures OthersKept(old(db.kv), db.kv)
    {
      var key := KeyOf(group);
      assert key[..7] == PREFIX;
      memory := memory[key := offset];
      db.kv := db.kv[key := Put64(offset)];
    }

    /** offsets[key]++ wraps like any uint64. */
    method Inc(group: Bytes)
      requires InStep(db.kv, memory)
      modifies this`memory, db
      ensures InStep(db.kv, memory) && memory == old(memory)[KeyOf(group) := (Lookup(old(memory), group) + 1) % TWO_64]
      ensures OthersKept(old(db.kv), db.kv)
    {
      var n := Get(group);
      Set(group, (n + 1) % TWO_64);
    }

    method Delete(group: Bytes)
      requires InStep(db.kv, memory)
      modifies this`memory, db
      ensures InStep(db.kv, memory) && memory == old(memory) - {KeyOf(group)} && Lookup(memory, group) == 0
      ensures OthersKept(old(db.kv), db.kv)
    {
      var key := KeyOf(group);
      assert key[..7] == PREFIX;
      memory := memory - {key};
      db.kv := db.kv - {key};
    }
  }

  /** Keys outside `offset:` are untouched. */
  ghost predicate OthersKept(a: Kv, b: Kv)
  {
    forall k :: !IsPrefix(PREFIX, k) ==> (k in a <==> k in b) && (k in a && k in b ==> a[k] == b[k])
  }

  /** Different clients have different keys, so one client's offset never moves another's. */
  lemma ClientsAreSeparate(g: Bytes, h: Bytes, m: Memory, offset: uint64)
    requires g != h
    ensures Lookup(m[KeyOf(g) := offset], h) == Lookup(m, h)
  {
    assert KeyOf(g)[7..] == g && KeyOf(h)[7..] == h;
  }

  /** Restart: what is reloaded from a store in step with memory is that memory. */
  lemma ReloadIsMemory(kv: Kv, m: Memory)
    requires InStep(kv, m)
    ensures Loaded(kv) == m
  {
    forall k | k in m ensures k in Loaded(kv) && Loaded(kv)[k] == m[k] {
      Get64(m[k]);
      assert Put64(m[k])[..8] == Put64(m[k]);
    }
  }

  /** A value longer than eight bytes counts by its first eight, a shorter one and any other key not at all. */
  lemma LoadedReads(kv: Kv, group: Bytes, n: uint64, extra: Bytes)
    requires KeyOf(group) in kv
    ensures kv[KeyOf(group)] == Put64(n) + extra ==> Lookup(Loaded(kv), group) == n
    ensures |kv[KeyOf(group)]| < 8 ==> KeyOf(group) !in Loaded(kv) && Lookup(Loaded(kv), group) == 0
  {
    assert KeyOf(group)[..7] == PREFIX;
    Get64(n);
    assert (Put64(n) + extra)[..8] == Put64(n);
  }

  lemma FirstByte(p: Bytes, k: Bytes)
    requires p != [] && IsPrefix(p, k)
    ensures k[0] == p[0]
  {
    assert k[..|p|][0] == k[0];
  }

  /** The topic's own writes fall outside the prefix: appending a record and its seq key keeps the
      store in step with memory, and offset writes leave the log as it was. */
  lemma TopicWritesKeepInStep(kv: Kv, m: Memory, n: uint64, record: Bytes)
    requires InStep(kv, m)
    ensures InStep(kv[TopicLog.MsgKey(n) := record], m)
    ensures InStep(kv[TopicLog.SEQ_KEY := Put64(n)], m)
  {
    assert TopicLog.MsgKey(n)[0] == 0x6D && TopicLog.SEQ_KEY[0] == 0x6D && PREFIX[0] == 0x6F;
    forall k | IsPrefix(PREFIX, k) ensures k[0] == 0x6F { FirstByte(PREFIX, k); }
  }

  lemma OffsetWritesKeepLog(a: Kv, b: Kv, log: TopicLog.Log)
    requires TopicLog.Represents(a, log) && OthersKept(a, b)
    ensures TopicLog.Represents(b, log) && TopicLog.LoadSeq(a) == TopicLog.LoadSeq(b)
  {
    forall k | IsPrefix(TopicLog.MSG, k) ensures !IsPrefix(PREFIX, k) {
      FirstByte(TopicLog.MSG, k);
      if IsPrefix(PREFIX, k) { FirstByte(PREFIX, k); }
    }
    forall n | n in log ensures IsPrefix(TopicLog.MSG, TopicLog.MsgKey(n)) {
      assert TopicLog.MsgKey(n)[..4] == TopicLog.MSG;
    }
    assert TopicLog.SEQ_KEY[..7][0] != PREFIX[0];
  }
}
