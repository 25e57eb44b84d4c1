/** A topic's log inside Badger: 16-digit hexadecimal keys, envelope values, the seq key, and the
    scan that GetMessages makes. */
module TopicLog {
  import opened Bytes
  import E = Envelope
  import opened KeyValue

  const MSG: Bytes := [0x6D, 0x73, 0x67, 0x3A]  // "msg:"
  const SEQ_KEY: Bytes := [0x6D, 0x65, 0x74, 0x61, 0x3A, 0x73, 0x65, 0x71]  // "meta:seq"

  // ----- hexadecimal keys -----

  function Pow16(n: nat): (p: nat)
    ensures p > 0
  {
    if n == 0 then 1 else 16 * Pow16(n - 1)
  }

  function Digit(d: nat): (c: byte)
    requires d < 16
  {
    if d < 10 then 0x30 + d else 0x41 + d - 10
  }

  /** %0wX of n < 16^w. */
  function Hex(n: nat, w: nat): (b: Bytes)
    ensures |b| == w
  {
    if w == 0 then [] else
      var p := Pow16(w - 1);
      [Digit(n / p % 16)] + Hex(n % p, w - 1)
  }

  function MsgKey(n: uint64): (k: Bytes)
    ensures |k| == 20
  {
    MSG + Hex(n, 16)
  }

  predicate IsHex(c: byte)
  {
    0x30 <= c <= 0x39 || 0x41 <= c <= 0x46 || 0x61 <= c <= 0x66
  }

  function HexValue(c: byte): (d: nat)
    requires IsHex(c)
    ensures d < 16
  {
    if c <= 0x39 then c - 0x30 else if c <= 0x46 then c - 0x41 + 10 else c - 0x61 + 10
  }

  /** Sscanf with %016X: up to `width` leading hexadecimal digits. */
  function ScanHex(b: Bytes, width: nat, acc: nat): (n: nat)
  {
    if width == 0 || b == [] || !IsHex(b[0]) then acc else ScanHex(b[1..], width - 1, acc * 16 + HexValue(b[0]))
  }

  /** The leading digit and the rest. */
  lemma HexParts(n: nat, w: nat) returns (d: nat, r: nat)
    requires w > 0 && n < Pow16(w)
    ensures d < 16 && r < Pow16(w - 1) && n == d * Pow16(w - 1) + r
    ensures Hex(n, w) == [Digit(d)] + Hex(r, w - 1)
  {
    var p := Pow16(w - 1);
    d, r := n / p, n % p;
    DivBound(n, p);
  }

  lemma DivBound(n: nat, p: nat)
    requires p > 0 && n < 16 * p
    ensures n / p < 16 && n == n / p * p + n % p
  {
    var q := n / p;
    assert n == p * q + n % p;
    if q >= 16 {
      SixteenTimes(p, q);
    }
  }

  lemma SixteenTimes(p: nat, q: nat)
    requires q >= 16
    ensures p * q >= 16 * p
  {
    assert p * q == p * (q - 15) + 15 * p;
    MulAtLeast(p, q - 15);
  }

  lemma Distribute(acc: nat, d: nat, p: nat)
    ensures (acc * 16 + d) * p == acc * (16 * p) + d * p
  {
    assert acc * 16 * p == acc * (16 * p);
  }

  lemma {:induction false} ScanUndoesHex(n: nat, w: nat, acc: nat)
    requires n < Pow16(w)
    ensures ScanHex(Hex(n, w), w, acc) == acc * Pow16(w) + n
    decreases w
  {
    if w == 0 {
      assert Pow16(0) == 1;
    } else {
      var d, r := HexParts(n, w);
      assert Hex(n, w)[1..] == Hex(r, w - 1);
      assert HexValue(Digit(d)) == d;
      ScanUndoesHex(r, w - 1, acc * 16 + d);
      Distribute(acc, d, Pow16(w - 1));
    }
  }

  lemma Pow16Is64()
    ensures Pow16(16) == TWO_64
  {
    assert Pow16(4) == 16 * Pow16(3) == 16 * (16 * Pow16(2)) == 65536;
    assert Pow16(8) == 16 * Pow16(7) == 16 * (16 * Pow16(6)) == 16 * (16 * (16 * Pow16(5))) == 65536 * 65536;
    assert Pow16(12) == 16 * Pow16(11) == 16 * (16 * Pow16(10)) == 16 * (16 * (16 * Pow16(9))) == 65536 * 65536 * 65536;
    assert Pow16(16) == 16 * Pow16(15) == 16 * (16 * Pow16(14)) == 16 * (16 * (16 * Pow16(13)));
  }

  /** Keys are written with the digits 0 to 9 and A to F. */
  lemma {:induction false} HexAlphabet(n: nat, w: nat)
    requires n < Pow16(w)
    ensures forall i :: 0 <= i < w ==> 0x30 <= Hex(n, w)[i] <= 0x39 || 0x41 <= Hex(n, w)[i] <= 0x46
    decreases w
  {
    if w > 0 {
      var d, r := HexParts(n, w);
      HexAlphabet(r, w - 1);
    }
  }

  /** Keys parse back to their seqs. */
  lemma KeyParsesBack(n: uint64)
    ensures MsgKey(n)[4..] == Hex(n, 16) && ScanHex(MsgKey(n)[4..], 16, 0) == n
  {
    Pow16Is64();
    assert MsgKey(n)[4..] == Hex(n, 16);
    ScanUndoesHex(n, 16, 0);
  }

  lemma {:induction false} HexOrder(a: nat, b: nat, w: nat)
    requires a < Pow16(w) && b < Pow16(w)
    ensures Less(Hex(a, w), Hex(b, w)) <==> a < b
    decreases w
  {
    if w > 0 {
      var d, r := HexParts(a, w);
      var e, t := HexParts(b, w);
      assert Hex(a, w)[1..] == Hex(r, w - 1) && Hex(b, w)[1..] == Hex(t, w - 1);
      HexOrder(r, t, w - 1);
      LeadingDigitDecides(d, r, e, t, Pow16(w - 1));
    }
  }

  lemma LeadingDigitDecides(d: nat, r: nat, e: nat, t: nat, p: nat)
    requires r < p && t < p
    ensures d * p + r < e * p + t <==> d < e || (d == e && r < t)
  {
    if d < e {
      MulAtLeast(p, e - d);
      assert e * p == d * p + p * (e - d);
    } else if e < d {
      MulAtLeast(p, d - e);
      assert d * p == e * p + p * (d - e);
    }
  }

  /** Keys order exactly as their seqs. */
  lemma KeyOrder(a: uint64, b: uint64)
    ensures Less(MsgKey(a), MsgKey(b)) <==> a < b
    ensures MsgKey(a) == MsgKey(b) <==> a == b
  {
    Pow16Is64();
    HexOrder(a, b, 16);
    LessAfterPrefix(MSG, Hex(a, 16), Hex(b, 16));
    KeyParsesBack(a);
    KeyParsesBack(b);
  }

  // ----- the log in the store -----

  type Log = map<uint64, E.Envelope>

  /** An envelope as Publish stores it. */
  predicate Storable(e: E.Envelope)
  {
    e.idempotencyId != NIL_UUID && |e.userProps| < TWO_16
  }

  ghost predicate HasKey(log: Log, k: Bytes)
  {
    exists n :: n in log && k == MsgKey(n)
  }

  /** The `msg:` part of the store is exactly this log; other keys are free. */
  ghost predicate Represents(kv: Kv, log: Log)
  {
    && (forall n | n in log :: Storable(log[n]) && MsgKey(n) in kv && kv[MsgKey(n)] == E.Encode(log[n]))
    && (forall k | k in kv && IsPrefix(MSG, k) :: HasKey(log, k))
  }

  datatype Message = Message(seqNo: nat, payload: Bytes, nanos: int, idempotencyId: Uuid, serverMsgId: Uuid, rawWire: Bytes)

  datatype Decoded = Got(m: Message) | TooShort

  /** The layout before envelopes: seq(8) + time(8) + payload. */
  function DecodeOld(raw: Bytes): (r: Decoded)
  {
    if |raw| < 16 then TooShort
    else
      GetUintBound(raw[8..16]);
      Pow256Small();
      Got(Message(GetUint(raw[0..8]), raw[16..], AsSigned(GetUint(raw[8..16])), NIL_UUID, NIL_UUID, raw))
  }

  /** decodeStoredMessage: an envelope, else the older layout. */
  function DecodeStored(raw: Bytes): (r: Decoded)
  {
    var d := E.Decode(raw);
    if d.Ok? then Got(Message(0, d.env.payload, d.env.publishNanos, d.env.idempotencyId, d.env.serverMsgId, raw))
    else DecodeOld(raw)
  }

  /** A record in the older layout. */
  function OldRecord(seqNo: uint64, nanos: int64, payload: Bytes): (raw: Bytes)
  {
    Put64(seqNo) + Put64(AsUnsigned(nanos)) + payload
  }

  lemma OldFields(seqNo: uint64, nanos: int64, payload: Bytes)
    ensures var raw := OldRecord(seqNo, nanos, payload);
            |raw| >= 16 && raw[0..8] == Put64(seqNo) && raw[8..16] == Put64(AsUnsigned(nanos)) && raw[16..] == payload
  {
  }

  lemma MagicIsLarge(b: Bytes)
    requires |b| == 8 && b[0..4] == E.MAGIC
    ensures GetUint(b) >= TWO_16 * TWO_16
  {
    var rest := b[4..];
    assert b == E.MAGIC + rest && E.MAGIC == [E.MAGIC[0]] + E.MAGIC[1..];
    BigEndian(E.MAGIC, rest);
    BigEndian([E.MAGIC[0]], E.MAGIC[1..]);
    ByteValue(E.MAGIC[0]);
    MulAtLeast(Pow256(3), E.MAGIC[0]);
    assert Pow256(4) == 256 * Pow256(3) == 256 * 256 * Pow256(2);
    Pow256Small();
    MulAtLeast(Pow256(4), GetUint(E.MAGIC));
  }

  /** An older record whose seq fits in 32 bits is no envelope: it begins with zeros where that has its magic. */
  lemma SmallSeqIsNoEnvelope(seqNo: uint64, nanos: int64, payload: Bytes)
    requires seqNo < TWO_16 * TWO_16
    ensures E.Decode(OldRecord(seqNo, nanos, payload)).Err?
  {
    var raw := OldRecord(seqNo, nanos, payload);
    OldFields(seqNo, nanos, payload);
    Get64(seqNo);
    assert raw[0..4] == raw[0..8][0..4];
    if raw[0..4] == E.MAGIC { MagicIsLarge(Put64(seqNo)); }
  }

  /** An older record is read back with its seq, time and payload and without ids, unless its bytes happen to be an
      envelope. What is refused is exactly what is shorter than that layout's header. */
  lemma OldRecordIsRead(seqNo: uint64, nanos: int64, payload: Bytes)
    ensures var past := OldRecord(seqNo, nanos, payload);
            E.Decode(past).Err? ==> DecodeStored(past) == Got(Message(seqNo, payload, nanos, NIL_UUID, NIL_UUID, past))
    ensures forall raw: Bytes :: DecodeStored(raw).TooShort? <==> |raw| < 16
  {
    OldFields(seqNo, nanos, payload);
    OldReads(OldRecord(seqNo, nanos, payload), seqNo, nanos);
  }

  lemma ReadsBack(x: uint64)
    ensures GetUint(Put64(x)) == x
  {
    Get64(x);
  }

  lemma OldReads(raw: Bytes, seqNo: uint64, nanos: int64)
    requires |raw| >= 16 && raw[0..8] == Put64(seqNo) && raw[8..16] == Put64(AsUnsigned(nanos))
    ensures DecodeOld(raw) == Got(Message(seqNo, raw[16..], nanos, NIL_UUID, NIL_UUID, raw))
  {
    ReadsBack(seqNo);
    ReadsBack(AsUnsigned(nanos));
  }

  /** The message Publish fans out for this record. */
  function MessageOf(n: nat, e: E.Envelope): (m: Message)
  {
    Message(n, e.payload, e.publishNanos, e.idempotencyId, e.serverMsgId, E.Encode(e))
  }

  /** The scan callback: decode the value, take the seq from a key that is long enough. */
  function Visit(key: Bytes, value: Bytes): (r: Decoded)
  {
    match DecodeStored(value)
    case TooShort => TooShort
    case Got(m) => Got(if |key| >= 20 then m.(seqNo := ScanHex(key[4..], 16, 0)) else m)
  }

  /** A stored record is read back as the very message its publisher fanned out. */
  lemma StoredIsFannedOut(n: uint64, e: E.Envelope)
    requires Storable(e)
    ensures Visit(MsgKey(n), E.Encode(e)) == Got(MessageOf(n, e))
  {
    E.DecodeEncode(e);
    KeyParsesBack(n);
  }

  /** ms is the first `limit` records of the log from `from` on, ascending, with their contents. */
  ghost predicate FirstRecords(ms: seq<Message>, log: Log, from: uint64, limit: int)
  {
    && (limit <= 0 ==> ms == []) && (limit > 0 ==> |ms| <= limit)
    && (forall i, j :: 0 <= i < j < |ms| ==> ms[i].seqNo < ms[j].seqNo)
    && (forall i :: 0 <= i < |ms| ==> IsRecord(ms[i], log, from))
    && (forall n | n in log && n >= from :: limit <= 0 || Listed(n, ms) || (|ms| == limit && n > ms[limit - 1].seqNo))
  }

  predicate IsRecord(m: Message, log: Log, from: uint64)
  {
    from <= m.seqNo < TWO_64 && m.seqNo in log && m == MessageOf(m.seqNo, log[m.seqNo])
  }

  ghost predicate Listed(n: nat, ms: seq<Message>)
  {
    exists i :: 0 <= i < |ms| && ms[i].seqNo == n
  }

  lemma ScannedKey(kv: Kv, log: Log, from: uint64, k: Bytes) returns (n: uint64)
    requires Represents(kv, log) && k in Under(kv, MsgKey(from), MSG)
    ensures n in log && n >= from && k == MsgKey(n) && Visit(k, kv[k]) == Got(MessageOf(n, log[n]))
  {
    n :| n in log && k == MsgKey(n);
    KeyOrder(from, n);
    StoredIsFannedOut(n, log[n]);
  }

  lemma RecordIsUnder(kv: Kv, log: Log, from: uint64, n: uint64)
    requires Represents(kv, log) && n in log && n >= from
    ensures MsgKey(n) in Under(kv, MsgKey(from), MSG)
  {
    KeyOrder(from, n);
    assert MsgKey(n)[..4] == MSG;
  }

  /** The messages are the records of the first keys of the scan. */
  predicate Collected(ms: seq<Message>, scan: seq<Bytes>, log: Log, from: uint64)
    requires |ms| <= |scan|
  {
    forall j :: 0 <= j < |ms| ==> IsRecord(ms[j], log, from) && scan[j] == MsgKey(ms[j].seqNo)
  }

  datatype Listing = Listing(messages: seq<Message>) | Failed

  /** How many of the keys a scan visits when all can be decoded. */
  function Visited(scan: seq<Bytes>, limit: int): (n: nat)
    ensures n <= |scan|
  {
    if limit <= 0 then 0 else if limit < |scan| then limit else |scan|
  }

  /** GetMessages over the iterator's keys. On any store it fails exactly when one of the first `limit` values is
      too short to decode, and otherwise returns those records; on a store that holds a log these are the first
      `limit` records from `from` on, in order, each as its publisher fanned it out. */
  method GetMessages(kv: Kv, from: uint64, limit: int, scan: seq<Bytes>, ghost log: Log) returns (r: Listing)
    requires IsScan(scan, kv, MsgKey(from), MSG)
    ensures forall i :: 0 <= i < |scan| ==> scan[i] in kv
    ensures r.Failed? <==> exists i :: 0 <= i < Visited(scan, limit) && Visit(scan[i], kv[scan[i]]).TooShort?
    ensures r.Listing? ==> Visits(kv, scan, r.messages, Visited(scan, limit))
    ensures Represents(kv, log) ==> r.Listing? && FirstRecords(r.messages, log, from, limit)
  {
    ScanInStore(kv, from, scan);
    if limit <= 0 {
      return Listing([]);
    }
    var msgs: seq<Message> := [];
    for i := 0 to |scan|
      invariant |msgs| == i < limit && Visits(kv, scan, msgs, i)
    {
      var k := scan[i];
      var d := Visit(k, kv[k]);
      if d.TooShort? {
        NeverTooShort(kv, log, from, k);
        return Failed;
      }
      msgs := msgs + [d.m];
      if |msgs| >= limit {
        VisitsAreFirst(kv, log, from, limit, scan, msgs);
        return Listing(msgs);
      }
    }
    VisitsAreFirst(kv, log, from, limit, scan, msgs);
    r := Listing(msgs);
  }

  /** The messages are what the first n keys of the scan are decoded to. */
  predicate Visits(kv: Kv, scan: seq<Bytes>, ms: seq<Message>, n: nat)
    requires n <= |scan| && forall i :: 0 <= i < |scan| ==> scan[i] in kv
  {
    |ms| == n && forall i :: 0 <= i < n ==> Visit(scan[i], kv[scan[i]]) == Got(ms[i])
  }

  lemma ScanInStore(kv: Kv, from: uint64, scan: seq<Bytes>)
    requires IsScan(scan, kv, MsgKey(from), MSG)
    ensures forall i :: 0 <= i < |scan| ==> scan[i] in Under(kv, MsgKey(from), MSG)
    ensures forall i :: 0 <= i < |scan| ==> scan[i] in kv
  {
    forall i | 0 <= i < |scan| ensures scan[i] in Under(kv, MsgKey(from), MSG) {
      assert scan[i] in scan;
    }
  }

  lemma NeverTooShort(kv: Kv, log: Log, from: uint64, k: Bytes)
    requires k in Under(kv, MsgKey(from), MSG)
    ensures Represents(kv, log) ==> Visit(k, kv[k]).Got?
  {
    if Represents(kv, log) {
      var n := ScannedKey(kv, log, from, k);
    }
  }

  lemma VisitsAreFirst(kv: Kv, log: Log, from: uint64, limit: int, scan: seq<Bytes>, ms: seq<Message>)
    requires IsScan(scan, kv, MsgKey(from), MSG) && limit > 0 && forall i :: 0 <= i < |scan| ==> scan[i] in kv
    requires |ms| == Visited(scan, limit) && Visits(kv, scan, ms, |ms|)
    ensures Represents(kv, log) ==> FirstRecords(ms, log, from, limit)
  {
    if Represents(kv, log) {
      ScanInStore(kv, from, scan);
      forall j | 0 <= j < |ms| ensures IsRecord(ms[j], log, from) && scan[j] == MsgKey(ms[j].seqNo) {
        var n := ScannedKey(kv, log, from, scan[j]);
      }
      ScanIsFirst(kv, log, from, limit, scan, ms);
    }
  }

  lemma ScanIsFirst(kv: Kv, log: Log, from: uint64, limit: int, scan: seq<Bytes>, ms: seq<Message>)
    requires IsScan(scan, kv, MsgKey(from), MSG) && Represents(kv, log) && limit > 0
    requires |ms| <= |scan| && |ms| <= limit && (|ms| < limit ==> |ms| == |scan|)
    requires Collected(ms, scan, log, from)
    ensures FirstRecords(ms, log, from, limit)
  {
    forall i, j | 0 <= i < j < |ms| ensures ms[i].seqNo < ms[j].seqNo {
      KeyOrder(ms[i].seqNo, ms[j].seqNo);
    }
    forall n | n in log && n >= from
      ensures Listed(n, ms) || (|ms| == limit && n > ms[limit - 1].seqNo)
    {
      RecordIsUnder(kv, log, from, n);
      var i :| 0 <= i < |scan| && scan[i] == MsgKey(n);
      if i < |ms| {
        KeyOrder(n, ms[i].seqNo);
        assert ms[i].seqNo == n;
      } else {
        KeyOrder(ms[limit - 1].seqNo, n);
      }
    }
  }

  /** The specification leaves no freedom: any two such lists are equal. */
  lemma FirstRecordsUnique(a: seq<Message>, b: seq<Message>, log: Log, from: uint64, limit: int)
    requires FirstRecords(a, log, from, limit) && FirstRecords(b, log, from, limit)
    ensures a == b
  {
    var i := if |a| < |b| then |a| else |b|;
    SameUpTo(a, b, log, from, limit, i);
    SamePrefix(a, b, i);
    if |a| < |b| {
      NotShorter(a, b, log, from, limit);
    } else if |b| < |a| {
      NotShorter(b, a, log, from, limit);
    }
    assert a[..i] == a && b[..i] == b;
  }

  lemma NextIsNew(a: seq<Message>, b: seq<Message>, log: Log, from: uint64)
    requires |a| < |b| && (forall j :: 0 <= j < |a| ==> a[j] == b[j]) && IsRecord(b[|a|], log, from)
    requires forall i, j :: 0 <= i < j < |b| ==> b[i].seqNo < b[j].seqNo
    ensures b[|a|].seqNo in log && b[|a|].seqNo >= from && !Listed(b[|a|].seqNo, a)
    ensures a != [] ==> a[|a| - 1].seqNo < b[|a|].seqNo
  {
  }

  lemma NotShorter(a: seq<Message>, b: seq<Message>, log: Log, from: uint64, limit: int)
    requires FirstRecords(a, log, from, limit) && FirstRecords(b, log, from, limit)
    requires |a| <= |b| && forall j :: 0 <= j < |a| ==> a[j] == b[j]
    ensures |a| == |b|
  {
    if |a| < |b| {
      NextIsNew(a, b, log, from);
      assert false;
    }
  }

  lemma {:induction false} SameUpTo(a: seq<Message>, b: seq<Message>, log: Log, from: uint64, limit: int, i: nat)
    requires FirstRecords(a, log, from, limit) && FirstRecords(b, log, from, limit) && i <= |a| && i <= |b|
    ensures a[..i] == b[..i]
    decreases i
  {
    if i > 0 {
      SameUpTo(a, b, log, from, limit, i - 1);
      NextIsSame(a, b, log, from, limit, i - 1);
      assert a[..i] == a[..i - 1] + [a[i - 1]] && b[..i] == b[..i - 1] + [b[i - 1]];
    }
  }

  lemma NextIsSame(a: seq<Message>, b: seq<Message>, log: Log, from: uint64, limit: int, i: nat)
    requires FirstRecords(a, log, from, limit) && FirstRecords(b, log, from, limit)
    requires i < |a| && i < |b| && a[..i] == b[..i]
    ensures a[i] == b[i]
  {
    NotLater(a, b, log, from, limit, i);
    NotLater(b, a, log, from, limit, i);
    assert IsRecord(a[i], log, from) && IsRecord(b[i], log, from);
  }

  lemma SamePrefix(a: seq<Message>, b: seq<Message>, i: nat)
    requires i <= |a| && i <= |b| && a[..i] == b[..i]
    ensures forall j :: 0 <= j < i ==> a[j] == b[j]
  {
    forall j | 0 <= j < i ensures a[j] == b[j] {
      assert a[..i][j] == b[..i][j];
    }
  }

  lemma NotLater(a: seq<Message>, b: seq<Message>, log: Log, from: uint64, limit: int, i: nat)
    requires FirstRecords(a, log, from, limit) && FirstRecords(b, log, from, limit)
    requires i < |a| && i < |b| && a[..i] == b[..i]
    ensures b[i].seqNo <= a[i].seqNo
  {
    var n := a[i].seqNo;
    assert IsRecord(a[i], log, from);
    SamePrefix(a, b, i);
    if Listed(n, b) {
      var j :| 0 <= j < |b| && b[j].seqNo == n;
    }
  }

  // ----- publishing into the store -----

  /** No record has a seq above n. */
  predicate EndsAt(log: Log, n: nat)
  {
    forall m | m in log :: m <= n
  }

  class Topic {
    const db: Badger
    var counter: nat

    constructor (db: Badger)
      ensures this.db == db && counter == LoadSeq(db.kv)
    {
      this.db := db;
      counter := LoadSeq(db.kv);
    }

    /** The storage half of Publish: take the next seq, write the record, then the seq key. A record that a
        crash left above the counter is replaced; on a log that ends at the counter the record is new. */
    method Append(env: E.Envelope, newId: Uuid, ghost log: Log) returns (n: uint64, stored: E.Envelope)
      requires counter + 1 < TWO_64 && Storable(env) && Represents(db.kv, log)
      modifies this, db
      ensures n == old(counter) + 1 == counter
      ensures stored == E.WithServerMsgId(env, if env.serverMsgId == NIL_UUID then newId else env.serverMsgId)
      ensures E.SameMessage(env, stored)
      ensures var id := if env.serverMsgId == NIL_UUID then newId else env.serverMsgId;
              MsgKey(n) in db.kv && E.Stamped(E.Encode(env), db.kv[MsgKey(n)], id)
      ensures Represents(db.kv, log[n := stored])
      ensures EndsAt(log, old(counter)) ==> n !in log && EndsAt(log[n := stored], counter)
      ensures LoadSeq(db.kv) == n
      ensures forall k :: !IsPrefix(MSG, k) && k != SEQ_KEY ==>
                (k in db.kv <==> k in old(db.kv)) && (k in db.kv ==> db.kv[k] == old(db.kv)[k])
    {
      counter := counter + 1;
      n := counter;
      stored := E.WithServerMsgId(env, if env.serverMsgId == NIL_UUID then newId else env.serverMsgId);
      Appended(db.kv, log, n, stored);
      E.StampedKeepsMessage(env, if env.serverMsgId == NIL_UUID then newId else env.serverMsgId);
      db.kv := db.kv[MsgKey(n) := E.Encode(stored)];
      db.kv := db.kv[SEQ_KEY := Put64(n)];
    }
  }

  /** GetUint64 of the seq key: 0 when it is absent or too short. */
  function LoadSeq(kv: Kv): (n: nat)
  {
    if SEQ_KEY !in kv || |kv[SEQ_KEY]| < 8 then 0 else GetUint(kv[SEQ_KEY][..8])
  }

  /** Publish, then read: on a log that holds record n as it was appended, GetMessages(n, 1) answers with one
      message, and its seq, payload, time and ids are those of the envelope that was published. */
  lemma AppendedIsRead(ms: seq<Message>, log: Log, n: uint64, env: E.Envelope, stored: E.Envelope)
    requires E.SameMessage(env, stored) && FirstRecords(ms, log[n := stored], n, 1)
    ensures |ms| == 1 && ms[0].seqNo == n
    ensures ms[0].payload == env.payload && ms[0].nanos == env.publishNanos
    ensures ms[0].idempotencyId == env.idempotencyId && ms[0].serverMsgId == stored.serverMsgId
    ensures ms[0].rawWire == E.Encode(stored)
  {
    var all := log[n := stored];
    assert n in all && (Listed(n, ms) || (|ms| == 1 && n > ms[0].seqNo));
    assert |ms| == 1;
    assert IsRecord(ms[0], all, n);
  }

  /** What the counter starts from: nothing saved, or too little, means 0. */
  lemma LoadSeqDefaults(kv: Kv)
    ensures SEQ_KEY !in kv ==> LoadSeq(kv) == 0
    ensures SEQ_KEY in kv && |kv[SEQ_KEY]| < 8 ==> LoadSeq(kv) == 0
  {
  }

  /** Both writes of a publish. */
  lemma Appended(kv: Kv, log: Log, n: uint64, e: E.Envelope)
    requires Represents(kv, log) && Storable(e)
    ensures var t := kv[MsgKey(n) := E.Encode(e)][SEQ_KEY := Put64(n)];
            && Represents(t, log[n := e]) && LoadSeq(t) == n && t[MsgKey(n)] == E.Encode(e)
            && forall k :: !IsPrefix(MSG, k) && k != SEQ_KEY ==> (k in t <==> k in kv) && (k in t ==> t[k] == kv[k])
  {
    RecordWritten(kv, log, n, e);
    SeqWritten(kv[MsgKey(n) := E.Encode(e)], log[n := e], n);
  }

  lemma RecordWritten(kv: Kv, log: Log, n: uint64, e: E.Envelope)
    requires Represents(kv, log) && Storable(e)
    ensures Represents(kv[MsgKey(n) := E.Encode(e)], log[n := e])
  {
    var t, more := kv[MsgKey(n) := E.Encode(e)], log[n := e];
    forall m | m in more ensures Storable(more[m]) && MsgKey(m) in t && t[MsgKey(m)] == E.Encode(more[m]) {
      if m != n { KeyOrder(m, n); }
    }
    forall k | k in t && IsPrefix(MSG, k) ensures HasKey(more, k) {
      if k != MsgKey(n) {
        var m :| m in log && k == MsgKey(m);
        assert m in more;
      } else {
        assert n in more;
      }
    }
  }

  lemma SeqWritten(kv: Kv, log: Log, n: uint64)
    requires Represents(kv, log)
    ensures Represents(kv[SEQ_KEY := Put64(n)], log)
    ensures LoadSeq(kv[SEQ_KEY := Put64(n)]) == n && !IsPrefix(MSG, SEQ_KEY)
  {
    assert SEQ_KEY[1] != MSG[1];
    Get64(n);
    assert Put64(n)[..8] == Put64(n);
    forall m | m in log ensures MsgKey(m) != SEQ_KEY {
      assert |MsgKey(m)| != |SEQ_KEY|;
    }
    OtherKeyWritten(kv, log, SEQ_KEY, Put64(n));
  }

  lemma OtherKeyWritten(kv: Kv, log: Log, key: Bytes, value: Bytes)
    requires Represents(kv, log) && !IsPrefix(MSG, key) && forall m | m in log :: MsgKey(m) != key
    ensures Represents(kv[key := value], log)
  {
  }
}
