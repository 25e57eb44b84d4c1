/** The binary envelope carried in PUBLISH payloads: the Go codec of
    core/envelope and the Python codec of the SDK. */
module Envelope {
  import opened Bytes

  const MAGIC: Bytes := [0x42, 0x4D, 0x51, 0x31]  // "BMQ1"
  const VERSION: byte := 1
  const HEADER_FIXED: nat := 47

  /** `publishNanos` is PublishTS.UnixNano(). */
  datatype Envelope = Envelope(
    idempotencyId: Uuid, serverMsgId: Uuid, publishNanos: int64, userProps: Bytes, payload: Bytes)

  datatype DecodeError = TooShort | BadMagic | BadVersion(version: byte) | InvalidUuid

  datatype Decoded = Ok(env: Envelope) | Err(error: DecodeError)

  /** The wire layout shared by both languages; `ts` and `propsLen` are already unsigned. */
  function Layout(idem: Uuid, server: Uuid, ts: nat, propsLen: nat, props: Bytes, payload: Bytes): (b: Bytes)
    ensures |b| == HEADER_FIXED + |props| + |payload|
  {
    MAGIC + [VERSION] + idem + server + Put64(ts) + Put16(propsLen) + props + payload
  }

  /** Encode: the props length is stored modulo 2^16, exactly as uint16(propsLen) truncates it. */
  function Encode(e: Envelope): (b: Bytes)
    ensures |b| == HEADER_FIXED + |e.userProps| + |e.payload|
  {
    Layout(e.idempotencyId, e.serverMsgId, AsUnsigned(e.publishNanos), |e.userProps|, e.userProps, e.payload)
  }

  function PropsLen(data: Bytes): (n: nat)
    requires |data| >= HEADER_FIXED
    ensures n < TWO_16
  {
    GetUintBound(data[45..47]);
    Pow256Small();
    GetUint(data[45..47])
  }

  function TimeField(data: Bytes): (t: uint64)
    requires |data| >= HEADER_FIXED
  {
    GetUintBound(data[37..45]);
    Pow256Small();
    GetUint(data[37..45])
  }

  function Decode(data: Bytes): (r: Decoded)
  {
    if |data| < HEADER_FIXED then Err(TooShort)
    else if data[0..4] != MAGIC then Err(BadMagic)
    else if data[4] != VERSION then Err(BadVersion(data[4]))
    else if data[5..21] == NIL_UUID then Err(InvalidUuid)
    else
      var n := PropsLen(data);
      if |data| < HEADER_FIXED + n then Err(TooShort)
      else Ok(Envelope(data[5..21], data[21..37], AsSigned(TimeField(data)), data[47..47 + n], data[47 + n..]))
  }

  function WithServerMsgId(e: Envelope, id: Uuid): (r: Envelope)
  {
    e.(serverMsgId := id)
  }

  /** The same message under possibly different server ids. */
  predicate SameMessage(a: Envelope, b: Envelope)
  {
    && a.idempotencyId == b.idempotencyId && a.publishNanos == b.publishNanos
    && a.userProps == b.userProps && a.payload == b.payload
  }

  /** On the wire: the bytes outside 21..37, and the server id in them. */
  predicate Stamped(a: Bytes, b: Bytes, id: Uuid)
  {
    |a| == |b| >= HEADER_FIXED && b[..21] == a[..21] && b[37..] == a[37..] && b[21..37] == id
  }

  /** Giving an envelope its server id changes nothing else, in its fields and in its bytes. */
  lemma StampedKeepsMessage(e: Envelope, id: Uuid)
    ensures SameMessage(e, WithServerMsgId(e, id)) && WithServerMsgId(e, id).serverMsgId == id
    ensures Stamped(Encode(e), Encode(WithServerMsgId(e, id)), id)
  {
    var a, b := Encode(e), Encode(WithServerMsgId(e, id));
    EncodedFields(WithServerMsgId(e, id));
    var head := MAGIC + [VERSION] + e.idempotencyId;
    var tail := Put64(AsUnsigned(e.publishNanos)) + Put16(|e.userProps|) + e.userProps + e.payload;
    assert a == head + e.serverMsgId + tail && b == head + id + tail;
    assert |head| == 21;
  }

  /** Where every field of a layout lies. */
  lemma LayoutFields(idem: Uuid, server: Uuid, ts: nat, propsLen: nat, props: Bytes, payload: Bytes)
    ensures var b := Layout(idem, server, ts, propsLen, props, payload);
            && b[0..4] == MAGIC && b[4] == VERSION
            && b[5..21] == idem && b[21..37] == server
            && b[37..45] == Put64(ts) && b[45..47] == Put16(propsLen)
            && b[47..] == props + payload
  {
    var head := MAGIC + [VERSION];
    var b := Layout(idem, server, ts, propsLen, props, payload);
    var ids := head + idem + server;
    var fixed := ids + Put64(ts) + Put16(propsLen);
    assert b == fixed + (props + payload);
    assert |head| == 5 && |ids| == 37 && |fixed| == 47;
    assert b[..47] == fixed && fixed[..37] == ids && ids[..5] == head;
    assert b[5..21] == ids[5..21] == idem;
    assert b[21..37] == ids[21..37] == server;
    assert b[37..45] == fixed[37..45] == Put64(ts);
    assert b[45..47] == fixed[45..47] == Put16(propsLen);
    assert b[0..4] == head[0..4] == MAGIC;
  }

  /** A buffer is the layout of its own fields. */
  lemma FieldsLayout(b: Bytes, props: Bytes, payload: Bytes)
    requires |b| >= HEADER_FIXED && b[0..4] == MAGIC && b[4] == VERSION && b[47..] == props + payload
    ensures Layout(b[5..21], b[21..37], GetUint(b[37..45]), GetUint(b[45..47]), props, payload) == b
  {
    PutGet(b[37..45]);
    PutGet(b[45..47]);
    assert b == b[0..4] + [b[4]] + b[5..21] + b[21..37] + b[37..45] + b[45..47] + b[47..];
  }

  lemma EncodedFields(e: Envelope)
    ensures var b := Encode(e);
            && b[0..4] == MAGIC && b[4] == VERSION && b[5..21] == e.idempotencyId && b[21..37] == e.serverMsgId
            && TimeField(b) == AsUnsigned(e.publishNanos) && PropsLen(b) == |e.userProps| % TWO_16
            && b[47..] == e.userProps + e.payload
  {
    LayoutFields(e.idempotencyId, e.serverMsgId, AsUnsigned(e.publishNanos), |e.userProps|, e.userProps, e.payload);
    Get64(AsUnsigned(e.publishNanos));
    Get16(|e.userProps|);
  }

  lemma SplitRest(b: Bytes, props: Bytes, payload: Bytes)
    requires |b| >= 47 && b[47..] == props + payload
    ensures b[47..47 + |props|] == props && b[47 + |props|..] == payload
  {
    assert b[47..47 + |props|] == b[47..][..|props|];
    assert b[47 + |props|..] == b[47..][|props|..];
  }

  /** Decode undoes Encode exactly for a non-nil idempotency id and props that fit their 16-bit length. */
  lemma DecodeEncode(e: Envelope)
    ensures Decode(Encode(e)) == Ok(e) <==> e.idempotencyId != NIL_UUID && |e.userProps| < TWO_16
  {
    EncodedFields(e);
    if |e.userProps| < TWO_16 {
      SplitRest(Encode(e), e.userProps, e.payload);
    }
  }

  /** Encode undoes Decode on every accepted byte string, negative timestamps included. */
  lemma EncodeDecode(data: Bytes)
    requires Decode(data).Ok?
    ensures Encode(Decode(data).env) == data
  {
    var e := Decode(data).env;
    assert data[47..] == e.userProps + e.payload;
    assert AsUnsigned(e.publishNanos) == TimeField(data);
    FieldsLayout(data, e.userProps, e.payload);
  }

  /** An envelope cut short is refused unless only its payload is cut. */
  lemma CutEnvelope(e: Envelope, k: nat)
    requires e.idempotencyId != NIL_UUID && |e.userProps| < TWO_16 && k <= |Encode(e)|
    ensures var header := HEADER_FIXED + |e.userProps|;
            if k < header then Decode(Encode(e)[..k]) == Err(TooShort)
            else k - header <= |e.payload| && Decode(Encode(e)[..k]) == Ok(e.(payload := e.payload[..k - header]))
  {
    var b, header := Encode(e), HEADER_FIXED + |e.userProps|;
    EncodedFields(e);
    if HEADER_FIXED <= k {
      var cut := b[..k];
      assert cut[0..4] == b[0..4] && cut[5..21] == b[5..21] && cut[21..37] == b[21..37];
      assert cut[37..45] == b[37..45] && cut[45..47] == b[45..47];
      if header <= k {
        assert cut[47..] == b[47..][..k - 47] == e.userProps + e.payload[..k - header];
        SplitRest(cut, e.userProps, e.payload[..k - header]);
      }
    }
  }

  /** One altered byte of the magic or the version, or a nil idempotency id, is refused as what it is. */
  lemma AlteredEnvelope(e: Envelope, i: nat, x: byte)
    requires i < 5 && x != Encode(e)[i]
    ensures Decode(Encode(e)[i := x]) == if i < 4 then Err(BadMagic) else Err(BadVersion(x))
    ensures e.idempotencyId == NIL_UUID ==> Decode(Encode(e)) == Err(InvalidUuid)
  {
    var b := Encode(e);
    EncodedFields(e);
    if i < 4 {
      assert b[i := x][0..4][i] == x && b[0..4][i] == b[i];
    } else {
      assert b[i := x][0..4] == b[0..4];
    }
  }

  /** Two accepted byte strings with the same fields are the same byte string. */
  lemma DecodeInjective(a: Bytes, b: Bytes)
    requires Decode(a).Ok? && Decode(a) == Decode(b)
    ensures a == b
  {
    EncodeDecode(a);
    EncodeDecode(b);
  }

  // ----- the Python SDK -----

  /** The Python dataclass keeps the timestamp as a plain int. */
  datatype PyEnvelope = PyEnvelope(
    idempotencyId: Uuid, serverMsgId: Uuid, publishNanos: int, userProps: Bytes, payload: Bytes)

  datatype PyResult = Value(env: PyEnvelope) | Raised
  datatype PyBytes = Wire(bytes: Bytes) | StructError

  /** struct.pack(">H", n) raises for n above 65535; the timestamp is masked to 64 bits. */
  function PyEncode(e: PyEnvelope): (r: PyBytes)
  {
    if |e.userProps| >= TWO_16 then StructError
    else Wire(Layout(e.idempotencyId, e.serverMsgId, e.publishNanos % TWO_64, |e.userProps|, e.userProps, e.payload))
  }

  /** Python slicing clamps to the end of the buffer. */
  function Clamp(n: nat, b: Bytes): (m: nat)
    ensures m <= |b|
  {
    if n <= |b| then n else |b|
  }

  function PyDecode(data: Bytes): (r: PyResult)
  {
    if |data| < HEADER_FIXED || data[..4] != MAGIC then Raised
    else if data[4] != VERSION then Raised
    else
      var cut := Clamp(47 + PropsLen(data), data);
      Value(PyEnvelope(data[5..21], data[21..37], TimeField(data), data[47..cut], data[cut..]))
  }

  /** The fields of a Go envelope as Python sees them: time modulo 2^64. */
  function ToPy(e: Envelope): (p: PyEnvelope)
  {
    PyEnvelope(e.idempotencyId, e.serverMsgId, AsUnsigned(e.publishNanos), e.userProps, e.payload)
  }

  /** Python accepts all that Go accepts, with the same fields; what it accepts beyond that is
      exactly a nil idempotency id or a props length that runs past the buffer. */
  lemma PythonAgreesWithGo(data: Bytes)
    ensures Decode(data).Ok? ==> PyDecode(data) == Value(ToPy(Decode(data).env))
    ensures Decode(data).Err? && PyDecode(data).Value? <==>
              && |data| >= HEADER_FIXED && data[..4] == MAGIC && data[4] == VERSION
              && (data[5..21] == NIL_UUID || |data| < HEADER_FIXED + PropsLen(data))
  {
    if |data| >= HEADER_FIXED {
      assert data[..4] == data[0..4];
    }
  }

  /** An envelope written by Python is read by Go with the same fields, for every Go timestamp. */
  lemma PythonToGo(e: Envelope)
    requires e.idempotencyId != NIL_UUID && |e.userProps| < TWO_16
    ensures PyEncode(ToPy(e)).Wire? && PyEncode(ToPy(e).(publishNanos := e.publishNanos)).Wire?
    ensures Decode(PyEncode(ToPy(e)).bytes) == Ok(e)
    ensures Decode(PyEncode(ToPy(e).(publishNanos := e.publishNanos)).bytes) == Ok(e)
  {
    assert e.publishNanos % TWO_64 == AsUnsigned(e.publishNanos);
    assert PyEncode(ToPy(e)).bytes == Encode(e);
    DecodeEncode(e);
  }
}
