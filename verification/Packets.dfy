/** MQTT packets on the wire: the broker's readers and writers. Bit operations are written as
    arithmetic: x & 0x7F is x % 128, x >> 4 is x / 16, and | of disjoint bits is +. */
module Packets {
  import opened Bytes

  const MAX_REMAINING: nat := 268_435_455

  datatype Fault =
    | EndOfStream | LengthOverflow | ShortString | BadProtocol | MissingLevel | MissingFlags
    | MissingKeepAlive | MissingPacketId | MissingQos | ShortBody | UnknownType(kind: nat)

  datatype Result<+T> = Ok(value: T) | Err(fault: Fault) {
    predicate IsFailure() { Err? }
    function PropagateFailure<U>(): Result<U> requires Err? { Err(fault) }
    function Extract(): T requires Ok? { value }
  }

  /** A 2-bit quality of service. */
  type QoS = q: int | 0 <= q <= 3

  datatype ConnectPacket = ConnectPacket(
    clientId: Bytes, username: Bytes, password: Bytes, cleanSession: bool, keepAlive: uint16)

  datatype PublishPacket = PublishPacket(
    topicName: Bytes, packetId: uint16, qos: QoS, retain: bool, dup: bool, payload: Bytes)

  datatype TopicFilter = TopicFilter(filter: Bytes, qos: QoS)

  datatype Packet =
    | Connect(connect: ConnectPacket)
    | Publish(publish: PublishPacket)
    | PubAck(packetId: uint16)
    | Subscribe(packetId: uint16, topics: seq<TopicFilter>)
    | Unsubscribe(packetId: uint16, filters: seq<Bytes>)
    | PingReq
    | Disconnect

  // ----- remaining length -----

  /** Seven bits a byte, least significant first, the top bit set on all but the last. */
  function EncodeLength(n: nat): (b: Bytes)
    ensures b != []
  {
    if n < 128 then [n] else [n % 128 + 128] + EncodeLength(n / 128)
  }

  method EncodeRemainingLength(n: nat) returns (buf: Bytes)
    ensures buf == EncodeLength(n)
  {
    var length := n;
    buf := [];
    while true
      invariant buf + EncodeLength(length) == EncodeLength(n)
      decreases length
    {
      var b := length % 128;
      var rest := length / 128;
      if rest > 0 {
        assert buf + EncodeLength(length) == (buf + [b + 128]) + EncodeLength(rest);
        buf := buf + [b + 128];
        length := rest;
      } else {
        buf := buf + [b];
        return;
      }
    }
  }

  /** The seven value bits of a length byte, shifted into place. */
  function Shifted(b: byte, scale: nat): (v: nat)
  {
    b % 128 * scale
  }

  /** Read from byte number i on: (value, bytes used in all). */
  function DecodeLength(s: Bytes, i: nat, length: nat, scale: nat): (r: Result<(nat, nat)>)
    requires i <= 3
    ensures r.Ok? ==> i < r.value.1 <= 4 && r.value.1 - i <= |s|
    decreases 3 - i
  {
    if s == [] then Err(EndOfStream)
    else
      var total := length + Shifted(s[0], scale);
      if s[0] < 128 then Ok((total, i + 1))
      else if i == 3 then Err(LengthOverflow)
      else DecodeLength(s[1..], i + 1, total, scale * 128)
  }

  method ReadRemainingLength(s: Bytes) returns (r: Result<(nat, nat)>)
    ensures r == DecodeLength(s, 0, 0, 1)
  {
    var length: nat, shift: nat, i: nat, scale: nat := 0, 0, 0, 1;
    while true
      invariant 0 <= i <= 3 && shift == 7 * i && i <= |s|
      invariant DecodeLength(s, 0, 0, 1) == DecodeLength(s[i..], i, length, scale)
      decreases 3 - i
    {
      if i == |s| {
        return Err(EndOfStream);
      }
      length := length + Shifted(s[i], scale);
      if s[i] < 128 {
        return Ok((length, i + 1));
      }
      shift := shift + 7;
      if shift > 21 {
        return Err(LengthOverflow);
      }
      assert s[i..][1..] == s[i + 1..];
      i, scale := i + 1, scale * 128;
    }
  }

  /** 128 to the power n. */
  function Pow128(n: nat): (p: nat)
    ensures p > 0
  {
    if n == 0 then 1 else 128 * Pow128(n - 1)
  }

  lemma Scales(m: nat, length: nat, scale: nat)
    ensures length + m % 128 * scale + m / 128 * (scale * 128) == length + m * scale
  {
    assert m == m / 128 * 128 + m % 128;
    assert m / 128 * (scale * 128) == (m / 128 * 128) * scale;
    assert (m / 128 * 128) * scale + m % 128 * scale == (m / 128 * 128 + m % 128) * scale;
  }

  lemma {:induction false} DecodeEncodedLength(m: nat, rest: Bytes, i: nat, length: nat, scale: nat)
    requires i <= 3
    ensures DecodeLength(EncodeLength(m) + rest, i, length, scale) ==
              if m < Pow128(4 - i) then Ok((length + m * scale, i + |EncodeLength(m)|)) else Err(LengthOverflow)
    decreases 3 - i
  {
    var s := EncodeLength(m) + rest;
    assert Pow128(4 - i) == 128 * Pow128(3 - i);
    if m < 128 {
      assert s[0] == m;
      assert Pow128(4 - i) >= 128;
    } else {
      assert s[0] == m % 128 + 128 && Shifted(s[0], scale) == m % 128 * scale;
      assert s[1..] == EncodeLength(m / 128) + rest;
      if i < 3 {
        DecodeEncodedLength(m / 128, rest, i + 1, length + m % 128 * scale, scale * 128);
        Scales(m, length, scale);
      } else {
        assert Pow128(1) == 128 * Pow128(0) == 128;
      }
    }
  }

  lemma {:induction false} EncodedSize(m: nat, k: nat)
    requires k > 0
    ensures |EncodeLength(m)| <= k <==> m < Pow128(k)
    decreases k
  {
    assert Pow128(k) == 128 * Pow128(k - 1);
    if m >= 128 && k > 1 {
      EncodedSize(m / 128, k - 1);
    }
  }

  /** The remaining length round-trips exactly up to 268435455, where its encoding takes at most four
      bytes; the reader rejects every longer encoding. */
  lemma LengthRoundTrip(n: nat, rest: Bytes)
    ensures DecodeLength(EncodeLength(n) + rest, 0, 0, 1) ==
              if n <= MAX_REMAINING then Ok((n, |EncodeLength(n)|)) else Err(LengthOverflow)
    ensures |EncodeLength(n)| <= 4 <==> n <= MAX_REMAINING
  {
    assert Pow128(4) == 128 * Pow128(3) == 128 * (128 * Pow128(2)) == 128 * (128 * (128 * Pow128(1))) == MAX_REMAINING + 1;
    DecodeEncodedLength(n, rest, 0, 0, 1);
    EncodedSize(n, 4);
  }

  // ----- strings -----

  function EncodeString(s: Bytes): (b: Bytes)
    ensures |b| == 2 + |s|
  {
    Put16(|s|) + s
  }

  /** A length-prefixed string and the position after it, never past the body. */
  function ReadString(b: Bytes, pos: nat): (r: Result<(Bytes, nat)>)
    ensures r.Ok? ==> pos + 2 <= r.value.1 <= |b| && |r.value.0| == r.value.1 - pos - 2 < TWO_16
    ensures r.Err? ==> r.fault == ShortString
  {
    if pos + 2 > |b| then Err(ShortString)
    else
      GetUintBound(b[pos..pos + 2]);
      Pow256Small();
      var l := GetUint(b[pos..pos + 2]);
      if pos + 2 + l > |b| then Err(ShortString)
      else Ok((b[pos + 2..pos + 2 + l], pos + 2 + l))
  }

  /** ReadString is the inverse of EncodeString wherever it stands, and reads nothing else: it succeeds with s
      and p exactly when the bytes from `pos` up to p are the encoding of s. */
  lemma ReadStringIff(b: Bytes, pos: nat, s: Bytes, p: nat)
    requires pos <= |b|
    ensures ReadString(b, pos) == Ok((s, p)) <==>
              |s| < TWO_16 && p == pos + 2 + |s| <= |b| && b[pos..p] == EncodeString(s)
  {
    if ReadString(b, pos) == Ok((s, p)) {
      PutGet(b[pos..pos + 2]);
      assert b[pos..p] == b[pos..pos + 2] + b[pos + 2..p];
    }
    if |s| < TWO_16 && p == pos + 2 + |s| <= |b| && b[pos..p] == EncodeString(s) {
      assert b == b[..pos] + EncodeString(s) + b[p..];
      ReadEncodedString(b[..pos], s, b[p..]);
    }
  }

  lemma ReadEncodedString(front: Bytes, s: Bytes, rest: Bytes)
    requires |s| < TWO_16
    ensures ReadString(front + EncodeString(s) + rest, |front|) == Ok((s, |front| + 2 + |s|))
  {
    var b := front + EncodeString(s) + rest;
    assert b[|front|..|front| + 2] == Put16(|s|);
    Get16(|s|);
    assert b[|front| + 2..|front| + 2 + |s|] == s;
  }

  function Read16(b: Bytes, pos: nat): (x: uint16)
    requires pos + 2 <= |b|
  {
    GetUintBound(b[pos..pos + 2]);
    Pow256Small();
    GetUint(b[pos..pos + 2])
  }

  lemma Read16Encoded(front: Bytes, x: uint16, rest: Bytes)
    ensures Read16(front + Put16(x) + rest, |front|) == x
  {
    Get16(x);
    assert (front + Put16(x) + rest)[|front|..|front| + 2] == Put16(x);
  }

  // ----- parsers -----

  function Bit(x: nat, weight: nat): (b: bool)
    requires weight > 0
  {
    x / weight % 2 == 1
  }

  function ParseConnect(body: Bytes): (r: Result<ConnectPacket>)
  {
    var (proto, pos) :- ReadString(body, 0);
    if proto != MQTT && proto != MQISDP then Err(BadProtocol) else ParseAfterProtocol(body, pos)
  }

  /** Protocol level, connect flags, keep-alive, client id, then what the flags announce. */
  function ParseAfterProtocol(body: Bytes, pos: nat): (r: Result<ConnectPacket>)
    requires pos <= |body|
  {
    if pos >= |body| then Err(MissingLevel)
    else if pos + 1 >= |body| then Err(MissingFlags)
    else if pos + 4 > |body| then Err(MissingKeepAlive)
    else
      var flags := body[pos + 1];
      var (clientId, p) :- ReadString(body, pos + 4);
      var (username, password) :- ParseCredentials(body, p, Bit(flags, 4), Bit(flags, 128), Bit(flags, 64));
      Ok(ConnectPacket(clientId, username, password, Bit(flags, 2), Read16(body, pos + 2)))
  }

  function ParseCredentials(body: Bytes, pos: nat, will: bool, user: bool, pass: bool): (r: Result<(Bytes, Bytes)>)
    requires pos <= |body|
  {
    var p :- SkipWill(body, pos, will);
    var (username, q) :- ReadIf(body, p, user);
    var (password, _) :- ReadIf(body, q, pass);
    Ok((username, password))
  }

  const MQTT: Bytes := [0x4D, 0x51, 0x54, 0x54]
  const MQISDP: Bytes := [0x4D, 0x51, 0x49, 0x73, 0x64, 0x70]

  function SkipWill(b: Bytes, pos: nat, present: bool): (r: Result<nat>)
    requires pos <= |b|
    ensures r.Ok? ==> pos <= r.value <= |b|
  {
    if !present then Ok(pos)
    else
      var (_, p) :- ReadString(b, pos);
      var (_, q) :- ReadString(b, p);
      Ok(q)
  }

  function ReadIf(b: Bytes, pos: nat, present: bool): (r: Result<(Bytes, nat)>)
    requires pos <= |b|
    ensures r.Ok? ==> pos <= r.value.1 <= |b|
  {
    if present then ReadString(b, pos) else Ok(([], pos))
  }

  function ParsePublish(flags: nat, body: Bytes): (r: Result<PublishPacket>)
    requires flags < 16
    ensures r.Ok? ==> |r.value.topicName| < TWO_16 && r.value.qos == flags / 2 % 4
  {
    var qos := flags / 2 % 4;
    var (topic, pos) :- ReadString(body, 0);
    if qos > 0 && pos + 2 > |body| then Err(MissingPacketId)
    else
      var (pid, start) := if qos > 0 then (Read16(body, pos), pos + 2) else (0, pos);
      Ok(PublishPacket(topic, pid, qos, Bit(flags, 1), Bit(flags, 8), body[start..]))
  }

  /** The SUBSCRIBE payload from `pos` on. */
  function ParseFilters(body: Bytes, pos: nat): (r: Result<seq<TopicFilter>>)
    decreases |body| - pos
  {
    if pos >= |body| then Ok([])
    else
      var (filter, p) :- ReadString(body, pos);
      if p >= |body| then Err(MissingQos)
      else
        var rest :- ParseFilters(body, p + 1);
        Ok([TopicFilter(filter, body[p] % 4)] + rest)
  }

  /** One turn of the loop that collects the filters. */
  lemma NextFilter(body: Bytes, topics: seq<TopicFilter>, pos: nat)
    requires pos < |body|
    ensures var s := ReadString(body, pos);
            Prefixed(topics, ParseFilters(body, pos)) ==
              if s.Err? then Err(s.fault)
              else if s.value.1 >= |body| then Err(MissingQos)
              else Prefixed(topics + [TopicFilter(s.value.0, body[s.value.1] % 4)], ParseFilters(body, s.value.1 + 1))
  {
    var s := ReadString(body, pos);
    if s.Ok? && s.value.1 < |body| {
      PrefixedStep(topics, TopicFilter(s.value.0, body[s.value.1] % 4), ParseFilters(body, s.value.1 + 1));
    }
  }

  method ParseSubscribe(body: Bytes) returns (r: Result<(uint16, seq<TopicFilter>)>)
    ensures r == SubscribeOf(body)
  {
    if |body| < 2 {
      return Err(ShortBody);
    }
    var pos: nat, topics: seq<TopicFilter> := 2, [];
    PrefixedNone(ParseFilters(body, 2));
    while pos < |body|
      invariant 2 <= pos <= |body|
      invariant ParseFilters(body, 2) == Prefixed(topics, ParseFilters(body, pos))
    {
      NextFilter(body, topics, pos);
      var s := ReadString(body, pos);
      if s.Err? {
        return Err(s.fault);
      }
      if s.value.1 >= |body| {
        return Err(MissingQos);
      }
      var f := TopicFilter(s.value.0, body[s.value.1] % 4);
      topics := topics + [f];
      pos := s.value.1 + 1;
    }
    assert topics + [] == topics;
    return Ok((Read16(body, 0), topics));
  }

  function SubscribeOf(body: Bytes): (r: Result<(uint16, seq<TopicFilter>)>)
  {
    if |body| < 2 then Err(ShortBody)
    else
      var topics :- ParseFilters(body, 2);
      Ok((Read16(body, 0), topics))
  }

  function Prefixed<T>(xs: seq<T>, r: Result<seq<T>>): (t: Result<seq<T>>)
  {
    var ys :- r;
    Ok(xs + ys)
  }

  lemma PrefixedNone<T>(r: Result<seq<T>>)
    ensures Prefixed([], r) == r
  {
    if r.Ok? {
      assert [] + r.value == r.value;
    }
  }

  lemma PrefixedStep<T>(xs: seq<T>, x: T, r: Result<seq<T>>)
    ensures Prefixed(xs, Prefixed([x], r)) == Prefixed(xs + [x], r)
  {
    if r.Ok? {
      assert xs + ([x] + r.value) == (xs + [x]) + r.value;
    }
  }

  /** The UNSUBSCRIBE payload from `pos` on. */
  function ParseNames(body: Bytes, pos: nat): (r: Result<seq<Bytes>>)
    decreases |body| - pos
  {
    if pos >= |body| then Ok([])
    else
      var (name, p) :- ReadString(body, pos);
      var rest :- ParseNames(body, p);
      Ok([name] + rest)
  }

  function UnsubscribeOf(body: Bytes): (r: Result<(uint16, seq<Bytes>)>)
  {
    if |body| < 2 then Err(ShortBody)
    else
      var names :- ParseNames(body, 2);
      Ok((Read16(body, 0), names))
  }

  method ParseUnsubscribe(body: Bytes) returns (r: Result<(uint16, seq<Bytes>)>)
    ensures r == UnsubscribeOf(body)
  {
    if |body| < 2 {
      return Err(ShortBody);
    }
    var pos: nat, names: seq<Bytes> := 2, [];
    PrefixedNone(ParseNames(body, 2));
    while pos < |body|
      invariant 2 <= pos <= |body|
      invariant ParseNames(body, 2) == Prefixed(names, ParseNames(body, pos))
    {
      var s := ReadString(body, pos);
      if s.Err? {
        return Err(s.fault);
      }
      PrefixedStep(names, s.value.0, ParseNames(body, s.value.1));
      names := names + [s.value.0];
      pos := s.value.1;
    }
    assert names + [] == names;
    return Ok((Read16(body, 0), names));
  }

  function ParseBody(kind: nat, flags: nat, body: Bytes): (r: Result<Packet>)
    requires flags < 16
  {
    if kind == 1 then
      var c :- ParseConnect(body); Ok(Connect(c))
    else if kind == 3 then
      var p :- ParsePublish(flags, body); Ok(Publish(p))
    else if kind == 4 then
      if |body| < 2 then Err(ShortBody) else Ok(PubAck(Read16(body, 0)))
    else if kind == 8 then
      var s :- SubscribeOf(body); Ok(Subscribe(s.0, s.1))
    else if kind == 10 then
      var u :- UnsubscribeOf(body); Ok(Unsubscribe(u.0, u.1))
    else if kind == 12 then Ok(PingReq)
    else if kind == 14 then Ok(Disconnect)
    else Err(UnknownType(kind))
  }

  /** One frame of a byte stream: its first byte, its body, and what follows it. */
  function ReadRaw(s: Bytes): (r: Result<(byte, Bytes, Bytes)>)
    ensures r.Ok? ==> |r.value.2| < |s| && r.value.2 == s[|s| - |r.value.2|..]
  {
    if s == [] then Err(EndOfStream)
    else
      var (remaining, used) :- DecodeLength(s[1..], 0, 0, 1);
      if |s| < 1 + used + remaining then Err(EndOfStream)
      else Ok((s[0], s[1 + used..1 + used + remaining], s[1 + used + remaining..]))
  }

  /** ReadPacket on a byte stream: the packet and what follows it. */
  function ReadPacket(s: Bytes): (r: Result<(Packet, Bytes)>)
    ensures r.Ok? ==> |r.value.1| < |s| && r.value.1 == s[|s| - |r.value.1|..]
  {
    var (header, body, rest) :- ReadRaw(s);
    var packet :- ParseBody(header / 16, header % 16, body);
    Ok((packet, rest))
  }

  lemma {:induction false} DecodeLengthLocal(s: Bytes, t: Bytes, i: nat, length: nat, scale: nat)
    requires i <= 3 && DecodeLength(s, i, length, scale).Ok?
    requires var n := DecodeLength(s, i, length, scale).value.1 - i; n <= |t| && t[..n] == s[..n]
    ensures DecodeLength(t, i, length, scale) == DecodeLength(s, i, length, scale)
    decreases 3 - i
  {
    var n := DecodeLength(s, i, length, scale).value.1 - i;
    assert s[0] == s[..n][0] == t[..n][0] == t[0];
    if s[0] >= 128 {
      assert s[1..][..n - 1] == s[..n][1..] == t[..n][1..] == t[1..][..n - 1];
      DecodeLengthLocal(s[1..], t[1..], i + 1, length + Shifted(s[0], scale), scale * 128);
    }
  }

  lemma ReadRawLocal(s: Bytes, more: Bytes)
    requires ReadRaw(s).Ok?
    ensures var (header, body, rest) := ReadRaw(s).value;
            ReadRaw(s[..|s| - |rest|] + more) == Ok((header, body, more))
  {
    var len, remaining := DecodeLength(s[1..], 0, 0, 1).value.1, DecodeLength(s[1..], 0, 0, 1).value.0;
    var used := 1 + len + remaining;
    assert |s[used..]| == |s| - used;
    SamePrefix(s, more, 1 + len, used);
    LengthStays(s, s[..used] + more, len);
  }

  lemma SamePrefix(s: Bytes, more: Bytes, m: nat, n: nat)
    requires 0 < m <= n <= |s|
    ensures var t := s[..n] + more;
            t[0] == s[0] && t[..m] == s[..m] && t[m..n] == s[m..n] && t[n..] == more
  {
  }

  /** A successful read depends on the bytes it consumes and on nothing after them: the same packet is read from
      them whatever follows. */
  lemma ReadPacketLocal(s: Bytes, more: Bytes)
    requires ReadPacket(s).Ok?
    ensures var (packet, rest) := ReadPacket(s).value;
            ReadPacket(s[..|s| - |rest|] + more) == Ok((packet, more))
  {
    ReadRawLocal(s, more);
  }

  lemma LengthStays(s: Bytes, t: Bytes, len: nat)
    requires s != [] && DecodeLength(s[1..], 0, 0, 1).Ok? && DecodeLength(s[1..], 0, 0, 1).value.1 == len
    requires 1 + len <= |s| && 1 + len <= |t| && t[..1 + len] == s[..1 + len]
    ensures DecodeLength(t[1..], 0, 0, 1) == DecodeLength(s[1..], 0, 0, 1)
  {
    assert t[1..][..len] == t[..1 + len][1..] == s[..1 + len][1..] == s[1..][..len];
    DecodeLengthLocal(s[1..], t[1..], 0, 0, 1);
  }

  /** A fixed header, a remaining length and a body. */
  function Frame(header: byte, body: Bytes): (b: Bytes)
  {
    [header] + EncodeLength(|body|) + body
  }

  lemma ReadFrame(header: byte, body: Bytes, rest: Bytes)
    ensures ReadPacket(Frame(header, body) + rest) ==
              if |body| > MAX_REMAINING then Err(LengthOverflow)
              else match ParseBody(header / 16, header % 16, body)
                   case Ok(packet) => Ok((packet, rest))
                   case Err(fault) => Err(fault)
  {
    ReadRawFrame(header, body, rest);
  }

  lemma ReadRawFrame(header: byte, body: Bytes, rest: Bytes)
    ensures ReadRaw(Frame(header, body) + rest) == if |body| > MAX_REMAINING then Err(LengthOverflow) else Ok((header, body, rest))
  {
    var s := Frame(header, body) + rest;
    var len := EncodeLength(|body|);
    assert s[1..] == len + (body + rest);
    LengthRoundTrip(|body|, body + rest);
    if |body| <= MAX_REMAINING {
      assert s[1 + |len|..1 + |len| + |body|] == body;
      assert s[1 + |len| + |body|..] == rest;
    }
  }

  // ----- PUBLISH -----

  function PublishBody(p: PublishPacket): (b: Bytes)
  {
    EncodeString(p.topicName) + (if p.qos > 0 then Put16(p.packetId) else []) + p.payload
  }

  function PublishHeader(qos: QoS, dup: bool): (h: byte)
  {
    48 + qos * 2 + if dup then 8 else 0
  }

  /** WritePublish has no retain parameter: the bit is never set. */
  function WritePublish(p: PublishPacket): (b: Bytes)
  {
    Frame(PublishHeader(p.qos, p.dup), PublishBody(p))
  }

  /** What the writer can carry: lengths that fit their fields, no retain, no id at QoS 0. */
  predicate Writable(p: PublishPacket)
  {
    |p.topicName| < TWO_16 && |PublishBody(p)| <= MAX_REMAINING && !p.retain && (p.qos == 0 ==> p.packetId == 0)
  }

  lemma HeaderBits(qos: QoS, dup: bool)
    ensures var h := PublishHeader(qos, dup);
            h / 16 == 3 && h % 16 / 2 % 4 == qos && Bit(h % 16, 8) == dup && !Bit(h % 16, 1)
  {
  }

  lemma ParseWrittenPublish(flags: nat, p: PublishPacket)
    requires flags < 16 && flags / 2 % 4 == p.qos && |p.topicName| < TWO_16
    ensures ParsePublish(flags, PublishBody(p)) ==
              Ok(PublishPacket(p.topicName, if p.qos > 0 then p.packetId else 0, p.qos, Bit(flags, 1), Bit(flags, 8), p.payload))
  {
    var body := PublishBody(p);
    var topic := EncodeString(p.topicName);
    var id: Bytes := if p.qos > 0 then Put16(p.packetId) else [];
    ReadEncodedString([], p.topicName, id + p.payload);
    assert body == [] + topic + (id + p.payload);
    if p.qos > 0 {
      Read16Encoded(topic, p.packetId, p.payload);
      assert body == topic + Put16(p.packetId) + p.payload;
    }
    assert body[|topic| + |id|..] == p.payload;
  }

  lemma ReadWrittenPublish(p: PublishPacket, rest: Bytes)
    requires |p.topicName| < TWO_16 && |PublishBody(p)| <= MAX_REMAINING
    ensures ReadPacket(WritePublish(p) + rest) ==
              Ok((Publish(p.(retain := false, packetId := if p.qos > 0 then p.packetId else 0)), rest))
  {
    var header := PublishHeader(p.qos, p.dup);
    var flags := header % 16;
    HeaderBits(p.qos, p.dup);
    ParseWrittenPublish(flags, p);
    assert ParseBody(3, flags, PublishBody(p)) ==
           Ok(Publish(p.(retain := false, packetId := if p.qos > 0 then p.packetId else 0)));
    ReadFrame(header, PublishBody(p), rest);
  }

  /** Whatever a PUBLISH frame is read as, its topic is shorter than 65536 bytes and its body is not
      longer than the largest remaining length. */
  lemma ReadPublishBounds(p: PublishPacket, rest: Bytes)
    requires ReadPacket(WritePublish(p) + rest).Ok? && ReadPacket(WritePublish(p) + rest).value.0.Publish?
    ensures |ReadPacket(WritePublish(p) + rest).value.0.publish.topicName| < TWO_16
    ensures |PublishBody(p)| <= MAX_REMAINING
  {
    ReadFrame(PublishHeader(p.qos, p.dup), PublishBody(p), rest);
  }

  /** A written PUBLISH is read back as itself, with nothing of what follows it touched, exactly when
      the writer can carry it. */
  lemma PublishRoundTrip(p: PublishPacket, rest: Bytes)
    ensures ReadPacket(WritePublish(p) + rest) == Ok((Publish(p), rest)) <==> Writable(p)
  {
    if |p.topicName| < TWO_16 && |PublishBody(p)| <= MAX_REMAINING {
      ReadWrittenPublish(p, rest);
    } else if ReadPacket(WritePublish(p) + rest).Ok? && ReadPacket(WritePublish(p) + rest).value.0.Publish? {
      ReadPublishBounds(p, rest);
    }
  }

  /** The session's read loop: packets until the first failure. */
  function ReadAll(s: Bytes): (r: (seq<Packet>, Fault))
    decreases |s|
  {
    match ReadPacket(s)
    case Err(fault) => ([], fault)
    case Ok((packet, rest)) =>
      var (packets, fault) := ReadAll(rest);
      ([packet] + packets, fault)
  }

  function WriteAll(ps: seq<PublishPacket>): (b: Bytes)
  {
    if ps == [] then [] else WritePublish(ps[0]) + WriteAll(ps[1..])
  }

  function AsPackets(ps: seq<PublishPacket>): (r: seq<Packet>)
    ensures |r| == |ps| && forall i :: 0 <= i < |ps| ==> r[i] == Publish(ps[i])
  {
    if ps == [] then [] else [Publish(ps[0])] + AsPackets(ps[1..])
  }

  /** Stream framing: reading any concatenation of written PUBLISH packets returns exactly that list,
      then the end of the stream. */
  lemma {:induction false} StreamFraming(ps: seq<PublishPacket>)
    requires forall i :: 0 <= i < |ps| ==> Writable(ps[i])
    ensures ReadAll(WriteAll(ps)) == (AsPackets(ps), EndOfStream)
  {
    if ps != [] {
      StreamFraming(ps[1..]);
      PublishRoundTrip(ps[0], WriteAll(ps[1..]));
    }
  }
}
