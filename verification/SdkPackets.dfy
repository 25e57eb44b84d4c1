/** The Go SDK's own packet builders and its PUBLISH parser, against the broker's parsers. */
module SdkPackets {
  import opened Bytes
  import opened Packets
  import opened PacketFormats
  import opened Common

  // ----- CONNECT -----

  const KEEP_ALIVE: uint16 := 60

  function ConnectFlags(username: Bytes, password: Bytes): (f: byte)
  {
    2 + if username == [] then 0 else 128 + if password == [] then 0 else 64
  }

  function Optional(s: Bytes): (b: Bytes)
  {
    if s == [] then [] else EncodeString(s)
  }

  function ConnectHead(flags: byte): (b: Bytes)
    ensures |b| == 10
  {
    EncodeString(MQTT) + [4, flags] + Put16(KEEP_ALIVE)
  }

  /** A password is appended even without a username, though no flag announces it then. */
  function ConnectBody(clientId: Bytes, username: Bytes, password: Bytes): (b: Bytes)
  {
    ConnectHead(ConnectFlags(username, password)) + EncodeString(clientId) + Optional(username) + Optional(password)
  }

  function ConnectBytes(clientId: Bytes, username: Bytes, password: Bytes): (b: Bytes)
  {
    Frame(0x10, ConnectBody(clientId, username, password))
  }

  lemma FlagBits(username: Bytes, password: Bytes)
    ensures var f := ConnectFlags(username, password);
            && Bit(f, 2) && !Bit(f, 4) && Bit(f, 128) == (username != [])
            && Bit(f, 64) == (username != [] && password != [])
  {
  }

  function Given(s: Bytes): (o: Option<Bytes>)
  {
    if s == [] then None else Some(s)
  }

  /** What the SDK's flags announce. */
  function Announced(clientId: Bytes, username: Bytes, password: Bytes): (w: ConnectWire)
  {
    ConnectWire(MQTT, 4, ConnectFlags(username, password), KEEP_ALIVE, clientId, None,
                Given(username), if username == [] then None else Given(password))
  }

  lemma AnnouncedText(clientId: Bytes, username: Bytes, password: Bytes)
    ensures ConnectBody(clientId, username, password) ==
              ConnectText(Announced(clientId, username, password)) + if username == [] then Optional(password) else []
  {
    assert Text(Given(username)) == Optional(username) && Text(Given(password)) == Optional(password);
    assert Lead(Announced(clientId, username, password)) == ConnectHead(ConnectFlags(username, password));
  }

  /** The broker reads an SDK CONNECT back with its client id, clean session and keep-alive, and with
      the credentials the client was given exactly when a password comes with a username. */
  lemma ConnectRoundTrip(clientId: Bytes, username: Bytes, password: Bytes, rest: Bytes)
    requires |clientId| < TWO_16 && |username| < TWO_16 && |password| < TWO_16
    ensures ReadPacket(ConnectBytes(clientId, username, password) + rest)
         == Ok((Connect(ConnectPacket(clientId, username, if username == [] then [] else password, true, KEEP_ALIVE)), rest))
    ensures ReadPacket(ConnectBytes(clientId, username, password) + rest)
         == Ok((Connect(ConnectPacket(clientId, username, password, true, KEEP_ALIVE)), rest))
         <==> username != [] || password == []
  {
    FlagBits(username, password);
    AnnouncedText(clientId, username, password);
    ConnectReads(Announced(clientId, username, password), if username == [] then Optional(password) else []);
    ReadFrame(0x10, ConnectBody(clientId, username, password), rest);
  }

  // ----- SUBSCRIBE -----

  /** The SDK writes each filter with its QoS as the options byte. */
  function Raw(fs: seq<TopicFilter>): (rs: seq<RawFilter>)
    ensures |rs| == |fs| && forall i :: 0 <= i < |fs| ==> rs[i] == RawFilter(fs[i].filter, fs[i].qos)
  {
    seq(|fs|, i requires 0 <= i < |fs| => RawFilter(fs[i].filter, fs[i].qos))
  }

  lemma RawMeans(fs: seq<TopicFilter>)
    ensures AsFilters(Raw(fs)) == fs
  {
  }

  function SubscribeBytes(packetId: uint16, fs: seq<TopicFilter>): (b: Bytes)
  {
    Frame(0x82, Put16(packetId) + EncodeRaw(Raw(fs)))
  }

  /** SUBSCRIBE bytes parse back to their packet id and filters, for every list of filters; the SDK
      sends the one-filter case under packet id 1. */
  lemma SubscribeRoundTrip(packetId: uint16, fs: seq<TopicFilter>, rest: Bytes)
    requires forall i :: 0 <= i < |fs| ==> |fs[i].filter| < TWO_16
    requires 2 + |EncodeRaw(Raw(fs))| <= MAX_REMAINING
    ensures ReadPacket(SubscribeBytes(packetId, fs) + rest) == Ok((Subscribe(packetId, fs), rest))
  {
    RawMeans(fs);
    ReadsSubscribe(packetId, Raw(fs), rest);
  }

  // ----- PUBLISH as the SDK reads it -----

  /** parsePublishBody gives up silently: zero values on a short body, no packet id when it is cut off. */
  function SdkParsePublish(body: Bytes, qos: QoS): (r: (Bytes, Bytes, uint16))
  {
    var s := ReadString(body, 0);
    if s.Err? then ([], [], 0)
    else
      var (topic, pos) := s.value;
      if qos > 0 && pos + 2 <= |body| then (topic, body[pos + 2..], Read16(body, pos)) else (topic, body[pos..], 0)
  }

  /** On every body the broker's parser accepts, the SDK sees the same topic, payload and packet id. */
  lemma SdkAgreesWithBroker(flags: nat, body: Bytes)
    requires flags < 16
    ensures ParsePublish(flags, body).Ok? ==>
              var p := ParsePublish(flags, body).value;
              SdkParsePublish(body, p.qos) == (p.topicName, p.payload, p.packetId)
    ensures ParsePublish(flags, body).Err? ==> SdkParsePublish(body, flags / 2 % 4).2 == 0
  {
  }

  /** Where the broker would refuse: no topic gives nothing, and a packet id that is not all there is left in the
      payload as id 0. */
  lemma SdkOnShortBodies(topic: Bytes, cut: Bytes, qos: QoS, body: Bytes)
    requires |topic| < TWO_16 && |cut| < 2
    ensures SdkParsePublish(EncodeString(topic) + cut, qos) == (topic, cut, 0)
    ensures body == [] || Broken(body) ==> SdkParsePublish(body, qos) == ([], [], 0)
  {
    var b := EncodeString(topic) + cut;
    assert b == [] + EncodeString(topic) + cut;
    ReadAt(b, [], topic, cut);
    assert b[2 + |topic|..] == cut && body[0..] == body;
    BrokenString(body, 0);
  }

  /** The SDK's readRemainingLength has no limit of four bytes. */
  function SdkDecodeLength(s: Bytes): (r: Result<(nat, nat)>)
    ensures r.Ok? ==> 0 < r.value.1 <= |s|
  {
    if s == [] then Err(EndOfStream)
    else if s[0] < 128 then Ok((s[0], 1))
    else
      var (rest, used) :- SdkDecodeLength(s[1..]);
      Ok((s[0] % 128 + 128 * rest, 1 + used))
  }

  lemma {:induction false} SdkLengthRoundTrip(n: nat, rest: Bytes)
    ensures SdkDecodeLength(EncodeLength(n) + rest) == Ok((n, |EncodeLength(n)|))
  {
    var s := EncodeLength(n) + rest;
    if n >= 128 {
      assert s[0] == n % 128 + 128 && s[1..] == EncodeLength(n / 128) + rest;
      SdkLengthRoundTrip(n / 128, rest);
    }
  }

  /** readPacketFlags followed by parsePublishBody, as the consume loop does for type 3; other types are
      skipped. The result is (topic, payload, packet id) and the rest of the stream. */
  function SdkReceive(s: Bytes): (r: Result<(Option<(Bytes, Bytes, uint16)>, Bytes)>)
  {
    if s == [] then Err(EndOfStream)
    else
      var (remaining, used) :- SdkDecodeLength(s[1..]);
      if |s| < 1 + used + remaining then Err(EndOfStream)
      else
        var body := s[1 + used..1 + used + remaining];
        Ok((if s[0] / 16 == 3 then Some(SdkParsePublish(body, s[0] / 2 % 4)) else None, s[1 + used + remaining..]))
  }

  lemma SdkReceivesFrame(header: byte, body: Bytes, rest: Bytes)
    requires header / 16 == 3
    ensures SdkReceive(Frame(header, body) + rest) == Ok((Some(SdkParsePublish(body, header / 2 % 4)), rest))
  {
    var s, len := Frame(header, body) + rest, EncodeLength(|body|);
    assert s[1..] == len + (body + rest);
    SdkLengthRoundTrip(|body|, body + rest);
    assert s[1 + |len|..1 + |len| + |body|] == body;
    assert s[1 + |len| + |body|..] == rest;
  }

  /** A packet of any other type is passed over: nothing is handed on, and what follows it is left alone. */
  lemma SdkPassesOver(header: byte, body: Bytes, rest: Bytes)
    ensures header / 16 != 3 ==> SdkReceive(Frame(header, body) + rest) == Ok((None, rest))
  {
    var s, len := Frame(header, body) + rest, EncodeLength(|body|);
    assert s[1..] == len + (body + rest);
    SdkLengthRoundTrip(|body|, body + rest);
    assert s[1 + |len| + |body|..] == rest;
  }

  lemma {:induction false} SdkCutLength(n: nat, k: nat)
    requires k < |EncodeLength(n)|
    ensures SdkDecodeLength(EncodeLength(n)[..k]) == Err(EndOfStream)
    decreases k
  {
    if k > 0 {
      assert EncodeLength(n)[..k][1..] == EncodeLength(n / 128)[..k - 1];
      SdkCutLength(n / 128, k - 1);
    }
  }

  /** A stream that ends inside a packet gives nothing. */
  lemma SdkCutPacket(header: byte, body: Bytes, k: nat)
    requires k < |Frame(header, body)|
    ensures SdkReceive(Frame(header, body)[..k]) == Err(EndOfStream)
  {
    var len := EncodeLength(|body|);
    if 0 < k {
      CutFrame(header, len, body, k);
      if k <= |len| {
        SdkCutLength(|body|, k - 1);
      } else {
        SdkLengthRoundTrip(|body|, body[..k - 1 - |len|]);
      }
    }
  }

  lemma SdkHeaderBits(qos: QoS, dup: bool)
    ensures PublishHeader(qos, dup) / 16 == 3 && PublishHeader(qos, dup) / 2 % 4 == qos
  {
  }

  lemma BodyToSdk(p: PublishPacket)
    requires Writable(p)
    ensures SdkParsePublish(PublishBody(p), p.qos) == (p.topicName, p.payload, p.packetId)
  {
    HeaderBits(p.qos, p.dup);
    var flags := PublishHeader(p.qos, p.dup) % 16;
    ParseWrittenPublish(flags, p);
    SdkAgreesWithBroker(flags, PublishBody(p));
  }

  /** Every PUBLISH the broker can write reaches the SDK with its topic, payload and packet id, and leaves the
      rest of the stream alone. */
  lemma BrokerToSdk(p: PublishPacket, rest: Bytes)
    requires Writable(p)
    ensures SdkReceive(WritePublish(p) + rest) == Ok((Some((p.topicName, p.payload, p.packetId)), rest))
  {
    SdkHeaderBits(p.qos, p.dup);
    BodyToSdk(p);
    SdkReceivesFrame(PublishHeader(p.qos, p.dup), PublishBody(p), rest);
  }

  /** The SDK's writePublish: variable header and payload are appended separately. */
  function SdkPublishBytes(topic: Bytes, payload: Bytes, qos: QoS, pid: uint16, dup: bool): (b: Bytes)
  {
    var vh := Put16(|topic|) + topic + if qos > 0 then Put16(pid) else [];
    [PublishHeader(qos, dup)] + EncodeLength(|vh| + |payload|) + vh + payload
  }

  /** A PUBLISH of the SDK is read by the broker as exactly its topic, payload, QoS, packet id and DUP flag, if
      and only if the topic and the body fit their length fields and QoS 0 comes without a packet id. */
  lemma SdkToBroker(topic: Bytes, payload: Bytes, qos: QoS, pid: uint16, dup: bool, rest: Bytes)
    ensures var p := PublishPacket(topic, pid, qos, false, dup, payload);
            ReadPacket(SdkPublishBytes(topic, payload, qos, pid, dup) + rest) == Ok((Publish(p), rest)) <==> Writable(p)
  {
    var p := PublishPacket(topic, pid, qos, false, dup, payload);
    var vh := Put16(|topic|) + topic + if qos > 0 then Put16(pid) else [];
    assert PublishBody(p) == vh + payload;
    assert SdkPublishBytes(topic, payload, qos, pid, dup) == WritePublish(p);
    PublishRoundTrip(p, rest);
  }
}
