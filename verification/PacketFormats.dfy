/** The layout of every packet the broker reads: which byte strings each parser accepts, what it takes from them,
    and how it refuses the others. */
module PacketFormats {
  import opened Bytes
  import opened Common
  import opened Packets

  // ----- strings one after the other -----

  /** The string of `whole` at `pos` is what is read there. */
  lemma ReadAt(b: Bytes, front: Bytes, s: Bytes, rest: Bytes)
    requires b == front + EncodeString(s) + rest && |s| < TWO_16
    ensures ReadString(b, |front|) == Ok((s, |front| + 2 + |s|))
  {
    ReadEncodedString(front, s, rest);
  }

  /** No encoded string stands at the beginning, though there is something. */
  ghost predicate Broken(tail: Bytes)
  {
    tail != [] && forall s :: |s| < TWO_16 ==> !IsPrefix(EncodeString(s), tail)
  }

  lemma BrokenString(b: Bytes, pos: nat)
    requires pos <= |b|
    ensures Broken(b[pos..]) ==> ReadString(b, pos) == Err(ShortString)
    ensures pos < |b| && ReadString(b, pos).Err? ==> Broken(b[pos..])
  {
    if ReadString(b, pos).Ok? {
      var (s, p) := ReadString(b, pos).value;
      ReadStringIff(b, pos, s, p);
      assert b[pos..][..|EncodeString(s)|] == b[pos..p] == EncodeString(s);
    } else {
      forall s | |s| < TWO_16 ensures !IsPrefix(EncodeString(s), b[pos..]) {
        if IsPrefix(EncodeString(s), b[pos..]) {
          assert b[pos..pos + 2 + |s|] == b[pos..][..2 + |s|] == EncodeString(s);
          ReadStringIff(b, pos, s, pos + 2 + |s|);
        }
      }
    }
  }

  lemma EndsWith(b: Bytes, pos: nat, middle: Bytes, tail: Bytes)
    requires pos <= |b| && b[pos..] == middle + tail
    ensures b[|b| - |tail|..] == tail
  {
  }

  // ----- UNSUBSCRIBE -----

  function EncodeNames(names: seq<Bytes>): (b: Bytes)
    ensures names != [] ==> b != []
  {
    if names == [] then [] else EncodeString(names[0]) + EncodeNames(names[1..])
  }

  predicate FitNames(names: seq<Bytes>)
  {
    forall i :: 0 <= i < |names| ==> |names[i]| < TWO_16
  }

  lemma NameReads(b: Bytes, pos: nat, name: Bytes, rest: Bytes)
    requires pos <= |b| && |name| < TWO_16 && b[pos..] == EncodeString(name) + rest
    ensures var p := pos + 2 + |name|; p <= |b| && ReadString(b, pos) == Ok((name, p)) && b[p..] == rest
  {
    var p, shape := pos + 2 + |name|, EncodeString(name) + rest;
    assert b[pos..p] == shape[..p - pos] == EncodeString(name);
    assert b[p..] == shape[p - pos..] == rest;
    ReadStringIff(b, pos, name, p);
  }

  lemma NameThen(b: Bytes, pos: nat, name: Bytes, p: nat)
    requires pos < p <= |b| && ReadString(b, pos) == Ok((name, p))
    ensures ParseNames(b, pos) == Prefixed([name], ParseNames(b, p))
  {
  }

  lemma NamesCons(names: seq<Bytes>, tail: Bytes)
    requires names != []
    ensures EncodeNames(names) + tail == EncodeString(names[0]) + (EncodeNames(names[1..]) + tail)
  {
    Associate(EncodeString(names[0]), EncodeNames(names[1..]), tail);
  }

  lemma Associate(a: Bytes, b: Bytes, c: Bytes)
    ensures (a + b) + c == a + (b + c)
  {
  }

  lemma FirstName(b: Bytes, pos: nat, names: seq<Bytes>, tail: Bytes) returns (p: nat)
    requires pos <= |b| && names != [] && FitNames(names) && b[pos..] == EncodeNames(names) + tail
    ensures p <= |b| && b[p..] == EncodeNames(names[1..]) + tail
    ensures ParseNames(b, pos) == Prefixed([names[0]], ParseNames(b, p))
  {
    p := pos + 2 + |names[0]|;
    NamesCons(names, tail);
    NameReads(b, pos, names[0], EncodeNames(names[1..]) + tail);
    NameThen(b, pos, names[0], p);
  }

  /** Whole names are read first; what comes of the rest decides. */
  lemma {:induction false} NamesThen(b: Bytes, pos: nat, names: seq<Bytes>, tail: Bytes)
    requires pos <= |b| && FitNames(names) && b[pos..] == EncodeNames(names) + tail
    ensures ParseNames(b, pos) == Prefixed(names, ParseNames(b, |b| - |tail|))
    decreases |names|
  {
    if names == [] {
      PrefixedNone(ParseNames(b, pos));
    } else {
      var p := FirstName(b, pos, names, tail);
      NamesThen(b, p, names[1..], tail);
      PrefixedTwice(names[0], names[1..], ParseNames(b, |b| - |tail|));
      assert [names[0]] + names[1..] == names;
    }
  }

  lemma {:induction false} NamesStand(b: Bytes, pos: nat)
    requires pos <= |b| && ParseNames(b, pos).Ok?
    ensures FitNames(ParseNames(b, pos).value) && b[pos..] == EncodeNames(ParseNames(b, pos).value)
    decreases |b| - pos
  {
    if pos < |b| {
      var (name, p) := ReadString(b, pos).value;
      ReadStringIff(b, pos, name, p);
      NamesStand(b, p);
      var names := [name] + ParseNames(b, p).value;
      assert names[1..] == ParseNames(b, p).value;
      assert b[pos..] == b[pos..p] + b[p..];
    }
  }

  /** An UNSUBSCRIBE body is read as this id and these names exactly when it is their encoding. */
  lemma UnsubscribeIff(body: Bytes, packetId: uint16, names: seq<Bytes>)
    ensures UnsubscribeOf(body) == Ok((packetId, names)) <==> FitNames(names) && body == Put16(packetId) + EncodeNames(names)
  {
    if UnsubscribeOf(body) == Ok((packetId, names)) {
      NamesStand(body, 2);
      PutGet(body[0..2]);
      assert body == body[0..2] + body[2..];
    }
    if FitNames(names) && body == Put16(packetId) + EncodeNames(names) {
      assert body[2..] == EncodeNames(names) + [];
      NamesThen(body, 2, names, []);
      assert names + [] == names;
      Read16Encoded([], packetId, EncodeNames(names));
      assert body == [] + Put16(packetId) + EncodeNames(names);
    }
  }

  lemma NamesBreak(b: Bytes, pos: nat, names: seq<Bytes>, at: nat)
    requires at <= |b| && Broken(b[at..]) && ParseNames(b, pos) == Prefixed(names, ParseNames(b, at))
    ensures ParseNames(b, pos) == Err(ShortString)
  {
    BrokenString(b, at);
  }

  /** Otherwise it is shorter than a packet id, or breaks off inside a name. */
  lemma UnsubscribeFault(body: Bytes, names: seq<Bytes>, tail: Bytes)
    requires |body| >= 2 ==> FitNames(names) && Broken(tail) && body[2..] == EncodeNames(names) + tail
    ensures UnsubscribeOf(body) == Err(if |body| < 2 then ShortBody else ShortString)
  {
    if |body| >= 2 {
      NamesThen(body, 2, names, tail);
      EndsWith(body, 2, EncodeNames(names), tail);
      NamesBreak(body, 2, names, |body| - |tail|);
    }
  }

  // ----- SUBSCRIBE -----

  /** A filter and its options byte, of which the broker keeps the two lowest bits. */
  datatype RawFilter = RawFilter(filter: Bytes, options: byte)

  function EncodeFilter(r: RawFilter): (b: Bytes)
    ensures |b| == 3 + |r.filter|
  {
    EncodeString(r.filter) + [r.options]
  }

  function EncodeRaw(rs: seq<RawFilter>): (b: Bytes)
    ensures rs != [] ==> b != []
  {
    if rs == [] then [] else EncodeFilter(rs[0]) + EncodeRaw(rs[1..])
  }

  predicate FitRaw(rs: seq<RawFilter>)
  {
    forall i :: 0 <= i < |rs| ==> |rs[i].filter| < TWO_16
  }

  function AsFilter(r: RawFilter): (f: TopicFilter)
  {
    TopicFilter(r.filter, r.options % 4)
  }

  function AsFilters(rs: seq<RawFilter>): (fs: seq<TopicFilter>)
    ensures |fs| == |rs| && forall i :: 0 <= i < |rs| ==> fs[i] == AsFilter(rs[i])
  {
    if rs == [] then [] else [AsFilter(rs[0])] + AsFilters(rs[1..])
  }

  lemma FilterReads(b: Bytes, pos: nat, r: RawFilter, rest: Bytes)
    requires pos <= |b| && |r.filter| < TWO_16 && b[pos..] == EncodeFilter(r) + rest
    ensures var p := pos + 2 + |r.filter|;
            p < |b| && ReadString(b, pos) == Ok((r.filter, p)) && b[p] == r.options && b[p + 1..] == rest
  {
    var p := pos + 2 + |r.filter|;
    var shape := EncodeString(r.filter) + [r.options] + rest;
    assert b[pos..] == shape;
    assert b[pos..p] == shape[..p - pos] == EncodeString(r.filter) && b[p] == shape[p - pos] == r.options;
    assert b[p + 1..] == shape[p + 1 - pos..] == rest;
    ReadStringIff(b, pos, r.filter, p);
  }

  lemma FilterThen(b: Bytes, pos: nat, r: RawFilter, p: nat)
    requires pos < p < |b| && ReadString(b, pos) == Ok((r.filter, p)) && b[p] == r.options
    ensures ParseFilters(b, pos) == Prefixed([AsFilter(r)], ParseFilters(b, p + 1))
  {
  }

  lemma RawCons(rs: seq<RawFilter>, tail: Bytes)
    requires rs != []
    ensures EncodeRaw(rs) + tail == EncodeFilter(rs[0]) + (EncodeRaw(rs[1..]) + tail)
  {
    Associate(EncodeFilter(rs[0]), EncodeRaw(rs[1..]), tail);
  }

  lemma PrefixedTwice<T>(x: T, xs: seq<T>, r: Result<seq<T>>)
    ensures Prefixed([x], Prefixed(xs, r)) == Prefixed([x] + xs, r)
  {
    if r.Ok? { assert [x] + (xs + r.value) == ([x] + xs) + r.value; }
  }

  lemma FiltersJoin(rs: seq<RawFilter>, all: Result<seq<TopicFilter>>, more: Result<seq<TopicFilter>>, last: Result<seq<TopicFilter>>)
    requires rs != [] && all == Prefixed([AsFilter(rs[0])], more) && more == Prefixed(AsFilters(rs[1..]), last)
    ensures all == Prefixed(AsFilters(rs), last)
  {
    PrefixedTwice(AsFilter(rs[0]), AsFilters(rs[1..]), last);
  }

  lemma FirstFilter(b: Bytes, pos: nat, rs: seq<RawFilter>, tail: Bytes) returns (p: nat)
    requires pos <= |b| && rs != [] && FitRaw(rs) && b[pos..] == EncodeRaw(rs) + tail
    ensures p < |b| && b[p + 1..] == EncodeRaw(rs[1..]) + tail
    ensures ParseFilters(b, pos) == Prefixed([AsFilter(rs[0])], ParseFilters(b, p + 1))
  {
    p := pos + 2 + |rs[0].filter|;
    RawCons(rs, tail);
    FilterReads(b, pos, rs[0], EncodeRaw(rs[1..]) + tail);
    FilterThen(b, pos, rs[0], p);
  }

  /** Whole filters are read first; what comes of the rest decides. */
  lemma {:induction false} FiltersThen(b: Bytes, pos: nat, rs: seq<RawFilter>, tail: Bytes)
    requires pos <= |b| && FitRaw(rs) && b[pos..] == EncodeRaw(rs) + tail
    ensures ParseFilters(b, pos) == Prefixed(AsFilters(rs), ParseFilters(b, |b| - |tail|))
    decreases |rs|
  {
    if rs == [] {
      PrefixedNone(ParseFilters(b, pos));
    } else {
      var p := FirstFilter(b, pos, rs, tail);
      FiltersThen(b, p + 1, rs[1..], tail);
      FiltersJoin(rs, ParseFilters(b, pos), ParseFilters(b, p + 1), ParseFilters(b, |b| - |tail|));
    }
  }

  lemma {:induction false} FiltersStand(b: Bytes, pos: nat) returns (rs: seq<RawFilter>)
    requires pos <= |b| && ParseFilters(b, pos).Ok?
    ensures FitRaw(rs) && b[pos..] == EncodeRaw(rs) && AsFilters(rs) == ParseFilters(b, pos).value
    decreases |b| - pos
  {
    if pos == |b| {
      rs := [];
    } else {
      var (filter, p) := ReadString(b, pos).value;
      ReadStringIff(b, pos, filter, p);
      var more := FiltersStand(b, p + 1);
      rs := [RawFilter(filter, b[p])] + more;
      assert rs[1..] == more;
      assert b[pos..] == b[pos..p] + [b[p]] + b[p + 1..];
    }
  }

  /** A SUBSCRIBE body is read as this id and these filters exactly when it is their encoding under some options
      bytes with the same two lowest bits. */
  lemma SubscribeIff(body: Bytes, packetId: uint16, fs: seq<TopicFilter>)
    ensures SubscribeOf(body) == Ok((packetId, fs)) <==>
              exists rs :: FitRaw(rs) && AsFilters(rs) == fs && body == Put16(packetId) + EncodeRaw(rs)
  {
    if SubscribeOf(body) == Ok((packetId, fs)) {
      var rs := FiltersStand(body, 2);
      PutGet(body[0..2]);
      assert body == body[0..2] + body[2..];
      assert FitRaw(rs) && AsFilters(rs) == fs && body == Put16(packetId) + EncodeRaw(rs);
    }
    if rs :| FitRaw(rs) && AsFilters(rs) == fs && body == Put16(packetId) + EncodeRaw(rs) {
      SubscribeReads(packetId, rs);
    }
  }

  lemma SubscribeReads(packetId: uint16, rs: seq<RawFilter>)
    requires FitRaw(rs)
    ensures SubscribeOf(Put16(packetId) + EncodeRaw(rs)) == Ok((packetId, AsFilters(rs)))
  {
    var body := Put16(packetId) + EncodeRaw(rs);
    assert body[2..] == EncodeRaw(rs) + [];
    FiltersThen(body, 2, rs, []);
    assert AsFilters(rs) + [] == AsFilters(rs);
    Read16Encoded([], packetId, EncodeRaw(rs));
    assert body == [] + Put16(packetId) + EncodeRaw(rs);
  }

  lemma FiltersBreak(b: Bytes, pos: nat, fs: seq<TopicFilter>, at: nat)
    requires at <= |b| && Broken(b[at..]) && ParseFilters(b, pos) == Prefixed(fs, ParseFilters(b, at))
    ensures ParseFilters(b, pos) == Err(ShortString)
  {
    BrokenString(b, at);
  }

  lemma LastFilterAlone(b: Bytes, pos: nat, s: Bytes)
    requires pos <= |b| && |s| < TWO_16 && b[pos..] == EncodeString(s)
    ensures ParseFilters(b, pos) == Err(MissingQos)
  {
    ReadStringIff(b, pos, s, |b|);
  }

  /** Otherwise it is shorter than a packet id, breaks off inside a filter, or ends after a filter without its
      options byte. */
  lemma SubscribeFault(body: Bytes, rs: seq<RawFilter>, tail: Bytes)
    requires |body| >= 2 ==> FitRaw(rs) && body[2..] == EncodeRaw(rs) + tail && Broken(tail)
    ensures SubscribeOf(body) == Err(if |body| < 2 then ShortBody else ShortString)
  {
    if |body| >= 2 {
      FiltersThen(body, 2, rs, tail);
      EndsWith(body, 2, EncodeRaw(rs), tail);
      FiltersBreak(body, 2, AsFilters(rs), |body| - |tail|);
    }
  }

  lemma SubscribeWithoutOptions(body: Bytes, rs: seq<RawFilter>, last: Bytes)
    requires |body| >= 2 && FitRaw(rs) && |last| < TWO_16 && body[2..] == EncodeRaw(rs) + EncodeString(last)
    ensures SubscribeOf(body) == Err(MissingQos)
  {
    FiltersThen(body, 2, rs, EncodeString(last));
    EndsWith(body, 2, EncodeRaw(rs), EncodeString(last));
    LastFilterAlone(body, |body| - |EncodeString(last)|, last);
  }

  // ----- CONNECT -----

  datatype Will = Will(topic: Bytes, message: Bytes)

  /** A CONNECT as it stands on the wire. */
  datatype ConnectWire = ConnectWire(
    protocol: Bytes, level: byte, flags: byte, keepAlive: uint16,
    clientId: Bytes, will: Option<Will>, username: Option<Bytes>, password: Option<Bytes>)

  function Text(o: Option<Bytes>): (b: Bytes)
  {
    match o
    case None => []
    case Some(s) => EncodeString(s)
  }

  function WillText(o: Option<Will>): (b: Bytes)
    ensures o.Some? ==> |b| == 4 + |o.value.topic| + |o.value.message|
  {
    match o
    case None => []
    case Some(w) => EncodeString(w.topic) + EncodeString(w.message)
  }

  function Lead(w: ConnectWire): (b: Bytes)
  {
    EncodeString(w.protocol) + [w.level, w.flags] + Put16(w.keepAlive)
  }

  function ConnectText(w: ConnectWire): (b: Bytes)
  {
    Lead(w) + EncodeString(w.clientId) + WillText(w.will) + Text(w.username) + Text(w.password)
  }

  predicate FitText(o: Option<Bytes>)
  {
    o.Some? ==> |o.value| < TWO_16
  }

  /** A known protocol, strings that fit, and flags that announce exactly the fields that are there. */
  predicate WellFormed(w: ConnectWire)
  {
    && (w.protocol == MQTT || w.protocol == MQISDP)
    && |w.clientId| < TWO_16 && FitText(w.username) && FitText(w.password)
    && (w.will.Some? ==> |w.will.value.topic| < TWO_16 && |w.will.value.message| < TWO_16)
    && Bit(w.flags, 4) == w.will.Some? && Bit(w.flags, 128) == w.username.Some? && Bit(w.flags, 64) == w.password.Some?
  }

  function OrEmpty(o: Option<Bytes>): (s: Bytes)
  {
    if o.Some? then o.value else []
  }

  /** What the broker takes from it: the will and the level are dropped. */
  function Meaning(w: ConnectWire): (c: ConnectPacket)
  {
    ConnectPacket(w.clientId, OrEmpty(w.username), OrEmpty(w.password), Bit(w.flags, 2), w.keepAlive)
  }

  lemma LeadFields(w: ConnectWire, rest: Bytes)
    requires |w.protocol| < TWO_16
    ensures var b, p := Lead(w) + rest, 2 + |w.protocol|;
            && |b| >= p + 4 && b[p + 1] == w.flags && Read16(b, p + 2) == w.keepAlive
            && ReadString(b, 0) == Ok((w.protocol, p)) && |Lead(w)| == p + 4
  {
    var b, name, bits := Lead(w) + rest, EncodeString(w.protocol), [w.level, w.flags];
    Reassociate([], name, bits, Put16(w.keepAlive) + rest);
    assert b == [] + name + (bits + (Put16(w.keepAlive) + rest));
    ReadAt(b, [], w.protocol, bits + (Put16(w.keepAlive) + rest));
    Read16Encoded(name + bits, w.keepAlive, rest);
    assert b == (name + bits) + Put16(w.keepAlive) + rest;
  }

  lemma ReadText(b: Bytes, front: Bytes, o: Option<Bytes>, rest: Bytes)
    requires b == front + Text(o) + rest && FitText(o)
    ensures ReadIf(b, |front|, o.Some?) == Ok((OrEmpty(o), |front + Text(o)|))
  {
    if o.Some? { ReadAt(b, front, o.value, rest); }
  }

  lemma ReadTwo(b: Bytes, front: Bytes, x: Bytes, y: Bytes, rest: Bytes)
    requires |x| < TWO_16 && |y| < TWO_16 && b == front + (EncodeString(x) + EncodeString(y)) + rest
    ensures var p := |front| + 2 + |x|;
            ReadString(b, |front|) == Ok((x, p)) && ReadString(b, p) == Ok((y, p + 2 + |y|))
  {
    var p := |front| + 2 + |x|;
    assert b[|front|..p] == EncodeString(x) && b[p..p + 2 + |y|] == EncodeString(y);
    ReadStringIff(b, |front|, x, p);
    ReadStringIff(b, p, y, p + 2 + |y|);
  }

  lemma ReadWill(b: Bytes, front: Bytes, o: Option<Will>, rest: Bytes)
    requires b == front + WillText(o) + rest
    requires o.Some? ==> |o.value.topic| < TWO_16 && |o.value.message| < TWO_16
    ensures SkipWill(b, |front|, o.Some?) == Ok(|front| + |WillText(o)|)
  {
    if o.Some? {
      var x, y := o.value.topic, o.value.message;
      ReadTwo(b, front, x, y, rest);
      SkipTwo(b, |front|, x, |front| + 2 + |x|, y);
    }
  }

  lemma SkipTwo(b: Bytes, pos: nat, x: Bytes, p: nat, y: Bytes)
    requires pos <= p <= |b| && ReadString(b, pos) == Ok((x, p)) && ReadString(b, p) == Ok((y, p + 2 + |y|))
    ensures SkipWill(b, pos, true) == Ok(p + 2 + |y|)
  {
  }

  lemma CredentialsJoin(b: Bytes, pos: nat, p: nat, q: nat, end: nat, will: bool, user: bool, pass: bool, u: Bytes, v: Bytes)
    requires pos <= p <= q <= end <= |b| && SkipWill(b, pos, will) == Ok(p)
    requires ReadIf(b, p, user) == Ok((u, q)) && ReadIf(b, q, pass) == Ok((v, end))
    ensures ParseCredentials(b, pos, will, user, pass) == Ok((u, v))
  {
  }

  lemma FourParts(front: Bytes, x: Bytes, y: Bytes, z: Bytes, rest: Bytes)
    ensures var b := front + x + y + z + rest;
            b == front + x + (y + z + rest) == (front + x) + y + (z + rest) == (front + x + y) + z + rest
  {
    Reassociate(front + x, y, z, rest);
    assert y + z + rest == y + (z + rest);
  }

  /** What follows the client id is read field by field; the fields end at `end`. */
  lemma ReadCredentials(b: Bytes, front: Bytes, w: ConnectWire, rest: Bytes) returns (p: nat, q: nat, end: nat)
    requires WellFormed(w) && b == front + WillText(w.will) + Text(w.username) + Text(w.password) + rest
    ensures |front| <= p <= q <= end == |b| - |rest| && SkipWill(b, |front|, w.will.Some?) == Ok(p)
    ensures ReadIf(b, p, w.username.Some?) == Ok((OrEmpty(w.username), q))
    ensures ReadIf(b, q, w.password.Some?) == Ok((OrEmpty(w.password), end))
  {
    var will, user, pass := WillText(w.will), Text(w.username), Text(w.password);
    FourParts(front, will, user, pass, rest);
    ReadWill(b, front, w.will, user + pass + rest);
    ReadText(b, front + will, w.username, pass + rest);
    ReadText(b, front + will + user, w.password, rest);
    p, q, end := |front + will|, |front + will + user|, |front + will + user + pass|;
  }

  lemma ConnectShape(w: ConnectWire, extra: Bytes)
    ensures var id, tail := EncodeString(w.clientId), WillText(w.will) + Text(w.username) + Text(w.password) + extra;
            ConnectText(w) + extra == Lead(w) + (id + tail) == Lead(w) + id + tail
    ensures ConnectText(w) + extra ==
              (Lead(w) + EncodeString(w.clientId)) + WillText(w.will) + Text(w.username) + Text(w.password) + extra
  {
    var id, tail := EncodeString(w.clientId), WillText(w.will) + Text(w.username) + Text(w.password) + extra;
    assert ConnectText(w) + extra == Lead(w) + id + tail;
    assert Lead(w) + (id + tail) == Lead(w) + id + tail;
  }

  lemma ConnectJoins(w: ConnectWire, b: Bytes, p: nat)
    requires WellFormed(w) && ReadString(b, 0) == Ok((w.protocol, p))
    requires p + 4 <= |b| && b[p + 1] == w.flags && Read16(b, p + 2) == w.keepAlive
    requires ReadString(b, p + 4) == Ok((w.clientId, p + 6 + |w.clientId|))
    requires ParseCredentials(b, p + 6 + |w.clientId|, w.will.Some?, w.username.Some?, w.password.Some?) ==
               Ok((OrEmpty(w.username), OrEmpty(w.password)))
    ensures ParseConnect(b) == Ok(Meaning(w))
  {
    AfterJoins(w, b, p);
  }

  lemma AfterJoins(w: ConnectWire, b: Bytes, p: nat)
    requires p + 4 <= |b| && b[p + 1] == w.flags && Read16(b, p + 2) == w.keepAlive
    requires ReadString(b, p + 4) == Ok((w.clientId, p + 6 + |w.clientId|))
    requires ParseCredentials(b, p + 6 + |w.clientId|, Bit(w.flags, 4), Bit(w.flags, 128), Bit(w.flags, 64)) ==
               Ok((OrEmpty(w.username), OrEmpty(w.password)))
    ensures ParseAfterProtocol(b, p) == Ok(Meaning(w))
  {
  }

  lemma HeadReads(w: ConnectWire, extra: Bytes)
    requires WellFormed(w)
    ensures var b, p := ConnectText(w) + extra, 2 + |w.protocol|;
            && ReadString(b, 0) == Ok((w.protocol, p)) && p + 4 <= |b|
            && b[p + 1] == w.flags && Read16(b, p + 2) == w.keepAlive
            && ReadString(b, p + 4) == Ok((w.clientId, p + 6 + |w.clientId|))
  {
    var tail := WillText(w.will) + Text(w.username) + Text(w.password) + extra;
    ConnectShape(w, extra);
    LeadFields(w, EncodeString(w.clientId) + tail);
    ReadAt(ConnectText(w) + extra, Lead(w), w.clientId, tail);
  }

  lemma TailReads(w: ConnectWire, extra: Bytes)
    requires WellFormed(w)
    ensures ParseCredentials(ConnectText(w) + extra, 8 + |w.protocol| + |w.clientId|,
                             w.will.Some?, w.username.Some?, w.password.Some?) ==
              Ok((OrEmpty(w.username), OrEmpty(w.password)))
  {
    ConnectShape(w, extra);
    var front := Lead(w) + EncodeString(w.clientId);
    var p, q, end := ReadCredentials(ConnectText(w) + extra, front, w, extra);
    assert |front| == 8 + |w.protocol| + |w.clientId|;
    CredentialsJoin(ConnectText(w) + extra, |front|, p, q, end, w.will.Some?, w.username.Some?, w.password.Some?,
                    OrEmpty(w.username), OrEmpty(w.password));
  }

  /** Every well-formed CONNECT is read as what it means, whatever follows in the body. */
  lemma ConnectReads(w: ConnectWire, extra: Bytes)
    requires WellFormed(w)
    ensures ParseConnect(ConnectText(w) + extra) == Ok(Meaning(w))
  {
    HeadReads(w, extra);
    TailReads(w, extra);
    ConnectJoins(w, ConnectText(w) + extra, 2 + |w.protocol|);
  }

  // ----- what an accepted CONNECT looks like -----

  lemma TextStands(b: Bytes, pos: nat, present: bool) returns (o: Option<Bytes>)
    requires pos <= |b| && ReadIf(b, pos, present).Ok?
    ensures var (s, p) := ReadIf(b, pos, present).value;
            pos <= p <= |b| && FitText(o) && o.Some? == present && OrEmpty(o) == s && b[pos..p] == Text(o)
  {
    var (s, p) := ReadIf(b, pos, present).value;
    if present {
      ReadStringIff(b, pos, s, p);
      o := Some(s);
    } else {
      o := None;
    }
  }

  lemma WillStands(b: Bytes, pos: nat, present: bool) returns (o: Option<Will>)
    requires pos <= |b| && SkipWill(b, pos, present).Ok?
    ensures var p := SkipWill(b, pos, present).value;
            && pos <= p <= |b| && o.Some? == present && b[pos..p] == WillText(o)
            && (o.Some? ==> |o.value.topic| < TWO_16 && |o.value.message| < TWO_16)
  {
    if present {
      var (topic, p) := ReadString(b, pos).value;
      var (message, q) := ReadString(b, p).value;
      ReadStringIff(b, pos, topic, p);
      ReadStringIff(b, p, message, q);
      o := Some(Will(topic, message));
      assert b[pos..q] == b[pos..p] + b[p..q];
    } else {
      o := None;
    }
  }

  lemma LeadStands(b: Bytes, w: ConnectWire, p: nat)
    requires p + 4 <= |b| && ReadString(b, 0) == Ok((w.protocol, p))
    requires w.level == b[p] && w.flags == b[p + 1] && w.keepAlive == Read16(b, p + 2)
    ensures b[..p + 4] == Lead(w)
  {
    ReadStringIff(b, 0, w.protocol, p);
    assert b[0..p] == b[..p];
    PutGet(b[p + 2..p + 4]);
    assert b[..p + 4] == b[..p] + [b[p], b[p + 1]] + b[p + 2..p + 4];
  }

  lemma CredentialsStand(b: Bytes, pos: nat, hasWill: bool, user: bool, pass: bool)
    returns (will: Option<Will>, username: Option<Bytes>, password: Option<Bytes>, end: nat)
    requires pos <= |b| && ParseCredentials(b, pos, hasWill, user, pass).Ok?
    ensures pos <= end <= |b| && b[pos..end] == WillText(will) + Text(username) + Text(password)
    ensures will.Some? == hasWill && username.Some? == user && password.Some? == pass
    ensures FitText(username) && FitText(password)
    ensures will.Some? ==> |will.value.topic| < TWO_16 && |will.value.message| < TWO_16
    ensures ParseCredentials(b, pos, hasWill, user, pass).value == (OrEmpty(username), OrEmpty(password))
  {
    will := WillStands(b, pos, hasWill);
    var p := SkipWill(b, pos, hasWill).value;
    username := TextStands(b, p, user);
    var q := ReadIf(b, p, user).value.1;
    password := TextStands(b, q, pass);
    end := ReadIf(b, q, pass).value.1;
    ThreeParts(b, pos, p, q, end);
  }

  lemma ThreeParts(b: Bytes, i: nat, j: nat, k: nat, n: nat)
    requires i <= j <= k <= n <= |b|
    ensures b[i..n] == b[i..j] + b[j..k] + b[k..n]
  {
  }

  /** The steps of an accepted read. */
  lemma ConnectSteps(b: Bytes) returns (p: nat, q: nat)
    requires ParseConnect(b).Ok?
    ensures ReadString(b, 0).Ok? && p == ReadString(b, 0).value.1 && ReadString(b, 0).value.0 in {MQTT, MQISDP}
    ensures p + 4 <= |b| && ReadString(b, p + 4).Ok? && q == ReadString(b, p + 4).value.1
    ensures var flags := b[p + 1];
            var credentials := ParseCredentials(b, q, Bit(flags, 4), Bit(flags, 128), Bit(flags, 64));
            && credentials.Ok?
            && ParseConnect(b).value == ConnectPacket(ReadString(b, p + 4).value.0, credentials.value.0, credentials.value.1,
                                                      Bit(flags, 2), Read16(b, p + 2))
  {
    p := ReadString(b, 0).value.1;
    q := ReadString(b, p + 4).value.1;
  }

  /** Whatever is accepted begins with a well-formed CONNECT, and means that. */
  lemma ConnectStands(b: Bytes) returns (w: ConnectWire)
    requires ParseConnect(b).Ok?
    ensures WellFormed(w) && IsPrefix(ConnectText(w), b) && Meaning(w) == ParseConnect(b).value
  {
    var p, q := ConnectSteps(b);
    var will, username, password, end := CredentialsStand(b, q, Bit(b[p + 1], 4), Bit(b[p + 1], 128), Bit(b[p + 1], 64));
    var (protocol, clientId) := (ReadString(b, 0).value.0, ReadString(b, p + 4).value.0);
    w := ConnectWire(protocol, b[p], b[p + 1], Read16(b, p + 2), clientId, will, username, password);
    LeadStands(b, w, p);
    ReadStringIff(b, p + 4, clientId, q);
    TextFrom(b, p + 4, q, end, w);
  }

  lemma TextFrom(b: Bytes, p: nat, q: nat, end: nat, w: ConnectWire)
    requires p <= q <= end <= |b| && b[..p] == Lead(w) && b[p..q] == EncodeString(w.clientId)
    requires b[q..end] == WillText(w.will) + Text(w.username) + Text(w.password)
    ensures IsPrefix(ConnectText(w), b)
  {
    var lead, id := Lead(w), EncodeString(w.clientId);
    Regroup(lead + id, WillText(w.will), Text(w.username), Text(w.password));
    PrefixParts(b, p, q, end);
  }

  lemma PrefixParts(b: Bytes, p: nat, q: nat, end: nat)
    requires p <= q <= end <= |b|
    ensures IsPrefix(b[..p] + b[p..q] + b[q..end], b)
  {
    assert b[..p] + b[p..q] + b[q..end] == b[..end];
  }

  lemma Regroup(a: Bytes, x: Bytes, y: Bytes, z: Bytes)
    ensures a + x + y + z == a + (x + y + z)
  {
  }

  lemma ConnectReadsPrefix(w: ConnectWire, b: Bytes)
    requires WellFormed(w) && IsPrefix(ConnectText(w), b)
    ensures ParseConnect(b) == Ok(Meaning(w))
  {
    var n := |ConnectText(w)|;
    assert b == ConnectText(w) + b[n..];
    ConnectReads(w, b[n..]);
  }

  /** A CONNECT body is accepted with this meaning exactly when it begins with a well-formed CONNECT that has it:
      either protocol name, any level, clean session set or not, with or without a will and credentials. */
  lemma ConnectIff(b: Bytes, c: ConnectPacket)
    ensures ParseConnect(b) == Ok(c) <==> exists w :: WellFormed(w) && IsPrefix(ConnectText(w), b) && Meaning(w) == c
  {
    if ParseConnect(b) == Ok(c) {
      var w := ConnectStands(b);
    }
    if w :| WellFormed(w) && IsPrefix(ConnectText(w), b) && Meaning(w) == c {
      ConnectReadsPrefix(w, b);
    }
  }

  /** Any other protocol name is refused, whatever follows it. */
  lemma OtherProtocol(name: Bytes, rest: Bytes)
    requires |name| < TWO_16 && name != MQTT && name != MQISDP
    ensures ParseConnect(EncodeString(name) + rest) == Err(BadProtocol)
  {
    var b := EncodeString(name) + rest;
    assert b == [] + EncodeString(name) + rest;
    ReadAt(b, [], name, rest);
  }

  // ----- a CONNECT that breaks off -----

  lemma CutRead(b: Bytes, k: nat, pos: nat)
    requires pos <= k <= |b| && ReadString(b, pos).Ok?
    ensures ReadString(b[..k], pos) == if ReadString(b, pos).value.1 <= k then ReadString(b, pos) else Err(ShortString)
  {
    if pos + 2 <= k {
      assert b[..k][pos..pos + 2] == b[pos..pos + 2];
      var (s, p) := ReadString(b, pos).value;
      if p <= k { assert b[..k][pos + 2..p] == b[pos + 2..p]; }
    }
  }

  lemma CutIf(b: Bytes, k: nat, pos: nat, present: bool)
    requires pos <= k <= |b| && ReadIf(b, pos, present).Ok?
    ensures ReadIf(b[..k], pos, present) ==
              if ReadIf(b, pos, present).value.1 <= k then ReadIf(b, pos, present) else Err(ShortString)
  {
    if present { CutRead(b, k, pos); }
  }

  lemma CutWill(b: Bytes, k: nat, pos: nat, present: bool)
    requires pos <= k <= |b| && SkipWill(b, pos, present).Ok?
    ensures SkipWill(b[..k], pos, present) ==
              if SkipWill(b, pos, present).value <= k then SkipWill(b, pos, present) else Err(ShortString)
  {
    if present {
      CutRead(b, k, pos);
      var p := ReadString(b, pos).value.1;
      if p <= k { CutRead(b, k, p); }
    }
  }

  lemma CutCredentials(b: Bytes, k: nat, pos: nat, will: bool, user: bool, pass: bool)
    requires pos <= k < |b| && SkipWill(b, pos, will).Ok?
    requires var p := SkipWill(b, pos, will).value;
             ReadIf(b, p, user).Ok? && ReadIf(b, ReadIf(b, p, user).value.1, pass).Ok?
             && ReadIf(b, ReadIf(b, p, user).value.1, pass).value.1 == |b|
    ensures ParseCredentials(b[..k], pos, will, user, pass) == Err(ShortString)
  {
    CutWill(b, k, pos, will);
    var p := SkipWill(b, pos, will).value;
    if p <= k {
      CutIf(b, k, p, user);
      var q := ReadIf(b, p, user).value.1;
      if q <= k { CutIf(b, k, q, pass); }
    }
  }

  lemma CredentialsBreak(b: Bytes, front: Bytes, w: ConnectWire, k: nat)
    requires WellFormed(w) && b == front + WillText(w.will) + Text(w.username) + Text(w.password) + [] && |front| <= k < |b|
    ensures ParseCredentials(b[..k], |front|, w.will.Some?, w.username.Some?, w.password.Some?) == Err(ShortString)
  {
    var p, q, end := ReadCredentials(b, front, w, []);
    CutCredentials(b, k, |front|, w.will.Some?, w.username.Some?, w.password.Some?);
  }

  lemma AfterFails(b: Bytes, pos: nat)
    requires pos + 4 <= |b|
    requires ReadString(b, pos + 4).Ok? ==>
               var flags := b[pos + 1];
               ParseCredentials(b, ReadString(b, pos + 4).value.1, Bit(flags, 4), Bit(flags, 128), Bit(flags, 64)) == Err(ShortString)
    ensures ParseAfterProtocol(b, pos) == Err(ShortString)
  {
  }

  lemma FieldsBreakAt(b: Bytes, k: nat, p: nat)
    requires p + 4 <= k < |b| && ReadString(b, p + 4).Ok?
    requires var q, flags := ReadString(b, p + 4).value.1, b[p + 1];
             q <= k ==> ParseCredentials(b[..k], q, Bit(flags, 4), Bit(flags, 128), Bit(flags, 64)) == Err(ShortString)
    ensures ParseAfterProtocol(b[..k], p) == Err(ShortString)
  {
    CutRead(b, k, p + 4);
    AfterFails(b[..k], p);
  }

  lemma CredentialsBreakAt(w: ConnectWire, k: nat)
    requires WellFormed(w) && 8 + |w.protocol| + |w.clientId| <= k < |ConnectText(w)|
    ensures ParseCredentials(ConnectText(w)[..k], 8 + |w.protocol| + |w.clientId|,
                             Bit(w.flags, 4), Bit(w.flags, 128), Bit(w.flags, 64)) == Err(ShortString)
  {
    var front := Lead(w) + EncodeString(w.clientId);
    assert |front| == 8 + |w.protocol| + |w.clientId|;
    ConnectShape(w, []);
    assert ConnectText(w) + [] == ConnectText(w);
    CredentialsBreak(ConnectText(w), front, w, k);
  }

  lemma FieldsBreak(w: ConnectWire, k: nat)
    requires WellFormed(w) && 6 + |w.protocol| <= k < |ConnectText(w)|
    ensures ParseAfterProtocol(ConnectText(w)[..k], 2 + |w.protocol|) == Err(ShortString)
  {
    assert ConnectText(w) + [] == ConnectText(w);
    HeadReads(w, []);
    if 8 + |w.protocol| + |w.clientId| <= k { CredentialsBreakAt(w, k); }
    FieldsBreakAt(ConnectText(w), k, 2 + |w.protocol|);
  }

  /** A CONNECT that breaks off is refused, with the fault of the field it breaks off in. */
  lemma ConnectBreaks(w: ConnectWire, k: nat)
    requires WellFormed(w) && k < |ConnectText(w)|
    ensures var p := 2 + |w.protocol|;
            ParseConnect(ConnectText(w)[..k]) ==
              Err(if k == p then MissingLevel else if k == p + 1 then MissingFlags
                  else if p < k < p + 4 then MissingKeepAlive else ShortString)
  {
    var b, p := ConnectText(w), 2 + |w.protocol|;
    assert b + [] == b;
    HeadReads(w, []);
    CutRead(b, k, 0);
    if p + 4 <= k { FieldsBreak(w, k); }
  }

  // ----- PUBLISH -----

  lemma PublishStands(flags: nat, body: Bytes)
    requires flags < 16 && ParsePublish(flags, body).Ok?
    ensures var p := ParsePublish(flags, body).value;
            body == PublishBody(p) && (p.qos == 0 ==> p.packetId == 0)
  {
    var p, pos := ParsePublish(flags, body).value, ReadString(body, 0).value.1;
    ReadStringIff(body, 0, p.topicName, pos);
    assert body[0..pos] == body[..pos];
    if p.qos > 0 {
      PutGet(body[pos..pos + 2]);
      assert body == body[..pos] + body[pos..pos + 2] + body[pos + 2..];
    } else {
      assert body == body[..pos] + [] + body[pos..];
    }
  }

  /** A PUBLISH body is read as this packet exactly when it is the packet's layout and the flags are its flags. */
  lemma PublishIff(flags: nat, body: Bytes, p: PublishPacket)
    requires flags < 16
    ensures ParsePublish(flags, body) == Ok(p) <==>
              && |p.topicName| < TWO_16 && body == PublishBody(p) && (p.qos == 0 ==> p.packetId == 0)
              && p.qos == flags / 2 % 4 && p.retain == (flags % 2 == 1) && p.dup == (flags >= 8)
  {
    FlagBits4(flags);
    if ParsePublish(flags, body) == Ok(p) {
      PublishStands(flags, body);
      ParseWrittenPublish(flags, p);
    } else if |p.topicName| < TWO_16 && body == PublishBody(p) && p.qos == flags / 2 % 4 {
      ParseWrittenPublish(flags, p);
    }
  }

  lemma FlagBits4(flags: nat)
    requires flags < 16
    ensures Bit(flags, 1) == (flags % 2 == 1) && Bit(flags, 8) == (flags >= 8)
  {
  }

  /** Otherwise it has no topic, or its QoS asks for a packet id that is not all there. */
  lemma PublishFault(flags: nat, topic: Bytes, cut: Bytes, body: Bytes)
    requires flags < 16 && |topic| < TWO_16 && |cut| < 2 && flags / 2 % 4 > 0
    ensures ParsePublish(flags, EncodeString(topic) + cut) == Err(MissingPacketId)
    ensures body == [] || Broken(body) ==> ParsePublish(flags, body) == Err(ShortString)
  {
    var b := EncodeString(topic) + cut;
    assert b == [] + EncodeString(topic) + cut;
    ReadAt(b, [], topic, cut);
    assert body[0..] == body;
    BrokenString(body, 0);
  }

  // ----- whole packets -----

  lemma ReadsConnect(w: ConnectWire, rest: Bytes)
    requires WellFormed(w) && |ConnectText(w)| <= MAX_REMAINING
    ensures ReadPacket(Frame(0x10, ConnectText(w)) + rest) == Ok((Connect(Meaning(w)), rest))
  {
    ConnectReads(w, []);
    assert ConnectText(w) + [] == ConnectText(w);
    ReadFrame(0x10, ConnectText(w), rest);
  }

  lemma ReadsSubscribe(packetId: uint16, rs: seq<RawFilter>, rest: Bytes)
    requires FitRaw(rs) && 2 + |EncodeRaw(rs)| <= MAX_REMAINING
    ensures ReadPacket(Frame(0x82, Put16(packetId) + EncodeRaw(rs)) + rest) == Ok((Subscribe(packetId, AsFilters(rs)), rest))
  {
    SubscribeReads(packetId, rs);
    ReadFrame(0x82, Put16(packetId) + EncodeRaw(rs), rest);
  }

  lemma ReadsUnsubscribe(packetId: uint16, names: seq<Bytes>, rest: Bytes)
    requires FitNames(names) && 2 + |EncodeNames(names)| <= MAX_REMAINING
    ensures ReadPacket(Frame(0xA2, Put16(packetId) + EncodeNames(names)) + rest) == Ok((Unsubscribe(packetId, names), rest))
  {
    var body := Put16(packetId) + EncodeNames(names);
    UnsubscribeIff(body, packetId, names);
    ReadFrame(0xA2, body, rest);
  }

  /** A PUBACK, with its id and whatever follows that in its body, and as the SDK writes it. */
  lemma ReadsPubAck(packetId: uint16, extra: Bytes, rest: Bytes)
    requires 2 + |extra| <= MAX_REMAINING
    ensures ReadPacket(Frame(0x40, Put16(packetId) + extra) + rest) == Ok((PubAck(packetId), rest))
    ensures extra == [] ==> [0x40, 2] + Put16(packetId) + rest == Frame(0x40, Put16(packetId) + extra) + rest
  {
    var body := Put16(packetId) + extra;
    Read16Encoded([], packetId, extra);
    assert [] + Put16(packetId) + extra == body;
    ReadFrame(0x40, body, rest);
    if extra == [] {
      assert body == Put16(packetId) && EncodeLength(2) == [2];
      assert Frame(0x40, body) == [0x40] + [2] + body == [0x40, 2] + body;
    }
  }

  /** The packets without a body: PINGREQ and DISCONNECT. */
  lemma ReadsEmptyPackets(rest: Bytes)
    ensures ReadPacket([0xC0, 0] + rest) == Ok((PingReq, rest)) && ReadPacket([0xE0, 0] + rest) == Ok((Disconnect, rest))
  {
    assert EncodeLength(0) == [0] && Frame(0xC0, []) == [0xC0, 0] && Frame(0xE0, []) == [0xE0, 0];
    ReadFrame(0xC0, [], rest);
    ReadFrame(0xE0, [], rest);
  }

  const KINDS: set<nat> := {1, 3, 4, 8, 10, 12, 14}

  /** Every other type is refused by its number, and a PUBACK without a whole id as too short. */
  lemma RefusesOtherKinds(header: byte, body: Bytes, rest: Bytes)
    requires |body| <= MAX_REMAINING
    ensures header / 16 !in KINDS ==> ReadPacket(Frame(header, body) + rest) == Err(UnknownType(header / 16))
    ensures header / 16 == 4 && |body| < 2 ==> ReadPacket(Frame(header, body) + rest) == Err(ShortBody)
  {
    ReadFrame(header, body, rest);
  }

  lemma {:induction false} CutLength(m: nat, k: nat, i: nat, length: nat, scale: nat)
    requires i <= 3 && m < Pow128(4 - i) && k < |EncodeLength(m)|
    ensures DecodeLength(EncodeLength(m)[..k], i, length, scale) == Err(EndOfStream)
    decreases 3 - i
  {
    var b := EncodeLength(m)[..k];
    assert Pow128(4 - i) == 128 * Pow128(3 - i);
    if k > 0 {
      assert b[0] == m % 128 + 128 && b[1..] == EncodeLength(m / 128)[..k - 1];
      CutLength(m / 128, k - 1, i + 1, length + Shifted(b[0], scale), scale * 128);
    }
  }

  lemma CutFrame(header: byte, len: Bytes, body: Bytes, k: nat)
    requires 0 < k < 1 + |len| + |body|
    ensures var s := ([header] + len + body)[..k];
            s[1..] == if k <= |len| then len[..k - 1] else len + body[..k - 1 - |len|]
  {
  }

  /** A stream that ends inside a packet is an end of stream, wherever it ends. */
  lemma CutPacket(header: byte, body: Bytes, k: nat)
    requires |body| <= MAX_REMAINING && k < |Frame(header, body)|
    ensures ReadPacket(Frame(header, body)[..k]) == Err(EndOfStream)
  {
    var len := EncodeLength(|body|);
    if 0 < k {
      CutFrame(header, len, body, k);
      if k <= |len| {
        MaxIsPower();
        CutLength(|body|, k - 1, 0, 0, 1);
      } else {
        LengthRoundTrip(|body|, body[..k - 1 - |len|]);
      }
    }
  }

  lemma MaxIsPower()
    ensures Pow128(4) == MAX_REMAINING + 1
  {
    assert Pow128(4) == 128 * Pow128(3) == 128 * (128 * Pow128(2)) == 128 * (128 * (128 * Pow128(1)));
    assert Pow128(1) == 128 * Pow128(0) == 128;
  }
}
