/** From the publisher to the handler: the server message ids that the consumer side deduplicates by are given
    on the publish path, and are distinct exactly as far as publishers leave them to the broker. */
module EndToEnd {
  import opened Bytes
  import E = Envelope
  import D = Dedup
  import W = DedupWindow
  import B = PublishPath
  import A = AtLeastOnce
  import T = AtLeastOnceTheorems
  import C = AtLeastOnceStreams
  import S = SeenCache
  import X = ExactlyOnce
  import K = Packets
  import Sdk = SdkPackets
  import opened Common

  // ----- where server ids come from -----

  /** No record and no publish on its way to the log has this id. */
  predicate Unused(b: B.Broker, x: Uuid)
  {
    && x != NIL_UUID
    && (forall t, n | t in b.logs && n in b.logs[t] :: b.logs[t][n].serverMsgId != x)
    && (forall h | h in b.handlers && b.handlers[h].Allocated? :: b.handlers[h].serverMsgId != x)
  }

  /** Publishers leave the server id to the broker, and the ids the broker draws are new. */
  predicate FreshIds(b: B.Broker, a: B.Action)
  {
    match a
    case Receive(_, req) => req.env.serverMsgId == NIL_UUID
    case Allocate(_, newId) => Unused(b, newId)
    case _ => true
  }

  predicate FreshRun(b: B.Broker, actions: seq<B.Action>, c: D.Config)
    requires B.Possible(b, actions, c)
    decreases |actions|
  {
    actions == [] || (FreshIds(b, actions[0]) && FreshRun(B.Step(b, actions[0], c), actions[1..], c))
  }

  /** No two records of any topics share a server id, and none has the nil one. */
  predicate DistinctLogs(logs: map<B.Topic, B.Log>)
  {
    && (forall t, n | t in logs && n in logs[t] :: logs[t][n].serverMsgId != NIL_UUID)
    && (forall t, n, u, m | t in logs && n in logs[t] && u in logs && m in logs[u] && (t != u || n != m) ::
          logs[t][n].serverMsgId != logs[u][m].serverMsgId)
  }

  predicate StageOk(logs: map<B.Topic, B.Log>, p: B.Stage)
  {
    match p
    case Received(req) => req.env.serverMsgId == NIL_UUID
    case Missed(req) => req.env.serverMsgId == NIL_UUID
    case Allocated(_, _, x) => x != NIL_UUID && forall t, n | t in logs && n in logs[t] :: logs[t][n].serverMsgId != x
    case _ => true
  }

  predicate Distinct(b: B.Broker)
  {
    && DistinctLogs(b.logs)
    && (forall h | h in b.handlers :: StageOk(b.logs, b.handlers[h]))
    && (forall g, h | g in b.handlers && h in b.handlers && g != h && b.handlers[g].Allocated? && b.handlers[h].Allocated? ::
          b.handlers[g].serverMsgId != b.handlers[h].serverMsgId)
  }

  /** The logs with record n of topic t put in. */
  function Put(logs: map<B.Topic, B.Log>, t: B.Topic, n: nat, e: E.Envelope): (more: map<B.Topic, B.Log>)
  {
    logs[t := (if t in logs then logs[t] else map[])[n := e]]
  }

  lemma PutAt(logs: map<B.Topic, B.Log>, t: B.Topic, n: nat, e: E.Envelope, u: B.Topic, m: nat)
    requires u in Put(logs, t, n, e) && m in Put(logs, t, n, e)[u]
    ensures if u == t && m == n then Put(logs, t, n, e)[u][m] == e
            else u in logs && m in logs[u] && Put(logs, t, n, e)[u][m] == logs[u][m]
  {
  }

  lemma PutDistinct(logs: map<B.Topic, B.Log>, t: B.Topic, n: nat, e: E.Envelope)
    requires DistinctLogs(logs) && e.serverMsgId != NIL_UUID
    requires forall u, m | u in logs && m in logs[u] :: logs[u][m].serverMsgId != e.serverMsgId
    ensures DistinctLogs(Put(logs, t, n, e))
  {
    var more: map<B.Topic, B.Log> := Put(logs, t, n, e);
    forall u, m | u in more && m in more[u] ensures more[u][m].serverMsgId != NIL_UUID {
      PutAt(logs, t, n, e, u, m);
    }
    forall u, m, v, k | u in more && m in more[u] && v in more && k in more[v] && (u != v || m != k)
      ensures more[u][m].serverMsgId != more[v][k].serverMsgId
    {
      PutAt(logs, t, n, e, u, m);
      PutAt(logs, t, n, e, v, k);
    }
  }

  lemma PutStage(logs: map<B.Topic, B.Log>, t: B.Topic, n: nat, e: E.Envelope, p: B.Stage)
    requires StageOk(logs, p) && (p.Allocated? ==> p.serverMsgId != e.serverMsgId)
    ensures StageOk(Put(logs, t, n, e), p)
  {
    var more: map<B.Topic, B.Log> := Put(logs, t, n, e);
    if p.Allocated? {
      forall u, m | u in more && m in more[u] ensures more[u][m].serverMsgId != p.serverMsgId {
        PutAt(logs, t, n, e, u, m);
      }
    }
  }

  lemma WriteKeepsDistinct(b: B.Broker, h: nat, c: D.Config)
    requires Distinct(b) && B.Enabled(b, B.Write(h))
    ensures Distinct(B.Step(b, B.Write(h), c))
  {
    var r, p := B.Step(b, B.Write(h), c), b.handlers[h];
    var e := E.WithServerMsgId(p.req.env, p.serverMsgId);
    assert StageOk(b.logs, p);
    assert r.logs == Put(b.logs, p.req.topic, p.seqNo, e);
    PutDistinct(b.logs, p.req.topic, p.seqNo, e);
    forall g | g in r.handlers && g != h ensures StageOk(r.logs, r.handlers[g]) {
      PutStage(b.logs, p.req.topic, p.seqNo, e, b.handlers[g]);
    }
  }

  lemma StepKeepsDistinct(b: B.Broker, a: B.Action, c: D.Config)
    requires Distinct(b) && B.Enabled(b, a) && FreshIds(b, a)
    ensures Distinct(B.Step(b, a, c))
  {
    if a.Write? {
      WriteKeepsDistinct(b, a.h, c);
    } else {
      var r := B.Step(b, a, c);
      assert r.logs == b.logs;
      forall g | g in r.handlers ensures StageOk(r.logs, r.handlers[g]) {
        if g in b.handlers { assert StageOk(b.logs, b.handlers[g]); }
      }
    }
  }

  lemma {:induction false} RunKeepsDistinct(b: B.Broker, actions: seq<B.Action>, c: D.Config)
    requires Distinct(b) && B.Possible(b, actions, c) && FreshRun(b, actions, c)
    ensures Distinct(B.Run(b, actions, c))
    decreases |actions|
  {
    if actions != [] {
      StepKeepsDistinct(b, actions[0], c);
      RunKeepsDistinct(B.Step(b, actions[0], c), actions[1..], c);
    }
  }

  /** In every interleaving of sessions, crashes included, records have distinct real server ids as long as
      accepted envelopes carry none and the broker's new ids are new. */
  lemma ServerIdsAreDistinct(actions: seq<B.Action>, c: D.Config)
    requires B.Possible(B.EMPTY, actions, c) && FreshRun(B.EMPTY, actions, c)
    ensures DistinctLogs(B.Run(B.EMPTY, actions, c).logs)
  {
    RunKeepsDistinct(B.EMPTY, actions, c);
  }

  // ----- from the log to the handler -----

  function IdIn(log: B.Log): (id: nat -> Uuid)
  {
    (k: nat) => if k in log then log[k].serverMsgId else NIL_UUID
  }

  lemma LogIdsAreDistinct(logs: map<B.Topic, B.Log>, t: B.Topic, ks: set<nat>)
    requires DistinctLogs(logs) && t in logs && ks <= logs[t].Keys
    ensures X.DistinctOn(IdIn(logs[t]), ks)
  {
  }

  /** Take any run of the publish path that leaves server ids to the broker, and any disciplined, roomy delivery
      of a topic's log to a client, through any connections: once a subscription has settled, the client's
      handler has run for every record above its first offset, and exactly once for a record that one
      connection carried with fewer than `cap` other records between its copies. */
  lemma DeliveredLogIsHandled(publishes: seq<B.Action>, c: D.Config, t: B.Topic,
                              n: nat, first: nat, actions: seq<A.Action>, i: nat, j: nat, cap: nat)
    requires B.Possible(B.EMPTY, publishes, c) && FreshRun(B.EMPTY, publishes, c)
    requires A.DisciplinedRun(A.Init(n, first), actions) && A.Possible(A.Init(n, first), actions)
    requires T.RoomyRun(A.Init(n, first), actions) && T.Settles(A.Run(A.Init(n, first), actions), i, j)
    requires var logs := B.Run(B.EMPTY, publishes, c).logs;
             t in logs && A.Run(A.Init(n, first), actions).stored == logs[t].Keys
    requires cap > 0
    ensures var id := IdIn(B.Run(B.EMPTY, publishes, c).logs[t]);
            var s := A.Run(A.Init(n, first), actions);
            forall k: nat | first < k <= s.counter ::
              && X.TotalCalls(s.streams, id, k, cap) >= 1
              && ((forall m | 0 <= m < |s.streams| :: X.FewBetween(s.streams[m], k, cap)) ==>
                    (X.TotalCalls(s.streams, id, k, cap) == 1 <==> X.Carriers(s.streams, k) == 1))
  {
    var logs, s := B.Run(B.EMPTY, publishes, c).logs, A.Run(A.Init(n, first), actions);
    ServerIdsAreDistinct(publishes, c);
    C.CarriedIsHandledAndStored(n, first, actions);
    LogIdsAreDistinct(logs, t, s.handled);
    X.EveryRecordHandled(n, first, actions, i, j, IdIn(logs[t]), cap);
  }

  // ----- what a publisher can spoil -----

  /** No record of any topic has this id. */
  predicate NotInLogs(logs: map<B.Topic, B.Log>, x: Uuid)
  {
    forall t, n | t in logs && n in logs[t] :: logs[t][n].serverMsgId != x
  }

  lemma PutDistinctIff(logs: map<B.Topic, B.Log>, t: B.Topic, n: nat, e: E.Envelope)
    requires DistinctLogs(logs) && (t in logs ==> n !in logs[t])
    ensures DistinctLogs(Put(logs, t, n, e)) <==> e.serverMsgId != NIL_UUID && NotInLogs(logs, e.serverMsgId)
  {
    var more: map<B.Topic, B.Log> := Put(logs, t, n, e);
    assert more[t][n] == e;
    if DistinctLogs(more) {
      forall u, m | u in logs && m in logs[u] ensures logs[u][m].serverMsgId != e.serverMsgId {
        assert more[u][m] == logs[u][m];
      }
    } else if e.serverMsgId != NIL_UUID && NotInLogs(logs, e.serverMsgId) {
      PutDistinct(logs, t, n, e);
    }
  }

  /** The exact condition, one publish at a time: a stored publish keeps server ids distinct if and only if the
      id it brings along, or is given, is real and no record has it yet. */
  lemma PublishKeepsDistinctIff(s: B.Serial, a: B.Arrival, c: D.Config)
    requires s.broker.handlers == map[] && B.Admissible(s, a, c) && B.IsMiss(s.broker, a)
    requires B.FreshSeqs(s.broker) && DistinctLogs(s.broker.logs)
    ensures var x := B.ServerId(a.req.env, a.newId);
            DistinctLogs(B.Handle(s, a, c).broker.logs) <==> x != NIL_UUID && NotInLogs(s.broker.logs, x)
  {
    var t, n := a.req.topic, B.CounterOf(s.broker, a.req.topic) + 1;
    var e := E.WithServerMsgId(a.req.env, B.ServerId(a.req.env, a.newId));
    B.HandledBroker(s, a, c);
    assert B.Handle(s, a, c).broker.logs == Put(s.broker.logs, t, n, e);
    PutDistinctIff(s.broker.logs, t, n, e);
  }

  /** A publisher that fills the server id in itself: two records under different idempotency ids share it, and
      of the two, delivered one after the other, only the first reaches the handler. */
  lemma SharedServerIdIsDropped(a: B.Arrival, b: B.Arrival, start: int, c: D.Config, cap: nat)
    requires c.capacity > 0 && cap > 0 && a.req.topic == b.req.topic
    requires a.req.env.serverMsgId == b.req.env.serverMsgId != NIL_UUID
    requires a.req.env.idempotencyId != b.req.env.idempotencyId
    requires start <= a.now <= a.loadNow <= a.rememberNow <= b.now <= b.loadNow <= b.rememberNow
    requires D.Representable(a.rememberNow + c.ttl) && D.Representable(b.rememberNow + c.ttl)
    ensures var s := B.Serial(B.EMPTY, [], start);
            && B.AdmissibleRun(s, [a, b], c)
            && var log := B.LogOf(B.SerialRun(s, [a, b], c).broker, a.req.topic);
               && log.Keys == {1, 2} && log[1].serverMsgId == log[2].serverMsgId
               && log[1].idempotencyId != log[2].idempotencyId
               && S.Handled(X.Stream([1, 2], IdIn(log)), 0, cap) && !S.Handled(X.Stream([1, 2], IdIn(log)), 1, cap)
  {
    var s0 := B.Serial(B.EMPTY, [], start);
    var s1 := TakesFirst(s0, a, c);
    var s2 := TakesSecond(s1, a, b, c);
    PairRuns(s0, a, b, c);
    SecondIsDropped(B.LogOf(s2.broker, a.req.topic), cap);
  }

  lemma PairRuns(s: B.Serial, a: B.Arrival, b: B.Arrival, c: D.Config)
    requires s.broker.handlers == map[] && B.Admissible(s, a, c)
    requires B.Handle(s, a, c).broker.handlers == map[] && B.Admissible(B.Handle(s, a, c), b, c)
    requires B.Handle(B.Handle(s, a, c), b, c).broker.handlers == map[]
    ensures B.AdmissibleRun(s, [a, b], c) && B.SerialRun(s, [a, b], c) == B.Handle(B.Handle(s, a, c), b, c)
  {
    var s1 := B.Handle(s, a, c);
    B.SerialCons(s1, b, [], c);
    assert [b] + [] == [b] && [a] + [b] == [a, b];
    B.SerialCons(s, a, [b], c);
  }

  lemma SecondIsDropped(log: B.Log, cap: nat)
    requires log.Keys == {1, 2} && log[1].serverMsgId == log[2].serverMsgId != NIL_UUID && cap > 0
    ensures S.Handled(X.Stream([1, 2], IdIn(log)), 0, cap) && !S.Handled(X.Stream([1, 2], IdIn(log)), 1, cap)
  {
    var ds := X.Stream([1, 2], IdIn(log));
    assert ds[0] == ds[1] == log[1].serverMsgId;
    assert S.Amid(ds, 0, 1) == [];
    S.HandlerRunsOnce(ds, 0, 1, cap);
  }

  lemma TakesFirst(s: B.Serial, a: B.Arrival, c: D.Config) returns (r: B.Serial)
    requires s == B.Serial(B.EMPTY, [], s.clock) && c.capacity > 0 && a.req.env.serverMsgId != NIL_UUID
    requires s.clock <= a.now <= a.loadNow <= a.rememberNow && D.Representable(a.rememberNow + c.ttl)
    ensures B.Admissible(s, a, c) && r == B.Handle(s, a, c) && B.Quiet(r, c)
    ensures r.clock == a.rememberNow && r.history == [W.Remembered(a.req.env.idempotencyId, a.req.env.serverMsgId, 1, a.rememberNow)]
    ensures B.CounterOf(r.broker, a.req.topic) == 1 && B.LogOf(r.broker, a.req.topic) == map[1 := a.req.env]
  {
    r := B.Handle(s, a, c);
    B.HandleKeepsQuiet(s, a, c);
    B.HandleStoresOnce(s, a, c);
    B.HandledBroker(s, a, c);
    W.CheckIsWindow(W.World(s.broker.dedup, s.history, s.clock), a.req.env.idempotencyId, a.now, a.loadNow, c);
    assert !W.InWindow([], a.req.env.idempotencyId, a.now, c);
  }

  lemma TakesSecond(s: B.Serial, a: B.Arrival, b: B.Arrival, c: D.Config) returns (r: B.Serial)
    requires B.Quiet(s, c) && s.clock == a.rememberNow && a.req.topic == b.req.topic
    requires s.history == [W.Remembered(a.req.env.idempotencyId, a.req.env.serverMsgId, 1, a.rememberNow)]
    requires B.CounterOf(s.broker, a.req.topic) == 1 && B.LogOf(s.broker, a.req.topic) == map[1 := a.req.env]
    requires a.req.env.idempotencyId != b.req.env.idempotencyId && b.req.env.serverMsgId != NIL_UUID
    requires s.clock <= b.now <= b.loadNow <= b.rememberNow && D.Representable(b.rememberNow + c.ttl)
    ensures B.Admissible(s, b, c) && r == B.Handle(s, b, c) && r.broker.handlers == map[]
    ensures B.LogOf(r.broker, a.req.topic) == map[1 := a.req.env, 2 := b.req.env]
  {
    r := B.Handle(s, b, c);
    B.HandleKeepsQuiet(s, b, c);
    B.HandleStoresOnce(s, b, c);
    assert !W.InWindow(s.history, b.req.env.idempotencyId, b.now, c);
  }

  // ----- the bytes, from the publisher's call to the handler's -----

  /** What the SDK hands to the handler; `nanos` is the publishing time, the zero time when there is none. */
  datatype Message = Message(topic: Bytes, payload: Bytes, idempotencyId: Uuid, serverMsgId: Uuid, nanos: Option<int>)

  /** The consume loop decodes the payload of a PUBLISH, and takes one that is no envelope as it is. */
  function HandlerMessage(topic: Bytes, wire: Bytes): (m: Message)
  {
    var d := E.Decode(wire);
    if d.Ok? then Message(topic, d.env.payload, d.env.idempotencyId, d.env.serverMsgId, Some(d.env.publishNanos))
    else Message(topic, wire, NIL_UUID, NIL_UUID, None)
  }

  /** A payload the publisher's SDK sends is the envelope the broker accepts, and once the broker has stamped and
      stored it, the PUBLISH it writes, under any packet id and QoS, first copy or retransmission, gives the
      handler the payload, time and idempotency id that were published and the server id of the record. */
  lemma PayloadReachesHandler(topic: Bytes, env: E.Envelope, stored: E.Envelope, a: K.PublishPacket, b: K.PublishPacket,
                              freshId: Uuid, nanos: int64, rest: Bytes)
    requires env.idempotencyId != NIL_UUID && |env.userProps| < TWO_16 && E.SameMessage(stored, env)
    requires a.topicName == topic && a.payload == E.Encode(env) && K.Writable(a)
    requires b.topicName == topic && b.payload == E.Encode(stored) && K.Writable(b)
    ensures K.ReadPacket(Sdk.SdkPublishBytes(topic, a.payload, a.qos, a.packetId, a.dup) + rest) == K.Ok((K.Publish(a), rest))
    ensures B.Accept(a.payload, freshId, nanos) == env
    ensures Sdk.SdkReceive(K.WritePublish(b) + rest) == K.Ok((Some((topic, b.payload, b.packetId)), rest))
    ensures HandlerMessage(topic, b.payload) ==
              Message(topic, env.payload, env.idempotencyId, stored.serverMsgId, Some(env.publishNanos))
  {
    Sdk.SdkToBroker(topic, a.payload, a.qos, a.packetId, a.dup, rest);
    B.AcceptTakesEnvelopes(a.payload, freshId, nanos);
    Sdk.BrokerToSdk(b, rest);
    E.DecodeEncode(stored);
  }

  /** A payload that no envelope encodes to reaches the handler as it is when it is delivered unwrapped. */
  lemma PlainPayloadIsKept(topic: Bytes, wire: Bytes)
    ensures !B.IsEnvelope(wire) ==> HandlerMessage(topic, wire) == Message(topic, wire, NIL_UUID, NIL_UUID, None)
  {
    if E.Decode(wire).Ok? {
      E.EncodeDecode(wire);
      assert B.IsEnvelope(wire);
    }
  }
}
