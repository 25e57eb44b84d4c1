/** The broker's publish path: many sessions run handlePublish at once, each through the steps Check,
    atomic seq allocation, record write, seq key write, Remember and PUBACK, and the process may crash. */
module PublishPath {
  import opened Bytes
  import E = Envelope
  import opened Dedup
  import W = DedupWindow

  type Topic = string
  type Log = map<nat, E.Envelope>

  datatype Request = Request(topic: Topic, env: E.Envelope, qos: nat)

  /** How far a session has got with the packet it is handling. */
  datatype Stage =
    | Received(req: Request)
    | Repeated(req: Request)
    | Missed(req: Request)
    | Allocated(req: Request, seqNo: uint64, serverMsgId: Uuid)
    | Written(req: Request, seqNo: uint64, serverMsgId: Uuid)
    | Stored(req: Request, seqNo: uint64, serverMsgId: Uuid)
    | Recorded(req: Request)

  /** `logs`, `seqKeys` and the disk part of `dedup` survive a crash; `acks` is what publishers were told. */
  datatype Broker = Broker(
    logs: map<Topic, Log>, seqKeys: map<Topic, nat>, counters: map<Topic, nat>, dedup: State,
    handlers: map<nat, Stage>, acks: seq<Uuid>)

  datatype Action =
    | Receive(h: nat, req: Request)
    | Look(h: nat, now: int, loadNow: int)
    | Allocate(h: nat, newId: Uuid)
    | Write(h: nat)
    | SaveSeq(h: nat)
    | Note(h: nat, now: int)
    | Reply(h: nat)
    | Crash

  /** A payload that is no envelope is wrapped in a new one with a fresh idempotency id. */
  function Accept(payload: Bytes, freshId: Uuid, nanos: int64): (e: E.Envelope)
    ensures freshId != NIL_UUID ==> e.idempotencyId != NIL_UUID
    ensures E.Encode(e) == payload || (e.payload == payload && e.idempotencyId == freshId)
  {
    if E.Decode(payload).Ok? then
      E.EncodeDecode(payload);
      E.Decode(payload).env
    else E.Envelope(freshId, NIL_UUID, nanos, [], payload)
  }

  /** Some envelope that can be stored encodes to this payload. */
  ghost predicate IsEnvelope(payload: Bytes)
  {
    exists e :: E.Encode(e) == payload && e.idempotencyId != NIL_UUID && |e.userProps| < TWO_16
  }

  /** The payload is taken as an envelope exactly when it is one, and any other payload is wrapped. */
  lemma AcceptTakesEnvelopes(payload: Bytes, freshId: Uuid, nanos: int64)
    ensures forall e :: E.Encode(e) == payload && e.idempotencyId != NIL_UUID && |e.userProps| < TWO_16 ==>
              Accept(payload, freshId, nanos) == e
    ensures !IsEnvelope(payload) <==> Accept(payload, freshId, nanos) == E.Envelope(freshId, NIL_UUID, nanos, [], payload)
  {
    forall e | E.Encode(e) == payload && e.idempotencyId != NIL_UUID && |e.userProps| < TWO_16
      ensures Accept(payload, freshId, nanos) == e && |e.payload| < |payload|
    {
      E.DecodeEncode(e);
    }
    if E.Decode(payload).Ok? {
      E.EncodeDecode(payload);
      assert IsEnvelope(payload);
    }
  }

  function LogOf(b: Broker, t: Topic): (l: Log)
  {
    if t in b.logs then b.logs[t] else map[]
  }

  function CounterOf(b: Broker, t: Topic): (n: nat)
  {
    if t in b.counters then b.counters[t] else 0
  }

  function SeqKeyOf(b: Broker, t: Topic): (n: nat)
  {
    if t in b.seqKeys then b.seqKeys[t] else 0
  }

  /** The id given to the stored message: the sender's, or a fresh one when that is nil. */
  function ServerId(e: E.Envelope, newId: Uuid): (id: Uuid)
  {
    if e.serverMsgId == NIL_UUID then newId else e.serverMsgId
  }

  predicate Enabled(b: Broker, a: Action)
  {
    match a
    case Receive(h, req) => h !in b.handlers
    case Look(h, now, loadNow) => h in b.handlers && b.handlers[h].Received?
    case Allocate(h, newId) =>
      h in b.handlers && b.handlers[h].Missed? && CounterOf(b, b.handlers[h].req.topic) + 1 < TWO_64
    case Write(h) => h in b.handlers && b.handlers[h].Allocated?
    case SaveSeq(h) => h in b.handlers && b.handlers[h].Written?
    case Note(h, now) => h in b.handlers && b.handlers[h].Stored?
    case Reply(h) => h in b.handlers && (b.handlers[h].Recorded? || b.handlers[h].Repeated?)
    case Crash => true
  }

  function Step(b: Broker, a: Action, c: Config): (r: Broker)
    requires Enabled(b, a)
  {
    match a
    case Receive(h, req) => b.(handlers := b.handlers[h := Received(req)])
    case Look(h, now, loadNow) =>
      var req := b.handlers[h].req;
      var (answer, d) := Check(b.dedup, req.env.idempotencyId, now, loadNow);
      b.(dedup := d, handlers := b.handlers[h := if answer.Hit? then Repeated(req) else Missed(req)])
    case Allocate(h, newId) =>
      var req := b.handlers[h].req;
      var n := CounterOf(b, req.topic) + 1;
      b.(counters := b.counters[req.topic := n],
         handlers := b.handlers[h := Allocated(req, n, ServerId(req.env, newId))])
    case Write(h) =>
      var Allocated(req, n, server) := b.handlers[h];
      b.(logs := b.logs[req.topic := LogOf(b, req.topic)[n := E.WithServerMsgId(req.env, server)]],
         handlers := b.handlers[h := Written(req, n, server)])
    case SaveSeq(h) =>
      var Written(req, n, server) := b.handlers[h];
      b.(seqKeys := b.seqKeys[req.topic := n], handlers := b.handlers[h := Stored(req, n, server)])
    case Note(h, now) =>
      var Stored(req, n, server) := b.handlers[h];
      b.(dedup := Remember(b.dedup, req.env.idempotencyId, server, n, now, c),
         handlers := b.handlers[h := Recorded(req)])
    case Reply(h) =>
      var req := b.handlers[h].req;
      b.(acks := b.acks + (if req.qos == 1 then [req.env.idempotencyId] else []), handlers := b.handlers - {h})
    case Crash => b.(counters := b.seqKeys, dedup := W.Restarted(b.dedup), handlers := map[])
  }

  predicate Possible(b: Broker, actions: seq<Action>, c: Config)
    decreases |actions|
  {
    actions == [] || (Enabled(b, actions[0]) && Possible(Step(b, actions[0], c), actions[1..], c))
  }

  function Run(b: Broker, actions: seq<Action>, c: Config): (r: Broker)
    requires Possible(b, actions, c)
    decreases |actions|
  {
    if actions == [] then b else Run(Step(b, actions[0], c), actions[1..], c)
  }

  const EMPTY: Broker := Broker(map[], map[], map[], W.EMPTY, map[], [])

  // ----- every PUBACK and every dedup entry is backed by a record -----

  predicate Holds(logs: map<Topic, Log>, t: Topic, n: nat, id: Uuid, server: Uuid)
  {
    t in logs && n in logs[t] && logs[t][n].idempotencyId == id && logs[t][n].serverMsgId == server
  }

  ghost predicate Backed(logs: map<Topic, Log>, id: Uuid, server: Uuid, n: nat)
  {
    exists t :: Holds(logs, t, n, id, server)
  }

  ghost predicate HasRecord(logs: map<Topic, Log>, id: Uuid)
  {
    exists server, n :: Backed(logs, id, server, n)
  }

  ghost predicate MemoryBacked(logs: map<Topic, Log>, s: State)
  {
    forall id :: id in s.lru ==> Backed(logs, id, s.lru[id].serverMsgId, s.lru[id].seqNo)
  }

  ghost predicate DiskBacked(logs: map<Topic, Log>, disk: Disk)
  {
    forall id: Uuid :: DiskKey(id) in disk && |disk[DiskKey(id)]| >= 32 ==>
      var e := DecodeEntry(disk[DiskKey(id)]);
      Backed(logs, id, e.serverMsgId, e.seqNo)
  }

  ghost predicate StageBacked(logs: map<Topic, Log>, stage: Stage)
  {
    match stage
    case Stored(req, n, server) => Holds(logs, req.topic, n, req.env.idempotencyId, server)
    case Repeated(req) => HasRecord(logs, req.env.idempotencyId)
    case Recorded(req) => HasRecord(logs, req.env.idempotencyId)
    case _ => true
  }

  /** The dedup entries, the sessions past their write and the PUBACKs are backed by these records. */
  ghost predicate BackedBy(logs: map<Topic, Log>, b: Broker)
  {
    && MemoryBacked(logs, b.dedup)
    && DiskBacked(logs, b.dedup.disk)
    && (forall h :: h in b.handlers ==> StageBacked(logs, b.handlers[h]))
    && (forall i :: 0 <= i < |b.acks| ==> HasRecord(logs, b.acks[i]))
  }

  predicate HoldsWritten(logs: map<Topic, Log>, stage: Stage)
  {
    stage.Written? ==> Holds(logs, stage.req.topic, stage.seqNo, stage.req.env.idempotencyId, stage.serverMsgId)
  }

  predicate WrittenHeld(b: Broker)
  {
    forall h | h in b.handlers :: HoldsWritten(b.logs, b.handlers[h])
  }

  predicate SameTopicInFlight(p: Stage, q: Stage)
  {
    p.Allocated? && q.Allocated? && p.req.topic == q.req.topic
  }

  /** Seqs are handed out once: a seq in flight is new to its log and to every other session. */
  ghost predicate FreshSeqs(b: Broker)
  {
    && (forall t, n :: t in b.logs && n in b.logs[t] ==> n <= CounterOf(b, t))
    && (forall h :: h in b.handlers && b.handlers[h].Allocated? ==>
          var p := b.handlers[h];
          p.seqNo <= CounterOf(b, p.req.topic) && p.seqNo !in LogOf(b, p.req.topic))
    && (forall g, h | g in b.handlers && h in b.handlers && g != h ::
          SameTopicInFlight(b.handlers[g], b.handlers[h]) ==> b.handlers[g].seqNo != b.handlers[h].seqNo)
  }

  /** A log that has only grown still holds everything. */
  predicate Grows(a: map<Topic, Log>, b: map<Topic, Log>)
  {
    forall t, n | t in a && n in a[t] :: t in b && n in b[t] && b[t][n] == a[t][n]
  }

  lemma BackedGrows(a: map<Topic, Log>, b: map<Topic, Log>, id: Uuid, server: Uuid, n: nat)
    requires Grows(a, b) && Backed(a, id, server, n)
    ensures Backed(b, id, server, n)
  {
    var t :| Holds(a, t, n, id, server);
    assert Holds(b, t, n, id, server);
  }

  lemma RecordGrows(a: map<Topic, Log>, b: map<Topic, Log>, id: Uuid)
    requires Grows(a, b) && HasRecord(a, id)
    ensures HasRecord(b, id)
  {
    var server, n :| Backed(a, id, server, n);
    BackedGrows(a, b, id, server, n);
  }

  lemma BackedByGrows(b: Broker, a: map<Topic, Log>, logs: map<Topic, Log>)
    requires BackedBy(a, b) && Grows(a, logs)
    ensures BackedBy(logs, b)
  {
    forall id, server, n | Backed(a, id, server, n) ensures Backed(logs, id, server, n) {
      BackedGrows(a, logs, id, server, n);
    }
    forall id | HasRecord(a, id) ensures HasRecord(logs, id) {
      RecordGrows(a, logs, id);
    }
  }

  lemma SweepBacked(logs: map<Topic, Log>, s: State, now: int)
    requires MemoryBacked(logs, s) && DiskBacked(logs, s.disk)
    ensures MemoryBacked(logs, Sweep(s, now)) && DiskBacked(logs, Sweep(s, now).disk)
  {
  }

  lemma CheckBacked(logs: map<Topic, Log>, s: State, id: Uuid, now: int, loadNow: int)
    requires MemoryBacked(logs, s) && DiskBacked(logs, s.disk)
    ensures var (answer, t) := Check(s, id, now, loadNow);
            && MemoryBacked(logs, t) && DiskBacked(logs, t.disk)
            && (answer.Hit? ==> Backed(logs, id, answer.entry.serverMsgId, answer.entry.seqNo))
  {
    SweepBacked(logs, s, now);
  }

  lemma {:induction false} TrimBacked(logs: map<Topic, Log>, s: State, capacity: nat)
    requires MemoryBacked(logs, s) && DiskBacked(logs, s.disk)
    ensures MemoryBacked(logs, Trim(s, capacity)) && DiskBacked(logs, Trim(s, capacity).disk)
    decreases |s.order|
  {
    if |s.order| > capacity {
      var oldest := s.order[0];
      TrimBacked(logs, State(s.lru - {oldest}, s.order[1..], Erase(s.disk, {oldest})), capacity);
    }
  }

  lemma RememberBacked(logs: map<Topic, Log>, s: State, id: Uuid, server: Uuid, n: uint64, now: int, c: Config)
    requires MemoryBacked(logs, s) && DiskBacked(logs, s.disk) && Backed(logs, id, server, n)
    ensures MemoryBacked(logs, Remember(s, id, server, n, now, c))
    ensures DiskBacked(logs, Remember(s, id, server, n, now, c).disk)
  {
    var e := Entry(server, n, now + c.ttl);
    var a := Add(s, id, e, c.persistent);
    EntryFields(e);
    forall x: Uuid | DiskKey(x) in a.disk && |a.disk[DiskKey(x)]| >= 32
      ensures var d := DecodeEntry(a.disk[DiskKey(x)]); Backed(logs, x, d.serverMsgId, d.seqNo)
    {
      if DiskKey(x) == DiskKey(id) {
        DiskKeyInjective(x, id);
      }
    }
    TrimBacked(logs, a, c.capacity);
  }

  /** The ids and the seq survive the disk record whatever the expiry is. */
  lemma EntryFields(e: Entry)
    ensures var d := DecodeEntry(EncodeEntry(e)); d.serverMsgId == e.serverMsgId && d.seqNo == e.seqNo
  {
    var b := EncodeEntry(e);
    Get64(e.seqNo);
    assert b[0..16] == e.serverMsgId && b[16..24] == Put64(e.seqNo);
  }

  lemma WriteGrows(b: Broker, h: nat, c: Config)
    requires FreshSeqs(b) && Enabled(b, Write(h))
    ensures Grows(b.logs, Step(b, Write(h), c).logs)
  {
  }

  lemma StepKeepsFreshSeqs(b: Broker, a: Action, c: Config)
    requires FreshSeqs(b) && Enabled(b, a) && !a.Crash?
    ensures FreshSeqs(Step(b, a, c))
  {
  }

  lemma NoteKeepsBacked(logs: map<Topic, Log>, b: Broker, h: nat, now: int, c: Config)
    requires BackedBy(logs, b) && Enabled(b, Note(h, now))
    ensures BackedBy(logs, Step(b, Note(h, now), c))
  {
    var Stored(req, n, server) := b.handlers[h];
    assert StageBacked(logs, b.handlers[h]);
    assert Backed(logs, req.env.idempotencyId, server, n);
    RememberBacked(logs, b.dedup, req.env.idempotencyId, server, n, now, c);
  }

  /** Every step keeps everything backed, by any set of records that includes what a saved seq key covers. */
  lemma StepKeepsBacked(logs: map<Topic, Log>, b: Broker, a: Action, c: Config)
    requires BackedBy(logs, b) && Enabled(b, a)
    requires a.SaveSeq? ==> HoldsWritten(logs, b.handlers[a.h])
    ensures BackedBy(logs, Step(b, a, c))
  {
    match a
    case Look(h, now, loadNow) =>
      CheckBacked(logs, b.dedup, b.handlers[h].req.env.idempotencyId, now, loadNow);
    case Note(h, now) =>
      NoteKeepsBacked(logs, b, h, now, c);
    case Reply(h) =>
      assert StageBacked(logs, b.handlers[h]);
    case _ =>
  }

  lemma StepKeepsWritten(b: Broker, a: Action, c: Config)
    requires WrittenHeld(b) && Enabled(b, a) && Grows(b.logs, Step(b, a, c).logs)
    ensures WrittenHeld(Step(b, a, c))
  {
    var t := Step(b, a, c);
    forall h | h in t.handlers ensures HoldsWritten(t.logs, t.handlers[h]) {
      if h in b.handlers {
        assert HoldsWritten(b.logs, b.handlers[h]);
      }
    }
  }

  lemma StepGrows(b: Broker, a: Action, c: Config)
    requires FreshSeqs(b) && Enabled(b, a)
    ensures Grows(b.logs, Step(b, a, c).logs)
  {
    if a.Write? {
      WriteGrows(b, a.h, c);
    }
  }

  predicate NoCrash(actions: seq<Action>)
  {
    forall i :: 0 <= i < |actions| ==> !actions[i].Crash?
  }

  lemma {:induction false} RunKeepsBacked(b: Broker, actions: seq<Action>, c: Config)
    requires FreshSeqs(b) && WrittenHeld(b) && BackedBy(b.logs, b) && Possible(b, actions, c) && NoCrash(actions)
    ensures BackedBy(Run(b, actions, c).logs, Run(b, actions, c))
    decreases |actions|
  {
    if actions != [] {
      var t := Step(b, actions[0], c);
      StepKeepsFreshSeqs(b, actions[0], c);
      StepGrows(b, actions[0], c);
      StepKeepsWritten(b, actions[0], c);
      BackedByGrows(b, b.logs, t.logs);
      SavesWritten(b, actions[0], t.logs);
      StepKeepsBacked(t.logs, b, actions[0], c);
      RunKeepsBacked(t, actions[1..], c);
    }
  }

  lemma SavesWritten(b: Broker, a: Action, logs: map<Topic, Log>)
    requires WrittenHeld(b) && Enabled(b, a) && Grows(b.logs, logs)
    ensures a.SaveSeq? ==> HoldsWritten(logs, b.handlers[a.h])
  {
    if a.SaveSeq? {
      assert HoldsWritten(b.logs, b.handlers[a.h]);
    }
  }

  /** In every interleaving of sessions, from an empty broker: each PUBACK is for an id some log
      holds, and each dedup entry names a log record with that idempotency id, server id and seq. */
  lemma EveryAckIsBacked(actions: seq<Action>, c: Config)
    requires Possible(EMPTY, actions, c) && NoCrash(actions)
    ensures var b := Run(EMPTY, actions, c);
            && (forall i :: 0 <= i < |b.acks| ==> HasRecord(b.logs, b.acks[i]))
            && (forall id :: id in b.dedup.lru ==>
                  Backed(b.logs, id, b.dedup.lru[id].serverMsgId, b.dedup.lru[id].seqNo))
            && DiskBacked(b.logs, b.dedup.disk)
  {
    RunKeepsBacked(EMPTY, actions, c);
  }

  // ----- every record is what somebody published -----

  /** The packets received in a run. */
  function Requests(actions: seq<Action>): (reqs: set<Request>)
  {
    if actions == [] then {}
    else (if actions[0].Receive? then {actions[0].req} else {}) + Requests(actions[1..])
  }

  /** A server id a record of this envelope may have: the sender's own if there is one. */
  predicate ServerFits(e: E.Envelope, server: Uuid)
  {
    e.serverMsgId != NIL_UUID ==> server == e.serverMsgId
  }

  /** The record is the message of this packet, under the server id its sender gave if any. */
  predicate IsMessageOf(req: Request, t: Topic, record: E.Envelope)
  {
    req.topic == t && E.SameMessage(record, req.env) && ServerFits(req.env, record.serverMsgId)
  }

  predicate Published(reqs: set<Request>, t: Topic, record: E.Envelope)
  {
    exists req | req in reqs :: IsMessageOf(req, t, record)
  }

  predicate StageSent(reqs: set<Request>, stage: Stage)
  {
    && stage.req in reqs
    && (stage.Allocated? || stage.Written? || stage.Stored? ==> ServerFits(stage.req.env, stage.serverMsgId))
  }

  predicate Sent(reqs: set<Request>, b: Broker)
  {
    && (forall h | h in b.handlers :: StageSent(reqs, b.handlers[h]))
    && (forall t, n | t in b.logs && n in b.logs[t] :: Published(reqs, t, b.logs[t][n]))
  }

  lemma WriteKeepsSent(reqs: set<Request>, b: Broker, h: nat, c: Config)
    requires Sent(reqs, b) && Enabled(b, Write(h))
    ensures Sent(reqs, Step(b, Write(h), c))
  {
    var r, p := Step(b, Write(h), c), b.handlers[h];
    assert StageSent(reqs, p);
    E.StampedKeepsMessage(p.req.env, p.serverMsgId);
    assert IsMessageOf(p.req, p.req.topic, r.logs[p.req.topic][p.seqNo]);
    forall t, n | t in r.logs && n in r.logs[t] ensures Published(reqs, t, r.logs[t][n]) {
      if t != p.req.topic || n != p.seqNo { assert r.logs[t][n] == b.logs[t][n]; }
    }
  }

  lemma StepKeepsSent(reqs: set<Request>, b: Broker, a: Action, c: Config)
    requires Sent(reqs, b) && Enabled(b, a) && (a.Receive? ==> a.req in reqs)
    ensures Sent(reqs, Step(b, a, c))
  {
    if a.Write? {
      WriteKeepsSent(reqs, b, a.h, c);
    } else {
      var r := Step(b, a, c);
      assert r.logs == b.logs;
      forall h | h in r.handlers ensures StageSent(reqs, r.handlers[h]) {
        if h in b.handlers { assert StageSent(reqs, b.handlers[h]); }
      }
    }
  }

  lemma {:induction false} RunKeepsSent(reqs: set<Request>, b: Broker, actions: seq<Action>, c: Config)
    requires Sent(reqs, b) && Possible(b, actions, c) && Requests(actions) <= reqs
    ensures Sent(reqs, Run(b, actions, c))
    decreases |actions|
  {
    if actions != [] {
      StepKeepsSent(reqs, b, actions[0], c);
      RunKeepsSent(reqs, Step(b, actions[0], c), actions[1..], c);
    }
  }

  /** In every interleaving, crashes included: a record in a log is a message some session received for that
      topic, with its idempotency id, time, properties and payload, and with its server id if it brought one. */
  lemma RecordsAreMessages(actions: seq<Action>, c: Config)
    requires Possible(EMPTY, actions, c)
    ensures var logs := Run(EMPTY, actions, c).logs;
            forall t, n | t in logs && n in logs[t] :: Published(Requests(actions), t, logs[t][n])
  {
    RunKeepsSent(Requests(actions), EMPTY, actions, c);
  }

  // ----- a crash between the two writes -----

  function Unsaved(h: nat, x: Uuid): (actions: seq<Action>)
  {
    [Allocate(h, x), Write(h)]
  }

  /** The broker crashes before the seq key is written, and the next publish of the topic arrives. */
  function CrashAndNext(h: nat, next: Request, now: int, loadNow: int, y: Uuid): (actions: seq<Action>)
  {
    [Crash, Receive(h, next), Look(h, now, loadNow), Allocate(h, y), Write(h)]
  }

  lemma UnsavedRuns(b: Broker, h: nat, req: Request, x: Uuid, c: Config) returns (r: Broker)
    requires h in b.handlers && b.handlers[h] == Missed(req) && CounterOf(b, req.topic) + 1 < TWO_64
    ensures Possible(b, Unsaved(h, x), c) && r == Run(b, Unsaved(h, x), c)
    ensures r.seqKeys == b.seqKeys && r.dedup == b.dedup
    ensures var n := CounterOf(b, req.topic) + 1;
            LogOf(r, req.topic).Keys == LogOf(b, req.topic).Keys + {n} && E.SameMessage(LogOf(r, req.topic)[n], req.env)
  {
    var b1 := Step(b, Allocate(h, x), c);
    r := Step(b1, Write(h), c);
    RunCons(b1, Write(h), [], c);
    RunCons(b, Allocate(h, x), [Write(h)], c);
    assert Unsaved(h, x) == [Allocate(h, x)] + [Write(h)];
    E.StampedKeepsMessage(req.env, ServerId(req.env, x));
  }

  lemma NextIsLooked(b: Broker, h: nat, req: Request, now: int, loadNow: int, c: Config) returns (r: Broker)
    requires b.handlers == map[] && Check(b.dedup, req.env.idempotencyId, now, loadNow).0.Miss?
    ensures var b1 := Step(b, Receive(h, req), c);
            Enabled(b1, Look(h, now, loadNow)) && r == Step(b1, Look(h, now, loadNow), c)
    ensures h in r.handlers && r.handlers[h] == Missed(req) && r.counters == b.counters && r.logs == b.logs
  {
    r := Step(Step(b, Receive(h, req), c), Look(h, now, loadNow), c);
  }

  lemma NextRuns(b: Broker, h: nat, next: Request, now: int, loadNow: int, y: Uuid, c: Config)
    requires SeqKeyOf(b, next.topic) + 1 < TWO_64
    requires Check(W.Restarted(b.dedup), next.env.idempotencyId, now, loadNow).0.Miss?
    ensures Possible(b, CrashAndNext(h, next, now, loadNow, y), c)
    ensures var log, n := LogOf(Run(b, CrashAndNext(h, next, now, loadNow, y), c), next.topic), SeqKeyOf(b, next.topic) + 1;
            log.Keys == LogOf(b, next.topic).Keys + {n} && E.SameMessage(log[n], next.env)
  {
    var b1 := Step(b, Crash, c);
    var b2 := Step(b1, Receive(h, next), c);
    var b3 := NextIsLooked(b1, h, next, now, loadNow, c);
    var last := UnsavedRuns(b3, h, next, y, c);
    RunCons(b2, Look(h, now, loadNow), Unsaved(h, y), c);
    RunCons(b1, Receive(h, next), [Look(h, now, loadNow)] + Unsaved(h, y), c);
    assert CounterOf(b3, next.topic) == SeqKeyOf(b, next.topic) && LogOf(b3, next.topic) == LogOf(b, next.topic);
    RunCons(b, Crash, [Receive(h, next)] + ([Look(h, now, loadNow)] + Unsaved(h, y)), c);
    assert CrashAndNext(h, next, now, loadNow, y) == [Crash] + ([Receive(h, next)] + ([Look(h, now, loadNow)] + Unsaved(h, y)));
  }

  /** What a crash between the two writes costs: the counter comes back from the seq key, which the record has
      not reached, so the next publish of the topic takes the same seq and overwrites that record. */
  lemma CrashOverwritesUnsaved(b: Broker, h: nat, req: Request, x: Uuid, next: Request, now: int, loadNow: int, y: Uuid, c: Config)
    requires h in b.handlers && b.handlers[h] == Missed(req) && next.topic == req.topic
    requires CounterOf(b, req.topic) == SeqKeyOf(b, req.topic) && CounterOf(b, req.topic) + 1 < TWO_64
    requires Check(W.Restarted(b.dedup), next.env.idempotencyId, now, loadNow).0.Miss?
    ensures Possible(b, Unsaved(h, x), c)
    ensures var t, n, b1 := req.topic, CounterOf(b, req.topic) + 1, Run(b, Unsaved(h, x), c);
            && n in LogOf(b1, t) && E.SameMessage(LogOf(b1, t)[n], req.env)
            && Possible(b1, CrashAndNext(h, next, now, loadNow, y), c)
            && var log := LogOf(Run(b1, CrashAndNext(h, next, now, loadNow, y), c), t);
               log.Keys == LogOf(b1, t).Keys && E.SameMessage(log[n], next.env)
  {
    var b1 := UnsavedRuns(b, h, req, x, c);
    NextRuns(b1, h, next, now, loadNow, y, c);
  }

  /** One session's allocation and record write. */
  lemma StoresOne(b: Broker, h: nat, req: Request, x: Uuid, c: Config)
    requires h in b.handlers && b.handlers[h] == Missed(req) && CounterOf(b, req.topic) + 1 < TWO_64
    ensures Enabled(b, Allocate(h, x)) && Enabled(Step(b, Allocate(h, x), c), Write(h))
    ensures var r := Step(Step(b, Allocate(h, x), c), Write(h), c);
            var n := CounterOf(b, req.topic) + 1;
            && CounterOf(r, req.topic) == n
            && LogOf(r, req.topic) == LogOf(b, req.topic)[n := E.WithServerMsgId(req.env, ServerId(req.env, x))]
            && forall g | g in b.handlers && g != h :: g in r.handlers && r.handlers[g] == b.handlers[g]
  {
  }

  /** Why the next section handles packets one at a time: two sessions that both looked the same id up before
      either remembered it store it twice, under two seqs. */
  lemma TwoMissesStoreTwice(b: Broker, g: nat, h: nat, req: Request, x: Uuid, y: Uuid, c: Config)
    requires g != h && g in b.handlers && h in b.handlers
    requires b.handlers[g] == Missed(req) && b.handlers[h] == Missed(req) && CounterOf(b, req.topic) + 2 < TWO_64
    ensures Enabled(b, Allocate(g, x)) && Enabled(Step(b, Allocate(g, x), c), Write(g))
    ensures var b1 := Step(Step(b, Allocate(g, x), c), Write(g), c);
            && Enabled(b1, Allocate(h, y)) && Enabled(Step(b1, Allocate(h, y), c), Write(h))
            && var log, n := LogOf(Step(Step(b1, Allocate(h, y), c), Write(h), c), req.topic), CounterOf(b, req.topic) + 1;
               n in log && n + 1 in log && log[n].idempotencyId == log[n + 1].idempotencyId == req.env.idempotencyId
  {
    StoresOne(b, g, req, x, c);
    StoresOne(Step(Step(b, Allocate(g, x), c), Write(g), c), h, req, y, c);
  }

  // ----- one publish at a time -----

  /** A packet with the clock readings and the fresh id its handling will use. */
  datatype Arrival = Arrival(req: Request, newId: Uuid, now: int, loadNow: int, rememberNow: int)

  datatype Serial = Serial(broker: Broker, history: W.History, clock: int)

  const HANDLER: nat := 0

  predicate IsMiss(b: Broker, a: Arrival)
  {
    Check(b.dedup, a.req.env.idempotencyId, a.now, a.loadNow).0.Miss?
  }

  ghost predicate Quiet(s: Serial, c: Config)
  {
    && s.broker.handlers == map[]
    && c.capacity > 0 && W.Valid(W.World(s.broker.dedup, s.history, s.clock), c)
  }

  predicate Admissible(s: Serial, a: Arrival, c: Config)
  {
    && s.clock <= a.now <= a.loadNow <= a.rememberNow && Representable(a.rememberNow + c.ttl)
    && CounterOf(s.broker, a.req.topic) + 1 < TWO_64
  }

  lemma RunCons(b: Broker, x: Action, rest: seq<Action>, c: Config)
    requires Enabled(b, x) && Possible(Step(b, x, c), rest, c)
    ensures Possible(b, [x] + rest, c) && Run(b, [x] + rest, c) == Run(Step(b, x, c), rest, c)
  {
    assert ([x] + rest)[1..] == rest;
  }

  /** The broker after the record and the seq key of a miss have been written. */
  function AfterWrites(b: Broker, a: Arrival): (r: Broker)
    requires CounterOf(b, a.req.topic) + 1 < TWO_64
  {
    var t, n, server := a.req.topic, CounterOf(b, a.req.topic) + 1, ServerId(a.req.env, a.newId);
    b.(logs := b.logs[t := LogOf(b, t)[n := E.WithServerMsgId(a.req.env, server)]],
       seqKeys := b.seqKeys[t := n], counters := b.counters[t := n])
  }

  /** The broker after a miss has been stored, remembered and answered. */
  function Ended(b: Broker, a: Arrival, c: Config): (r: Broker)
    requires CounterOf(b, a.req.topic) + 1 < TWO_64
  {
    var n, server := CounterOf(b, a.req.topic) + 1, ServerId(a.req.env, a.newId);
    AfterWrites(b, a).(dedup := Remember(b.dedup, a.req.env.idempotencyId, server, n, a.rememberNow, c),
                       acks := b.acks + (if a.req.qos == 1 then [a.req.env.idempotencyId] else []))
  }

  function AfterMiss(b: Broker, d: State, a: Arrival, c: Config): (r: Broker)
    requires CounterOf(b, a.req.topic) + 1 < TWO_64
  {
    Ended(b.(dedup := d), a, c)
  }

  function WriteActions(a: Arrival): (actions: seq<Action>)
  {
    [Allocate(HANDLER, a.newId), Write(HANDLER), SaveSeq(HANDLER)]
  }

  function EndActions(a: Arrival): (actions: seq<Action>)
  {
    [Note(HANDLER, a.rememberNow), Reply(HANDLER)]
  }

  /** What is left to do after a miss. */
  function Tail(a: Arrival): (actions: seq<Action>)
  {
    WriteActions(a) + EndActions(a)
  }

  /** The only handler is at this stage. */
  function Solo(b: Broker, p: Stage): (r: Broker)
  {
    b.(handlers := map[HANDLER := p])
  }

  lemma SoloPut(p: Stage, q: Stage)
    ensures map[HANDLER := p][HANDLER := q] == map[HANDLER := q] && map[HANDLER := p] - {HANDLER} == map[]
  {
  }

  lemma MissWrites(b: Broker, a: Arrival, c: Config) returns (b1: Broker, b2: Broker)
    requires CounterOf(b, a.req.topic) + 1 < TWO_64
    ensures var n, server := CounterOf(b, a.req.topic) + 1, ServerId(a.req.env, a.newId);
            && Enabled(Solo(b, Missed(a.req)), Allocate(HANDLER, a.newId))
            && Step(Solo(b, Missed(a.req)), Allocate(HANDLER, a.newId), c) == b1
            && Enabled(b1, Write(HANDLER)) && Step(b1, Write(HANDLER), c) == b2
            && Enabled(b2, SaveSeq(HANDLER)) && Step(b2, SaveSeq(HANDLER), c) == Solo(AfterWrites(b, a), Stored(a.req, n, server))
  {
    var n, server := CounterOf(b, a.req.topic) + 1, ServerId(a.req.env, a.newId);
    SoloPut(Missed(a.req), Allocated(a.req, n, server));
    SoloPut(Allocated(a.req, n, server), Written(a.req, n, server));
    SoloPut(Written(a.req, n, server), Stored(a.req, n, server));
    b1 := Step(Solo(b, Missed(a.req)), Allocate(HANDLER, a.newId), c);
    b2 := Step(b1, Write(HANDLER), c);
  }

  lemma MissEnds(b: Broker, a: Arrival, n: uint64, server: Uuid, c: Config) returns (b1: Broker)
    requires b.handlers == map[]
    ensures var d := Remember(b.dedup, a.req.env.idempotencyId, server, n, a.rememberNow, c);
            && Enabled(Solo(b, Stored(a.req, n, server)), Note(HANDLER, a.rememberNow))
            && Step(Solo(b, Stored(a.req, n, server)), Note(HANDLER, a.rememberNow), c) == b1
            && Enabled(b1, Reply(HANDLER))
            && Step(b1, Reply(HANDLER), c) == b.(dedup := d, acks := b.acks + (if a.req.qos == 1 then [a.req.env.idempotencyId] else []))
  {
    SoloPut(Stored(a.req, n, server), Recorded(a.req));
    b1 := Step(Solo(b, Stored(a.req, n, server)), Note(HANDLER, a.rememberNow), c);
    SoloPut(Recorded(a.req), Recorded(a.req));
  }

  lemma MissTail(b: Broker, a: Arrival, c: Config)
    requires b.handlers == map[] && CounterOf(b, a.req.topic) + 1 < TWO_64
    ensures Possible(Solo(b, Missed(a.req)), Tail(a), c)
    ensures Run(Solo(b, Missed(a.req)), Tail(a), c) == Ended(b, a, c)
  {
    EndRuns(AfterWrites(b, a), a, CounterOf(b, a.req.topic) + 1, ServerId(a.req.env, a.newId), c);
    WritesRun(b, a, EndActions(a), c);
  }

  lemma WritesRun(b: Broker, a: Arrival, rest: seq<Action>, c: Config)
    requires CounterOf(b, a.req.topic) + 1 < TWO_64
    requires Possible(Solo(AfterWrites(b, a), Stored(a.req, CounterOf(b, a.req.topic) + 1, ServerId(a.req.env, a.newId))), rest, c)
    ensures Possible(Solo(b, Missed(a.req)), WriteActions(a) + rest, c)
    ensures Run(Solo(b, Missed(a.req)), WriteActions(a) + rest, c) ==
            Run(Solo(AfterWrites(b, a), Stored(a.req, CounterOf(b, a.req.topic) + 1, ServerId(a.req.env, a.newId))), rest, c)
  {
    var b1, b2 := MissWrites(b, a, c);
    RunCons(b2, SaveSeq(HANDLER), rest, c);
    RunCons(b1, Write(HANDLER), [SaveSeq(HANDLER)] + rest, c);
    RunCons(Solo(b, Missed(a.req)), Allocate(HANDLER, a.newId), [Write(HANDLER)] + ([SaveSeq(HANDLER)] + rest), c);
    assert WriteActions(a) + rest == [Allocate(HANDLER, a.newId)] + ([Write(HANDLER)] + ([SaveSeq(HANDLER)] + rest));
  }

  lemma EndRuns(b: Broker, a: Arrival, n: uint64, server: Uuid, c: Config)
    requires b.handlers == map[]
    ensures Possible(Solo(b, Stored(a.req, n, server)), EndActions(a), c)
    ensures Run(Solo(b, Stored(a.req, n, server)), EndActions(a), c) ==
            b.(dedup := Remember(b.dedup, a.req.env.idempotencyId, server, n, a.rememberNow, c),
               acks := b.acks + (if a.req.qos == 1 then [a.req.env.idempotencyId] else []))
  {
    var b1 := MissEnds(b, a, n, server, c);
    RunCons(b1, Reply(HANDLER), [], c);
    RunCons(Solo(b, Stored(a.req, n, server)), Note(HANDLER, a.rememberNow), [Reply(HANDLER)], c);
  }

  /** The steps one session takes for a packet, nothing else running. */
  function Script(a: Arrival, miss: bool): (actions: seq<Action>)
  {
    [Receive(HANDLER, a.req)] + ([Look(HANDLER, a.now, a.loadNow)] + if miss then Tail(a) else [Reply(HANDLER)])
  }

  /** The broker after the lookup. */
  function Looked(b: Broker, a: Arrival): (r: Broker)
  {
    var (answer, d) := Check(b.dedup, a.req.env.idempotencyId, a.now, a.loadNow);
    Solo(b.(dedup := d), if answer.Hit? then Repeated(a.req) else Missed(a.req))
  }

  lemma LooksUp(b: Broker, a: Arrival, rest: seq<Action>, c: Config)
    requires b.handlers == map[] && Possible(Looked(b, a), rest, c)
    ensures Possible(b, [Receive(HANDLER, a.req)] + ([Look(HANDLER, a.now, a.loadNow)] + rest), c)
    ensures Run(b, [Receive(HANDLER, a.req)] + ([Look(HANDLER, a.now, a.loadNow)] + rest), c) == Run(Looked(b, a), rest, c)
  {
    var b1 := Step(b, Receive(HANDLER, a.req), c);
    assert b1 == Solo(b, Received(a.req)) by { assert map[][HANDLER := Received(a.req)] == map[HANDLER := Received(a.req)]; }
    SoloPut(Received(a.req), Looked(b, a).handlers[HANDLER]);
    RunCons(b1, Look(HANDLER, a.now, a.loadNow), rest, c);
    RunCons(b, Receive(HANDLER, a.req), [Look(HANDLER, a.now, a.loadNow)] + rest, c);
  }

  lemma RepliesToRepeat(b: Broker, req: Request, c: Config)
    requires b.handlers == map[]
    ensures Possible(Solo(b, Repeated(req)), [Reply(HANDLER)], c)
    ensures Run(Solo(b, Repeated(req)), [Reply(HANDLER)], c) ==
            b.(acks := b.acks + (if req.qos == 1 then [req.env.idempotencyId] else []))
  {
    SoloPut(Repeated(req), Repeated(req));
    RunCons(Solo(b, Repeated(req)), Reply(HANDLER), [], c);
  }

  lemma ScriptRuns(b: Broker, a: Arrival, c: Config)
    requires b.handlers == map[] && CounterOf(b, a.req.topic) + 1 < TWO_64
    ensures Possible(b, Script(a, IsMiss(b, a)), c)
    ensures var (answer, d) := Check(b.dedup, a.req.env.idempotencyId, a.now, a.loadNow);
            Run(b, Script(a, IsMiss(b, a)), c) ==
              if answer.Miss? then AfterMiss(b, d, a, c)
              else b.(dedup := d, acks := b.acks + (if a.req.qos == 1 then [a.req.env.idempotencyId] else []))
  {
    var d := Check(b.dedup, a.req.env.idempotencyId, a.now, a.loadNow).1;
    if IsMiss(b, a) {
      MissTail(b.(dedup := d), a, c);
      LooksUp(b, a, Tail(a), c);
    } else {
      RepliesToRepeat(b.(dedup := d), a.req, c);
      LooksUp(b, a, [Reply(HANDLER)], c);
    }
  }

  /** Handling one packet with nothing else running. */
  function Handle(s: Serial, a: Arrival, c: Config): (r: Serial)
    requires s.broker.handlers == map[] && Admissible(s, a, c)
  {
    ScriptRuns(s.broker, a, c);
    var b := Run(s.broker, Script(a, IsMiss(s.broker, a)), c);
    if IsMiss(s.broker, a) then
      var r := W.Remembered(a.req.env.idempotencyId, ServerId(a.req.env, a.newId),
                            CounterOf(s.broker, a.req.topic) + 1, a.rememberNow);
      Serial(b, s.history + [r], a.rememberNow)
    else Serial(b, s.history, a.loadNow)
  }

  lemma HandledBroker(s: Serial, a: Arrival, c: Config)
    requires s.broker.handlers == map[] && Admissible(s, a, c)
    ensures var (answer, d) := Check(s.broker.dedup, a.req.env.idempotencyId, a.now, a.loadNow);
            Handle(s, a, c).broker ==
              if answer.Miss? then AfterMiss(s.broker, d, a, c)
              else s.broker.(dedup := d, acks := s.broker.acks + (if a.req.qos == 1 then [a.req.env.idempotencyId] else []))
  {
    ScriptRuns(s.broker, a, c);
  }

  /** What the window specification sees of handling a packet. */
  function AsOp(s: Serial, a: Arrival): (op: W.Op)
    requires CounterOf(s.broker, a.req.topic) + 1 < TWO_64
  {
    W.Handle(a.req.env.idempotencyId, ServerId(a.req.env, a.newId), CounterOf(s.broker, a.req.topic) + 1,
             a.now, a.loadNow, a.rememberNow)
  }

  lemma HandleIsApply(s: Serial, a: Arrival, c: Config)
    requires s.broker.handlers == map[] && Admissible(s, a, c)
    ensures var r := Handle(s, a, c);
            && r.broker.handlers == map[]
            && W.Apply(W.World(s.broker.dedup, s.history, s.clock), AsOp(s, a), c) == W.World(r.broker.dedup, r.history, r.clock)
  {
    HandledBroker(s, a, c);
  }

  /** The serial publish path drives the store exactly as the window specification assumes. */
  lemma HandleKeepsQuiet(s: Serial, a: Arrival, c: Config)
    requires Quiet(s, c) && Admissible(s, a, c)
    ensures Quiet(Handle(s, a, c), c)
  {
    HandleIsApply(s, a, c);
    W.ApplyKeepsValid(W.World(s.broker.dedup, s.history, s.clock), AsOp(s, a), c);
  }

  predicate AdmissibleRun(s: Serial, arrivals: seq<Arrival>, c: Config)
    requires s.broker.handlers == map[]
    decreases |arrivals|
  {
    arrivals == [] ||
    (Admissible(s, arrivals[0], c) &&
     (ScriptRuns(s.broker, arrivals[0], c); AdmissibleRun(Handle(s, arrivals[0], c), arrivals[1..], c)))
  }

  function SerialRun(s: Serial, arrivals: seq<Arrival>, c: Config): (r: Serial)
    requires s.broker.handlers == map[] && AdmissibleRun(s, arrivals, c)
    ensures r.broker.handlers == map[]
    decreases |arrivals|
  {
    if arrivals == [] then s
    else
      ScriptRuns(s.broker, arrivals[0], c);
      SerialRun(Handle(s, arrivals[0], c), arrivals[1..], c)
  }

  lemma SerialCons(s: Serial, a: Arrival, rest: seq<Arrival>, c: Config)
    requires s.broker.handlers == map[] && Admissible(s, a, c)
    requires Handle(s, a, c).broker.handlers == map[] && AdmissibleRun(Handle(s, a, c), rest, c)
    ensures AdmissibleRun(s, [a] + rest, c) && SerialRun(s, [a] + rest, c) == SerialRun(Handle(s, a, c), rest, c)
  {
    assert ([a] + rest)[1..] == rest && ([a] + rest)[0] == a;
  }

  lemma {:induction false} SerialRunKeepsQuiet(s: Serial, arrivals: seq<Arrival>, c: Config)
    requires Quiet(s, c) && AdmissibleRun(s, arrivals, c)
    ensures Quiet(SerialRun(s, arrivals, c), c)
    decreases |arrivals|
  {
    if arrivals != [] {
      HandleKeepsQuiet(s, arrivals[0], c);
      SerialRunKeepsQuiet(Handle(s, arrivals[0], c), arrivals[1..], c);
    }
  }

  /** Handling `a` leaves every log unchanged exactly when its id is inside the dedup window; otherwise it
      appends one record under the next seq of its topic, the message itself. Either way it is acked once at QoS 1 and not at
      all otherwise. */
  ghost predicate StoredOncePerWindow(s: Serial, r: Serial, a: Arrival, c: Config)
    requires c.capacity > 0
  {
    var t, n := a.req.topic, CounterOf(s.broker, a.req.topic) + 1;
    && (W.InWindow(s.history, a.req.env.idempotencyId, a.now, c) ==>
          r.broker.logs == s.broker.logs && r.broker.counters == s.broker.counters)
    && (!W.InWindow(s.history, a.req.env.idempotencyId, a.now, c) ==>
          && n in LogOf(r.broker, t) && CounterOf(r.broker, t) == n
          && IsMessageOf(a.req, t, LogOf(r.broker, t)[n])
          && (a.req.env.serverMsgId == NIL_UUID ==> LogOf(r.broker, t)[n].serverMsgId == a.newId)
          && LogOf(r.broker, t) == LogOf(s.broker, t)[n := LogOf(r.broker, t)[n]]
          && forall u :: u != t ==> LogOf(r.broker, u) == LogOf(s.broker, u))
    && r.broker.acks == s.broker.acks + (if a.req.qos == 1 then [a.req.env.idempotencyId] else [])
  }

  lemma AfterMissLogs(b: Broker, d: State, a: Arrival, c: Config)
    requires CounterOf(b, a.req.topic) + 1 < TWO_64
    ensures var r, t, n := AfterMiss(b, d, a, c), a.req.topic, CounterOf(b, a.req.topic) + 1;
            && LogOf(r, t) == LogOf(b, t)[n := E.WithServerMsgId(a.req.env, ServerId(a.req.env, a.newId))]
            && CounterOf(r, t) == n
            && (forall u :: u != t ==> LogOf(r, u) == LogOf(b, u))
  {
  }

  lemma HandleStoresOnce(s: Serial, a: Arrival, c: Config)
    requires c.capacity > 0 && Quiet(s, c) && Admissible(s, a, c)
    ensures StoredOncePerWindow(s, Handle(s, a, c), a, c)
  {
    HandledBroker(s, a, c);
    var d := Check(s.broker.dedup, a.req.env.idempotencyId, a.now, a.loadNow).1;
    AfterMissLogs(s.broker, d, a, c);
    E.StampedKeepsMessage(a.req.env, ServerId(a.req.env, a.newId));
    W.CheckIsWindow(W.World(s.broker.dedup, s.history, s.clock), a.req.env.idempotencyId, a.now, a.loadNow, c);
  }

  /** After any run of publishes handled one at a time, a repeat inside the window leaves every log
      unchanged yet is still acked at QoS 1. */
  lemma RepeatLeavesLogsUnchanged(arrivals: seq<Arrival>, start: int, a: Arrival, c: Config)
    requires c.capacity > 0 && AdmissibleRun(Serial(EMPTY, [], start), arrivals, c)
    requires Admissible(SerialRun(Serial(EMPTY, [], start), arrivals, c), a, c)
    ensures var s := SerialRun(Serial(EMPTY, [], start), arrivals, c);
            StoredOncePerWindow(s, Handle(s, a, c), a, c)
  {
    var s0 := Serial(EMPTY, [], start);
    SerialRunKeepsQuiet(s0, arrivals, c);
    HandleStoresOnce(SerialRun(s0, arrivals, c), a, c);
  }
}
