/** QoS 1 delivery to one client id on one topic: any number of sessions, subscriptions and
    re-subscriptions come and go while a publisher appends. Every lock region, storage call,
    channel operation and socket write of the code is a step of its own. */
module AtLeastOnce {
  import opened Bytes
  import opened PacketIds
  import opened Common

  /** How far a publish has got. */
  datatype Progress = Allocated | Stored | SeqSaved

  /** One transmission of a message: where the allocator's cursor stood when it was numbered, which
      fixes the packet id it carries, and its seq. */
  datatype Copy = Copy(place: nat, seqNo: nat)

  function Pid(c: Copy): (id: uint16)
  {
    IdAt(c.place)
  }

  datatype Phase = Registered | OffsetRead(from: nat) | SeqRead(from: nat) | Sending | Live

  /** The message a delivery goroutine holds: received, past the offset check, given a packet id,
      entered in the inflight table. */
  datatype Hand = Empty | Got(k: nat) | Passed(k: nat) | Numbered(c: Copy) | Entered(c: Copy)

  /** `open` is false once the channel is closed; what it still buffers is drained all the same.
      `base` records the last seq fanned out before the channel was registered. */
  datatype Sub = Sub(phase: Phase, todo: seq<nat>, hand: Hand, queue: seq<nat>, open: bool, base: nat)

  /** What handlePubAck still has to do after it has released the inflight lock. */
  datatype AckWork = Done | Saving(k: nat)

  /** `cursor` is how far the packet id allocator has moved. `flow` is every copy written to the socket
      whose PUBACK has not come back, oldest first; the client has processed and acknowledged the first
      `read` of them. `resend` is what the retransmit loop has collected and not yet written. `conn` is
      the number of the client's connection. Deliveries of other topics over the same connection show in the
      cursor, where they take places and the allocator skips what they hold inflight, and in the PUBACKs of
      their copies, which were numbered at the places `foreign`. */
  datatype Session = Session(
    subs: map<nat, Sub>, inflight: map<uint16, Copy>, cursor: nat, flow: seq<Copy>, read: nat,
    resend: seq<Copy>, work: AckWork, conn: nat, foreign: set<nat>)

  /** `first` is the client's offset at the beginning. `acked` and `handled` record the seqs whose
      PUBACK reached the broker and those the client processed; `skipped` those that met a full
      channel or lay between the catch-up limit and the registration of a channel. `streams` holds, for
      every connection so far, what the client has read from it. */
  datatype State = State(
    first: nat, counter: nat, stored: set<nat>, pubs: map<nat, Progress>, offset: nat,
    sessions: map<nat, Session>, acked: set<nat>, handled: set<nat>, skipped: set<nat>, streams: seq<seq<nat>>)

  datatype Action =
    | Allocate | Store(n: nat) | SaveSeq(n: nat) | FanOut(n: nat)
    | Connect(i: nat) | Disconnect(i: nat)
    | Register(i: nat, j: nat) | Unsubscribe(i: nat, j: nat)
    | ReadOffset(i: nat, j: nat) | ReadSeq(i: nat, j: nat) | Scan(i: nat, j: nat)
    | TakeCatchUp(i: nat, j: nat) | GoLive(i: nat, j: nat)
    | Receive(i: nat, j: nat) | CheckOffset(i: nat, j: nat)
    | Number(i: nat, j: nat, place: nat) | Enter(i: nat, j: nat) | Write(i: nat, j: nat)
    | Snapshot(i: nat, pid: uint16) | Resend(i: nat)
    | Read(i: nat) | Ack(i: nat, x: nat) | SaveOffset(i: nat)
    | OtherTopics(i: nat, places: nat) | StrayAck(i: nat, place: nat)

  /** A session for the client's connection number `conn`. */
  function NewSession(conn: nat): (x: Session)
  {
    Session(map[], map[], 0, [], 0, [], Done, conn, {})
  }

  /** The seqs lo+1..hi. */
  function Between(lo: nat, hi: nat): (r: set<nat>)
    ensures forall k: nat :: k in r <==> lo < k <= hi
    decreases hi
  {
    if hi <= lo then {} else Between(lo, hi - 1) + {hi}
  }

  /** A topic holding seqs 1..n, a client whose offset is `first`, nobody connected. */
  function Init(n: nat, first: nat): (s: State)
  {
    State(first, n, Between(0, n), map[], first, map[], {}, {}, {}, [])
  }

  function Fanned(s: State): (n: nat)
  {
    if s.pubs != map[] && s.counter > 0 then s.counter - 1 else s.counter
  }

  /** GetMessages: the first `limit` stored seqs from `from` on, ascending. */
  function FirstFrom(stored: set<nat>, from: nat, top: nat, limit: nat): (ks: seq<nat>)
    decreases top + 1 - from
  {
    if limit == 0 || from > top then []
    else if from in stored then [from] + FirstFrom(stored, from + 1, top, limit - 1)
    else FirstFrom(stored, from + 1, top, limit)
  }

  predicate HasSub(s: State, i: nat, j: nat)
  {
    i in s.sessions && j in s.sessions[i].subs
  }

  function SubOf(s: State, i: nat, j: nat): (u: Sub)
    requires HasSub(s, i, j)
  {
    s.sessions[i].subs[j]
  }

  function PutSession(s: State, i: nat, x: Session): (r: State)
  {
    s.(sessions := s.sessions[i := x])
  }

  function PutSub(s: State, i: nat, j: nat, u: Sub): (r: State)
    requires i in s.sessions
  {
    PutSession(s, i, s.sessions[i].(subs := s.sessions[i].subs[j := u]))
  }

  predicate Ready(u: Sub)
  {
    (u.phase.Sending? || u.phase.Live?) && u.hand.Empty?
  }

  predicate Enabled(s: State, a: Action)
  {
    match a
    case Allocate => s.counter + 1 !in s.pubs
    case Store(n) => n in s.pubs && s.pubs[n] == Allocated
    case SaveSeq(n) => n in s.pubs && s.pubs[n] == Stored
    case FanOut(n) => n in s.pubs && s.pubs[n] == SeqSaved
    case Connect(i) => i !in s.sessions
    case Disconnect(i) => i in s.sessions && s.sessions[i].work.Done?
    case Register(i, j) => i in s.sessions && j !in s.sessions[i].subs
    case Unsubscribe(i, j) => HasSub(s, i, j)
    case ReadOffset(i, j) => HasSub(s, i, j) && SubOf(s, i, j).phase.Registered?
    case ReadSeq(i, j) => HasSub(s, i, j) && SubOf(s, i, j).phase.OffsetRead?
    case Scan(i, j) => HasSub(s, i, j) && SubOf(s, i, j).phase.SeqRead?
    case TakeCatchUp(i, j) => HasSub(s, i, j) && Ready(SubOf(s, i, j)) && SubOf(s, i, j).todo != []
    case GoLive(i, j) => HasSub(s, i, j) && Ready(SubOf(s, i, j)) && SubOf(s, i, j).phase.Sending? && SubOf(s, i, j).todo == []
    case Receive(i, j) => HasSub(s, i, j) && Ready(SubOf(s, i, j)) && SubOf(s, i, j).phase.Live? && SubOf(s, i, j).queue != []
    case CheckOffset(i, j) => HasSub(s, i, j) && SubOf(s, i, j).hand.Got?
    case Number(i, j, place) =>
      HasSub(s, i, j) && SubOf(s, i, j).hand.Passed? && StopsAt(s.sessions[i].cursor, s.sessions[i].inflight.Keys, place)
    case Enter(i, j) => HasSub(s, i, j) && SubOf(s, i, j).hand.Numbered?
    case Write(i, j) => HasSub(s, i, j) && SubOf(s, i, j).hand.Entered?
    case Snapshot(i, pid) => i in s.sessions && pid in s.sessions[i].inflight
    case Resend(i) => i in s.sessions && s.sessions[i].resend != []
    case Read(i) =>
      i in s.sessions && s.sessions[i].read < |s.sessions[i].flow| && s.sessions[i].conn < |s.streams|
    case Ack(i, x) => i in s.sessions && s.sessions[i].work.Done? && x < s.sessions[i].read <= |s.sessions[i].flow|
    case SaveOffset(i) => i in s.sessions && s.sessions[i].work.Saving?
    case OtherTopics(i, _) => i in s.sessions
    case StrayAck(i, place) => i in s.sessions && s.sessions[i].work.Done? && place in s.sessions[i].foreign
  }

  /** The subscription after it has compared its offset with the current seq. */
  function SeqReadSub(u: Sub, counter: nat): (v: Sub)
    requires u.phase.OffsetRead?
  {
    u.(phase := if u.phase.from < counter then SeqRead(u.phase.from) else Sending)
  }

  /** The subscription after GetMessages(offset + 1, catchUpLimit). */
  function Scanned(u: Sub, stored: set<nat>, counter: nat): (v: Sub)
    requires u.phase.SeqRead?
  {
    u.(phase := Sending, todo := FirstFrom(stored, u.phase.from + 1, counter, CATCH_UP_LIMIT))
  }

  /** The subscription after its delivery loop has taken the next message from the catch-up. */
  function TakenSub(u: Sub): (v: Sub)
    requires u.todo != []
  {
    u.(hand := Passed(u.todo[0]), todo := u.todo[1..])
  }

  /** From its channel. */
  function ReceivedSub(u: Sub): (v: Sub)
    requires u.queue != []
  {
    u.(hand := Got(u.queue[0]), queue := u.queue[1..])
  }

  /** The live loop's offset test. */
  function CheckedSub(u: Sub, offset: nat): (v: Sub)
    requires u.hand.Got?
  {
    u.(hand := if u.hand.k <= offset then Empty else Passed(u.hand.k))
  }

  /** The session after allocPacketID for subscription j has stopped at `place`. */
  function NumberedSession(x: Session, j: nat, place: nat): (y: Session)
    requires j in x.subs && x.subs[j].hand.Passed?
  {
    x.(subs := x.subs[j := x.subs[j].(hand := Numbered(Copy(place, x.subs[j].hand.k)))], cursor := place + 1)
  }

  function ReadSession(x: Session): (y: Session)
  {
    x.(read := x.read + 1)
  }

  /** The next n places from `from` on. */
  function Places(from: nat, n: nat): (r: set<nat>)
    ensures forall p: nat :: p in r <==> from <= p < from + n
  {
    if n == 0 then {} else Places(from, n - 1) + {from + n - 1}
  }

  function MovedSession(x: Session, places: nat): (y: Session)
  {
    x.(cursor := x.cursor + places, foreign := x.foreign + Places(x.cursor, places))
  }

  // ----- fan-out -----

  /** The non-blocking send to one channel. */
  function SendTo(u: Sub, n: nat): (v: Sub)
  {
    if u.open && |u.queue| < SUB_CHAN_SIZE then u.(queue := u.queue + [n]) else u
  }

  function SendToSession(x: Session, n: nat): (y: Session)
  {
    x.(subs := map j | j in x.subs :: SendTo(x.subs[j], n))
  }

  predicate Full(u: Sub)
  {
    u.open && |u.queue| >= SUB_CHAN_SIZE
  }

  predicate SomeFull(s: State)
  {
    exists i | i in s.sessions :: exists j | j in s.sessions[i].subs :: Full(s.sessions[i].subs[j])
  }

  function DoFanOut(s: State, n: nat): (r: State)
  {
    s.(pubs := s.pubs - {n},
       sessions := map i | i in s.sessions :: SendToSession(s.sessions[i], n),
       skipped := s.skipped + if SomeFull(s) then {n} else {})
  }

  // ----- acknowledgements -----

  /** The locked part of handlePubAck: a known packet id leaves the inflight table. */
  function Taken(y: Session, pid: uint16): (z: Session)
  {
    y.(inflight := y.inflight - {pid}, work := if pid in y.inflight then Saving(y.inflight[pid].seqNo) else Done)
  }

  /** The PUBACK of copy x. */
  function AckedSession(y: Session, x: nat): (z: Session)
    requires x < y.read <= |y.flow|
  {
    Taken(y, Pid(y.flow[x])).(flow := y.flow[..x] + y.flow[x + 1..], read := y.read - 1)
  }

  function DoAck(s: State, i: nat, z: Session): (r: State)
  {
    PutSession(s, i, z).(acked := s.acked + if z.work.Saving? then {z.work.k} else {})
  }

  function Step(s: State, a: Action): (r: State)
    requires Enabled(s, a)
  {
    match a
    case Allocate => s.(counter := s.counter + 1, pubs := s.pubs[s.counter + 1 := Allocated])
    case Store(n) => s.(stored := s.stored + {n}, pubs := s.pubs[n := Stored])
    case SaveSeq(n) => s.(pubs := s.pubs[n := SeqSaved])
    case FanOut(n) => DoFanOut(s, n)
    case Connect(i) => PutSession(s, i, NewSession(|s.streams|)).(streams := s.streams + [[]])
    case Disconnect(i) => s.(sessions := s.sessions - {i})
    case Register(i, j) => PutSub(s, i, j, Sub(Registered, [], Empty, [], true, Fanned(s)))
    case Unsubscribe(i, j) => PutSub(s, i, j, SubOf(s, i, j).(open := false))
    case ReadOffset(i, j) => PutSub(s, i, j, SubOf(s, i, j).(phase := OffsetRead(s.offset)))
    case ReadSeq(i, j) =>
      PutSub(s, i, j, SeqReadSub(SubOf(s, i, j), s.counter))
    case Scan(i, j) =>
      var u := SubOf(s, i, j);
      PutSub(s, i, j, Scanned(u, s.stored, s.counter))
        .(skipped := s.skipped + Between(u.phase.from + CATCH_UP_LIMIT, u.base))
    case TakeCatchUp(i, j) =>
      PutSub(s, i, j, TakenSub(SubOf(s, i, j)))
    case GoLive(i, j) => PutSub(s, i, j, SubOf(s, i, j).(phase := Live))
    case Receive(i, j) =>
      PutSub(s, i, j, ReceivedSub(SubOf(s, i, j)))
    case CheckOffset(i, j) =>
      PutSub(s, i, j, CheckedSub(SubOf(s, i, j), s.offset))
    case Number(i, j, place) => PutSession(s, i, NumberedSession(s.sessions[i], j, place))
    case Enter(i, j) =>
      var x, u := s.sessions[i], SubOf(s, i, j);
      PutSession(s, i, x.(subs := x.subs[j := u.(hand := Entered(u.hand.c))],
                          inflight := x.inflight[Pid(u.hand.c) := u.hand.c]))
    case Write(i, j) =>
      var x, u := s.sessions[i], SubOf(s, i, j);
      PutSession(s, i, x.(subs := x.subs[j := u.(hand := Empty)], flow := x.flow + [u.hand.c]))
    case Snapshot(i, pid) =>
      var x := s.sessions[i];
      PutSession(s, i, x.(resend := x.resend + [x.inflight[pid]]))
    case Resend(i) =>
      var x := s.sessions[i];
      PutSession(s, i, x.(flow := x.flow + [x.resend[0]], resend := x.resend[1..]))
    case Read(i) =>
      var x := s.sessions[i];
      var k := x.flow[x.read].seqNo;
      PutSession(s, i, ReadSession(x))
        .(handled := s.handled + {k}, streams := s.streams[x.conn := s.streams[x.conn] + [k]])
    case Ack(i, x) => DoAck(s, i, AckedSession(s.sessions[i], x))
    case SaveOffset(i) =>
      var x := s.sessions[i];
      PutSession(s, i, x.(work := Done)).(offset := x.work.k)
    case OtherTopics(i, places) => PutSession(s, i, MovedSession(s.sessions[i], places))
    case StrayAck(i, place) => DoAck(s, i, Taken(s.sessions[i], IdAt(place)))
  }

  // ----- the conditions on the environment -----

  /** The copy a delivery goroutine holds, once it is numbered. */
  predicate HasCopy(h: Hand)
  {
    h.Numbered? || h.Entered?
  }

  /** The copy is in the inflight table, where the allocator sees its packet id, or the cursor has moved
      fewer than 65535 places since the copy was numbered. */
  predicate Recent(c: Copy, place: nat, inflight: map<uint16, Copy>)
  {
    Pid(c) in inflight || place < c.place + IDS
  }

  /** Every outstanding copy of the session that has left the inflight table, or has not entered it yet,
      was numbered within the last 65535 places of the cursor. */
  predicate WithinCycle(x: Session, place: nat)
  {
    && (forall c | c in x.flow :: Recent(c, place, x.inflight))
    && (forall c | c in x.resend :: Recent(c, place, x.inflight))
    && (forall j | j in x.subs && HasCopy(x.subs[j].hand) :: Recent(x.subs[j].hand.c, place, x.inflight))
  }

  /** Publishes of the topic are serialised, and PUBACKs arrive in delivery order. */
  predicate Orderly(s: State, a: Action)
  {
    match a
    case Allocate => s.pubs == map[]
    case Ack(_, x) => x == 0
    case _ => true
  }

  /** And the packet id cursor does not lap an outstanding copy that the inflight table no longer protects: of
      this topic, or of another one, whose PUBACK would then stand for a message of this topic. */
  predicate Disciplined(s: State, a: Action)
    requires Enabled(s, a)
  {
    && Orderly(s, a)
    && (a.Number? ==> WithinCycle(s.sessions[a.i], a.place))
    && (a.StrayAck? ==> IdAt(a.place) !in s.sessions[a.i].inflight)
  }

  predicate Possible(s: State, actions: seq<Action>)
    decreases |actions|
  {
    actions == [] || (Enabled(s, actions[0]) && Possible(Step(s, actions[0]), actions[1..]))
  }

  function Run(s: State, actions: seq<Action>): (r: State)
    requires Possible(s, actions)
    decreases |actions|
  {
    if actions == [] then s else Run(Step(s, actions[0]), actions[1..])
  }

  predicate DisciplinedRun(s: State, actions: seq<Action>)
    decreases |actions|
  {
    actions == [] ||
    (Enabled(s, actions[0]) && Disciplined(s, actions[0]) && DisciplinedRun(Step(s, actions[0]), actions[1..]))
  }

  lemma {:induction false} DisciplinedIsPossible(s: State, actions: seq<Action>)
    requires DisciplinedRun(s, actions)
    ensures Possible(s, actions)
    decreases |actions|
  {
    if actions != [] {
      DisciplinedIsPossible(Step(s, actions[0]), actions[1..]);
    }
  }
}
