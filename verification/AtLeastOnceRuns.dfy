/** A kit for building runs of the QoS 1 system by hand: a topic with at most one session on it, single steps,
    and the stretches of a run that come up again and again. */
module AtLeastOnceRuns {
  import opened Bytes
  import opened PacketIds
  import opened Common
  import opened AtLeastOnce
  import opened AtLeastOnceProof
  import T = AtLeastOnceTheorems

  /** What a topic with at most one session has besides that session. */
  datatype Rest = Rest(
    counter: nat, stored: set<nat>, pubs: map<nat, Progress>, offset: nat,
    acked: set<nat>, handled: set<nat>, streams: seq<seq<nat>>, first: nat, skipped: set<nat>)

  /** A topic with seqs 1..n whose client is at `first`, before anything has happened. */
  function Fresh(n: nat, first: nat, streams: seq<seq<nat>>): (r: Rest)
  {
    Rest(n, Between(0, n), map[], first, {}, {}, streams, first, {})
  }

  /** What a session with one subscription has besides that subscription. */
  datatype Wire = Wire(
    inflight: map<uint16, Copy>, cursor: nat, flow: seq<Copy>, read: nat, resend: seq<Copy>, work: AckWork, conn: nat)

  function Alone(r: Rest): (s: State)
  {
    State(r.first, r.counter, r.stored, r.pubs, r.offset, map[], r.acked, r.handled, r.skipped, r.streams)
  }

  function Sess(u: Sub, w: Wire): (x: Session)
  {
    Session(map[0 := u], w.inflight, w.cursor, w.flow, w.read, w.resend, w.work, w.conn, {})
  }

  function Up(r: Rest, x: Session): (s: State)
  {
    Alone(r).(sessions := map[0 := x])
  }

  function At(r: Rest, u: Sub, w: Wire): (s: State)
  {
    Up(r, Sess(u, w))
  }

  function Idle(cursor: nat, resend: seq<Copy>, conn: nat): (w: Wire)
  {
    Wire(map[], cursor, [], 0, resend, Done, conn)
  }

  const EARLY: Sub := Sub(Registered, [], Empty, [], true, 0)
  const LIVE: Sub := Sub(Live, [], Empty, [], true, 0)

  /** What the steps of a run have to respect: nothing, the order of publishes and PUBACKs, that and the packet
      id condition, or every condition of the at-least-once theorems. */
  datatype Mode = Free | Ordered | Careful | Strict

  predicate Allowed(mode: Mode, s: State, a: Action)
    requires Enabled(s, a)
  {
    match mode
    case Free => true
    case Ordered => Orderly(s, a)
    case Careful => Disciplined(s, a)
    case Strict => Disciplined(s, a) && T.Roomy(s, a)
  }

  predicate AllAllowed(mode: Mode, s: State, actions: seq<Action>)
    requires Possible(s, actions)
    decreases |actions|
  {
    actions == [] || (Allowed(mode, s, actions[0]) && AllAllowed(mode, Step(s, actions[0]), actions[1..]))
  }

  lemma {:induction false} AllowedRuns(mode: Mode, s: State, actions: seq<Action>)
    requires Possible(s, actions) && AllAllowed(mode, s, actions)
    ensures mode == Ordered ==> T.OrderlyRun(s, actions)
    ensures mode == Careful ==> DisciplinedRun(s, actions)
    ensures mode == Strict ==> DisciplinedRun(s, actions) && T.RoomyRun(s, actions)
    decreases |actions|
  {
    if actions != [] {
      AllowedRuns(mode, Step(s, actions[0]), actions[1..]);
    }
  }

  /** `actions` leads from s to t. */
  predicate Leads(mode: Mode, s: State, actions: seq<Action>, t: State)
  {
    Possible(s, actions) && Run(s, actions) == t && AllAllowed(mode, s, actions)
  }

  lemma {:induction false} Then(mode: Mode, s: State, actions: seq<Action>, t: State, a: Action, end: State)
    requires Leads(mode, s, actions, t) && Enabled(t, a) && Step(t, a) == end && Allowed(mode, t, a)
    ensures Leads(mode, s, actions + [a], end)
    decreases |actions|
  {
    if actions == [] {
      assert [] + [a] == [a] && [a][1..] == [];
    } else {
      Then(mode, Step(s, actions[0]), actions[1..], t, a, end);
      assert (actions + [a])[1..] == actions[1..] + [a];
    }
  }

  lemma PutsSession(r: Rest, x: Session, y: Session)
    ensures PutSession(Up(r, x), 0, y) == Up(r, y)
  {
    assert map[0 := x][0 := y] == map[0 := y];
  }

  lemma PutsSub(r: Rest, u: Sub, w: Wire, v: Sub)
    ensures PutSub(At(r, u, w), 0, 0, v) == At(r, v, w)
  {
    assert map[0 := u][0 := v] == map[0 := v];
    PutsSession(r, Sess(u, w), Sess(v, w));
  }

  // ----- single steps -----

  lemma Received(r: Rest, u: Sub, w: Wire)
    requires u.phase.Live? && u.hand.Empty? && u.queue != []
    ensures Enabled(At(r, u, w), Receive(0, 0))
    ensures Step(At(r, u, w), Receive(0, 0)) == At(r, u.(hand := Got(u.queue[0]), queue := u.queue[1..]), w)
  {
    PutsSub(r, u, w, u.(hand := Got(u.queue[0]), queue := u.queue[1..]));
  }

  lemma Checked(r: Rest, u: Sub, w: Wire)
    requires u.hand.Got?
    ensures Enabled(At(r, u, w), CheckOffset(0, 0))
    ensures Step(At(r, u, w), CheckOffset(0, 0)) == At(r, CheckedSub(u, r.offset), w)
  {
    PutsSub(r, u, w, CheckedSub(u, r.offset));
  }

  lemma Numbers(r: Rest, u: Sub, w: Wire)
    requires u.hand.Passed? && IdAt(w.cursor) !in w.inflight
    ensures Enabled(At(r, u, w), Number(0, 0, w.cursor))
    ensures Step(At(r, u, w), Number(0, 0, w.cursor)) ==
            At(r, u.(hand := Numbered(Copy(w.cursor, u.hand.k))), w.(cursor := w.cursor + 1))
  {
    var v := u.(hand := Numbered(Copy(w.cursor, u.hand.k)));
    assert map[0 := u][0 := v] == map[0 := v];
    PutsSession(r, Sess(u, w), Sess(v, w.(cursor := w.cursor + 1)));
  }

  lemma Enters(r: Rest, u: Sub, w: Wire)
    requires u.hand.Numbered?
    ensures Enabled(At(r, u, w), Enter(0, 0))
    ensures Step(At(r, u, w), Enter(0, 0)) ==
            At(r, u.(hand := Entered(u.hand.c)), w.(inflight := w.inflight[Pid(u.hand.c) := u.hand.c]))
  {
    var v := u.(hand := Entered(u.hand.c));
    assert map[0 := u][0 := v] == map[0 := v];
    PutsSession(r, Sess(u, w), Sess(v, w.(inflight := w.inflight[Pid(u.hand.c) := u.hand.c])));
  }

  lemma Writes(r: Rest, u: Sub, w: Wire)
    requires u.hand.Entered?
    ensures Enabled(At(r, u, w), Write(0, 0))
    ensures Step(At(r, u, w), Write(0, 0)) == At(r, u.(hand := Empty), w.(flow := w.flow + [u.hand.c]))
  {
    var v := u.(hand := Empty);
    assert map[0 := u][0 := v] == map[0 := v];
    PutsSession(r, Sess(u, w), Sess(v, w.(flow := w.flow + [u.hand.c])));
  }

  lemma Reads(r: Rest, u: Sub, w: Wire, c: Copy)
    requires w.read < |w.flow| && w.flow[w.read] == c && w.conn < |r.streams|
    ensures Enabled(At(r, u, w), Read(0))
    ensures Step(At(r, u, w), Read(0)) ==
            At(r.(handled := r.handled + {c.seqNo}, streams := r.streams[w.conn := r.streams[w.conn] + [c.seqNo]]), u,
               w.(read := w.read + 1))
  {
    PutsSession(r, Sess(u, w), Sess(u, w.(read := w.read + 1)));
  }

  lemma Acks(r: Rest, u: Sub, w: Wire)
    requires 0 < w.read <= |w.flow| && w.work.Done? && Pid(w.flow[0]) in w.inflight
    ensures Enabled(At(r, u, w), Ack(0, 0))
    ensures var pid := Pid(w.flow[0]);
            Step(At(r, u, w), Ack(0, 0)) ==
            At(r.(acked := r.acked + {w.inflight[pid].seqNo}), u,
               w.(flow := w.flow[1..], read := w.read - 1, inflight := w.inflight - {pid}, work := Saving(w.inflight[pid].seqNo)))
  {
    assert w.flow[..0] + w.flow[1..] == w.flow[1..];
    PutsSession(r, Sess(u, w), AckedSession(Sess(u, w), 0));
  }

  /** The PUBACK of the second of two outstanding copies comes first. */
  lemma AcksSecond(r: Rest, u: Sub, w: Wire, c: Copy, d: Copy)
    requires w.flow == [c, d] && w.read == 2 && w.work.Done? && Pid(d) in w.inflight && w.inflight[Pid(d)] == d
    ensures Enabled(At(r, u, w), Ack(0, 1))
    ensures Step(At(r, u, w), Ack(0, 1)) ==
            At(r.(acked := r.acked + {d.seqNo}), u,
               w.(flow := [c], read := 1, inflight := w.inflight - {Pid(d)}, work := Saving(d.seqNo)))
  {
    assert w.flow[..1] + w.flow[2..] == [c];
    PutsSession(r, Sess(u, w), AckedSession(Sess(u, w), 1));
  }

  lemma Saves(r: Rest, u: Sub, w: Wire)
    requires w.work.Saving?
    ensures Enabled(At(r, u, w), SaveOffset(0))
    ensures Step(At(r, u, w), SaveOffset(0)) == At(r.(offset := w.work.k), u, w.(work := Done))
  {
    PutsSession(r, Sess(u, w), Sess(u, w.(work := Done)));
  }

  lemma Leaves(r: Rest, u: Sub, w: Wire)
    requires w.work.Done?
    ensures Enabled(At(r, u, w), Disconnect(0)) && Step(At(r, u, w), Disconnect(0)) == Alone(r)
  {
    assert map[0 := Sess(u, w)] - {0} == map[];
  }

  lemma FansOut(r: Rest, u: Sub, w: Wire, n: nat)
    requires n in r.pubs && r.pubs[n] == SeqSaved && u.open && |u.queue| < SUB_CHAN_SIZE
    ensures Enabled(At(r, u, w), FanOut(n))
    ensures Step(At(r, u, w), FanOut(n)) == At(r.(pubs := r.pubs - {n}), u.(queue := u.queue + [n]), w)
    ensures T.Roomy(At(r, u, w), FanOut(n))
  {
    var s, v := At(r, u, w), u.(queue := u.queue + [n]);
    assert SendTo(u, n) == v;
    assert SendToSession(Sess(u, w), n).subs == map[0 := v];
    assert Step(s, FanOut(n)).sessions == map[0 := Sess(v, w)];
    assert !SomeFull(s);
  }

  lemma Scans(r: Rest, u: Sub, w: Wire)
    requires u.phase.SeqRead?
    ensures Enabled(At(r, u, w), Scan(0, 0))
    ensures Step(At(r, u, w), Scan(0, 0)) ==
            At(r.(skipped := r.skipped + Between(u.phase.from + CATCH_UP_LIMIT, u.base)), Scanned(u, r.stored, r.counter), w)
    ensures T.Roomy(At(r, u, w), Scan(0, 0)) <==> u.base <= u.phase.from + CATCH_UP_LIMIT
  {
    PutsSub(r, u, w, Scanned(u, r.stored, r.counter));
  }

  /** The last seq fanned out. */
  function Base(r: Rest): (n: nat)
  {
    if r.pubs != map[] && r.counter > 0 then r.counter - 1 else r.counter
  }

  lemma Connects(r: Rest)
    ensures Enabled(Alone(r), Connect(0))
    ensures Step(Alone(r), Connect(0)) == Up(r.(streams := r.streams + [[]]), NewSession(|r.streams|))
  {
    var x := NewSession(|r.streams|);
    assert map[][0 := x] == map[0 := x];
  }

  lemma Registers(r: Rest, conn: nat)
    ensures Enabled(Up(r, NewSession(conn)), Register(0, 0))
    ensures Step(Up(r, NewSession(conn)), Register(0, 0)) == At(r, EARLY.(base := Base(r)), Idle(0, [], conn))
  {
    var u := EARLY.(base := Base(r));
    assert map[][0 := u] == map[0 := u];
    PutsSession(r, NewSession(conn), Sess(u, Idle(0, [], conn)));
  }

  lemma ReadsOffset(r: Rest, u: Sub, w: Wire)
    requires u.phase.Registered?
    ensures Enabled(At(r, u, w), ReadOffset(0, 0))
    ensures Step(At(r, u, w), ReadOffset(0, 0)) == At(r, u.(phase := OffsetRead(r.offset)), w)
  {
    PutsSub(r, u, w, u.(phase := OffsetRead(r.offset)));
  }

  lemma ReadsSeq(r: Rest, u: Sub, w: Wire, o: nat)
    requires u.phase == OffsetRead(o)
    ensures Enabled(At(r, u, w), ReadSeq(0, 0))
    ensures Step(At(r, u, w), ReadSeq(0, 0)) == At(r, u.(phase := if o < r.counter then SeqRead(o) else Sending), w)
  {
    PutsSub(r, u, w, u.(phase := if o < r.counter then SeqRead(o) else Sending));
  }

  lemma GoesLive(r: Rest, u: Sub, w: Wire)
    requires u.phase.Sending? && u.hand.Empty? && u.todo == []
    ensures Enabled(At(r, u, w), GoLive(0, 0)) && Step(At(r, u, w), GoLive(0, 0)) == At(r, u.(phase := Live), w)
  {
    PutsSub(r, u, w, u.(phase := Live));
  }

  lemma TakesCatchUp(r: Rest, u: Sub, w: Wire)
    requires u.phase.Sending? && u.hand.Empty? && u.todo != []
    ensures Enabled(At(r, u, w), TakeCatchUp(0, 0))
    ensures Step(At(r, u, w), TakeCatchUp(0, 0)) == At(r, u.(hand := Passed(u.todo[0]), todo := u.todo[1..]), w)
  {
    PutsSub(r, u, w, u.(hand := Passed(u.todo[0]), todo := u.todo[1..]));
  }

  // ----- stretches of a run -----

  /** A client connects and registers a channel. */
  lemma Joins(mode: Mode, s: State, actions: seq<Action>, r: Rest) returns (run: seq<Action>)
    requires Leads(mode, s, actions, Alone(r))
    ensures Leads(mode, s, run, At(r.(streams := r.streams + [[]]), EARLY.(base := Base(r)), Idle(0, [], |r.streams|)))
  {
    var e, n := r.(streams := r.streams + [[]]), |r.streams|;
    Connects(r);
    Then(mode, s, actions, Alone(r), Connect(0), Up(e, NewSession(n)));
    run := actions + [Connect(0)];
    Registers(e, n);
    Then(mode, s, run, Up(e, NewSession(n)), Register(0, 0), At(e, EARLY.(base := Base(r)), Idle(0, [], n)));
    run := run + [Register(0, 0)];
  }

  function AfterReads(r: Rest): (phase: Phase)
  {
    if r.offset < r.counter then SeqRead(r.offset) else Sending
  }

  /** And reads its offset and the current seq. */
  lemma Opens(mode: Mode, s: State, actions: seq<Action>, r: Rest) returns (run: seq<Action>)
    requires Leads(mode, s, actions, Alone(r))
    ensures Leads(mode, s, run, At(r.(streams := r.streams + [[]]), EARLY.(phase := AfterReads(r), base := Base(r)), Idle(0, [], |r.streams|)))
  {
    run := Joins(mode, s, actions, r);
    run := ReadsBoth(mode, s, run, r.(streams := r.streams + [[]]), EARLY.(base := Base(r)), Idle(0, [], |r.streams|));
  }

  lemma ReadsBoth(mode: Mode, s: State, actions: seq<Action>, r: Rest, u: Sub, w: Wire) returns (run: seq<Action>)
    requires Leads(mode, s, actions, At(r, u, w)) && u.phase.Registered?
    ensures Leads(mode, s, run, At(r, u.(phase := AfterReads(r)), w))
  {
    var v := u.(phase := OffsetRead(r.offset));
    ReadsOffset(r, u, w);
    Then(mode, s, actions, At(r, u, w), ReadOffset(0, 0), At(r, v, w));
    run := actions + [ReadOffset(0, 0)];
    ReadsSeq(r, v, w, r.offset);
    Then(mode, s, run, At(r, v, w), ReadSeq(0, 0), At(r, u.(phase := AfterReads(r)), w));
    run := run + [ReadSeq(0, 0)];
  }

  lemma Allocates(mode: Mode, s: State, actions: seq<Action>, r: Rest, u: Sub, w: Wire) returns (run: seq<Action>)
    requires Leads(mode, s, actions, At(r, u, w)) && r.counter + 1 !in r.pubs && (mode == Free || r.pubs == map[])
    ensures Leads(mode, s, run, At(r.(counter := r.counter + 1, pubs := r.pubs[r.counter + 1 := Allocated]), u, w))
  {
    run := actions + [Allocate];
    Then(mode, s, actions, At(r, u, w), Allocate,
         At(r.(counter := r.counter + 1, pubs := r.pubs[r.counter + 1 := Allocated]), u, w));
  }

  /** What was allocated as n is stored and fanned out. */
  lemma Publishes(mode: Mode, s: State, actions: seq<Action>, r: Rest, u: Sub, w: Wire, n: nat) returns (run: seq<Action>)
    requires Leads(mode, s, actions, At(r, u, w)) && n in r.pubs && r.pubs[n] == Allocated
    requires u.open && |u.queue| < SUB_CHAN_SIZE
    ensures Leads(mode, s, run, At(r.(stored := r.stored + {n}, pubs := r.pubs - {n}), u.(queue := u.queue + [n]), w))
  {
    var r1 := r.(stored := r.stored + {n}, pubs := r.pubs[n := Stored]);
    var r2 := r1.(pubs := r.pubs[n := SeqSaved]);
    assert r1.pubs[n := SeqSaved] == r2.pubs && r2.pubs - {n} == r.pubs - {n};
    FansOut(r2, u, w, n);
    run := actions + [Store(n)];
    Then(mode, s, actions, At(r, u, w), Store(n), At(r1, u, w));
    Then(mode, s, run, At(r1, u, w), SaveSeq(n), At(r2, u, w));
    run := run + [SaveSeq(n)];
    Then(mode, s, run, At(r2, u, w), FanOut(n), At(r2.(pubs := r.pubs - {n}), u.(queue := u.queue + [n]), w));
    run := run + [FanOut(n)];
  }

  /** A whole publish with nothing else in progress. */
  lemma PublishesNext(mode: Mode, s: State, actions: seq<Action>, r: Rest, u: Sub, w: Wire) returns (run: seq<Action>)
    requires Leads(mode, s, actions, At(r, u, w)) && r.pubs == map[] && u.open && |u.queue| < SUB_CHAN_SIZE
    ensures var n := r.counter + 1;
            Leads(mode, s, run, At(r.(counter := n, stored := r.stored + {n}), u.(queue := u.queue + [n]), w))
  {
    var n := r.counter + 1;
    var r1 := r.(counter := n, pubs := map[n := Allocated]);
    run := Allocates(mode, s, actions, r, u, w);
    assert r.pubs[n := Allocated] == r1.pubs && r1.pubs - {n} == map[];
    run := Publishes(mode, s, run, r1, u, w, n);
  }

  /** The live loop takes the first message from the channel, and the offset test lets it pass. */
  lemma Receives(mode: Mode, s: State, actions: seq<Action>, r: Rest, u: Sub, w: Wire) returns (run: seq<Action>)
    requires Leads(mode, s, actions, At(r, u, w)) && u.phase.Live? && u.hand.Empty? && u.queue != [] && r.offset < u.queue[0]
    ensures Leads(mode, s, run, At(r, u.(hand := Passed(u.queue[0]), queue := u.queue[1..]), w))
  {
    var u1 := u.(hand := Got(u.queue[0]), queue := u.queue[1..]);
    Received(r, u, w);
    Then(mode, s, actions, At(r, u, w), Receive(0, 0), At(r, u1, w));
    run := actions + [Receive(0, 0)];
    Checked(r, u1, w);
    Then(mode, s, run, At(r, u1, w), CheckOffset(0, 0), At(r, u.(hand := Passed(u.queue[0]), queue := u.queue[1..]), w));
    run := run + [CheckOffset(0, 0)];
  }

  /** No outstanding copy can be lapped. */
  predicate CannotLap(mode: Mode, w: Wire)
  {
    mode == Free || mode == Ordered || w.cursor < IDS || (w.flow == [] && w.resend == [])
  }

  /** The live loop takes k from the channel and enters it in the inflight table. */
  lemma Takes(mode: Mode, s: State, actions: seq<Action>, r: Rest, k: nat, w: Wire) returns (run: seq<Action>)
    requires Leads(mode, s, actions, At(r, LIVE.(queue := [k]), w)) && r.offset < k && IdAt(w.cursor) !in w.inflight
    requires CannotLap(mode, w)
    ensures var c := Copy(w.cursor, k);
            Leads(mode, s, run, At(r, LIVE.(hand := Entered(c)), w.(cursor := w.cursor + 1, inflight := w.inflight[Pid(c) := c])))
  {
    run := Receives(mode, s, actions, r, LIVE.(queue := [k]), w);
    assert [k][1..] == [];
    run := NumbersAndEnters(mode, s, run, r, LIVE.(hand := Passed(k)), w);
  }

  lemma NumbersAndEnters(mode: Mode, s: State, actions: seq<Action>, r: Rest, u: Sub, w: Wire) returns (run: seq<Action>)
    requires Leads(mode, s, actions, At(r, u, w)) && u.hand.Passed? && IdAt(w.cursor) !in w.inflight
    requires CannotLap(mode, w)
    ensures var c := Copy(w.cursor, u.hand.k);
            Leads(mode, s, run, At(r, u.(hand := Entered(c)), w.(cursor := w.cursor + 1, inflight := w.inflight[Pid(c) := c])))
  {
    var c := Copy(w.cursor, u.hand.k);
    var v, w1 := u.(hand := Numbered(c)), w.(cursor := w.cursor + 1);
    Numbers(r, u, w);
    Then(mode, s, actions, At(r, u, w), Number(0, 0, w.cursor), At(r, v, w1));
    run := actions + [Number(0, 0, w.cursor)];
    Enters(r, v, w1);
    Then(mode, s, run, At(r, v, w1), Enter(0, 0), At(r, u.(hand := Entered(c)), w1.(inflight := w.inflight[Pid(c) := c])));
    run := run + [Enter(0, 0)];
  }

  /** The message in hand gets a packet id and reaches the socket. */
  lemma Sends(mode: Mode, s: State, actions: seq<Action>, r: Rest, u: Sub, w: Wire) returns (run: seq<Action>)
    requires Leads(mode, s, actions, At(r, u, w)) && u.hand.Passed? && IdAt(w.cursor) !in w.inflight
    requires CannotLap(mode, w)
    ensures var c := Copy(w.cursor, u.hand.k);
            Leads(mode, s, run, At(r, u.(hand := Empty),
                                   w.(cursor := w.cursor + 1, inflight := w.inflight[Pid(c) := c], flow := w.flow + [c])))
  {
    var c := Copy(w.cursor, u.hand.k);
    run := NumbersAndEnters(mode, s, actions, r, u, w);
    var v, w1 := u.(hand := Entered(c)), w.(cursor := w.cursor + 1, inflight := w.inflight[Pid(c) := c]);
    Writes(r, v, w1);
    Then(mode, s, run, At(r, v, w1), Write(0, 0), At(r, u.(hand := Empty), w1.(flow := w.flow + [c])));
    run := run + [Write(0, 0)];
  }

  function Handles(r: Rest, k: nat, conn: nat): (t: Rest)
    requires conn < |r.streams|
  {
    r.(handled := r.handled + {k}, streams := r.streams[conn := r.streams[conn] + [k]])
  }

  /** The client processes the next copy. */
  lemma Processes(mode: Mode, s: State, actions: seq<Action>, r: Rest, u: Sub, w: Wire) returns (run: seq<Action>)
    requires Leads(mode, s, actions, At(r, u, w)) && w.read < |w.flow| && w.conn < |r.streams|
    ensures Leads(mode, s, run, At(Handles(r, w.flow[w.read].seqNo, w.conn), u, w.(read := w.read + 1)))
  {
    Reads(r, u, w, w.flow[w.read]);
    run := actions + [Read(0)];
    Then(mode, s, actions, At(r, u, w), Read(0), At(Handles(r, w.flow[w.read].seqNo, w.conn), u, w.(read := w.read + 1)));
  }

  /** The broker takes the PUBACK of the oldest copy. */
  lemma Settles(mode: Mode, s: State, actions: seq<Action>, r: Rest, u: Sub, w: Wire) returns (run: seq<Action>)
    requires Leads(mode, s, actions, At(r, u, w))
    requires 0 < w.read <= |w.flow| && w.work.Done? && Pid(w.flow[0]) in w.inflight
    ensures var pid := Pid(w.flow[0]);
            var k := w.inflight[pid].seqNo;
            Leads(mode, s, run, At(r.(acked := r.acked + {k}, offset := k), u,
                                   w.(flow := w.flow[1..], read := w.read - 1, inflight := w.inflight - {pid})))
  {
    var pid := Pid(w.flow[0]);
    var k := w.inflight[pid].seqNo;
    var r1, w1 := r.(acked := r.acked + {k}), w.(flow := w.flow[1..], read := w.read - 1, inflight := w.inflight - {pid});
    Acks(r, u, w);
    Then(mode, s, actions, At(r, u, w), Ack(0, 0), At(r1, u, w1.(work := Saving(k))));
    run := actions + [Ack(0, 0)];
    Saves(r1, u, w1.(work := Saving(k)));
    Then(mode, s, run, At(r1, u, w1.(work := Saving(k))), SaveOffset(0), At(r1.(offset := k), u, w1));
    run := run + [SaveOffset(0)];
  }

  /** The client processes and acknowledges the one copy c on the wire; the broker takes its packet id for d. */
  lemma Answers(mode: Mode, s: State, actions: seq<Action>, r: Rest, u: Sub, w: Wire, c: Copy, d: Copy)
    returns (run: seq<Action>)
    requires Leads(mode, s, actions, At(r, u, w)) && w.conn < |r.streams|
    requires w == Wire(map[Pid(c) := d], w.cursor, [c], 0, w.resend, Done, w.conn)
    ensures Leads(mode, s, run,
                  At(Handles(r, c.seqNo, w.conn).(acked := r.acked + {d.seqNo}, offset := d.seqNo), u,
                     Idle(w.cursor, w.resend, w.conn)))
  {
    run := Processes(mode, s, actions, r, u, w);
    run := Settles(mode, s, run, Handles(r, c.seqNo, w.conn), u, w.(read := 1));
    assert map[Pid(c) := d] - {Pid(c)} == map[] && [c][1..] == [];
  }

  /** The topic and its client after record k has been processed and acknowledged on connection conn. */
  function Delivered(r: Rest, k: nat, conn: nat): (t: Rest)
    requires conn < |r.streams|
  {
    Handles(r, k, conn).(acked := r.acked + {k}, offset := k)
  }

  /** The undisturbed rest of a delivery. */
  lemma Completes(mode: Mode, s: State, actions: seq<Action>, r: Rest, u: Sub, w: Wire) returns (run: seq<Action>)
    requires Leads(mode, s, actions, At(r, u, w)) && u.hand.Passed? && w.conn < |r.streams|
    requires w == Idle(w.cursor, w.resend, w.conn) && CannotLap(mode, w)
    ensures Leads(mode, s, run, At(Delivered(r, u.hand.k, w.conn), u.(hand := Empty), Idle(w.cursor + 1, w.resend, w.conn)))
  {
    var c := Copy(w.cursor, u.hand.k);
    run := Sends(mode, s, actions, r, u, w);
    assert map[][Pid(c) := c] == map[Pid(c) := c] && [] + [c] == [c];
    run := Answers(mode, s, run, r, u.(hand := Empty), Wire(map[Pid(c) := c], w.cursor + 1, [c], 0, w.resend, Done, w.conn), c, c);
  }

  /** A client subscribes to an empty topic. */
  lemma Subscribes(mode: Mode) returns (run: seq<Action>)
    ensures Leads(mode, Init(0, 0), run, At(Fresh(0, 0, [[]]), LIVE, Idle(0, [], 0)))
  {
    var s, r, w := Init(0, 0), Fresh(0, 0, [[]]), Idle(0, [], 0);
    assert s == Alone(r.(streams := []));
    run := Opens(mode, s, [], r.(streams := []));
    assert [] + [[]] == r.streams;
    GoesLive(r, EARLY.(phase := Sending), w);
    Then(mode, s, run, At(r, EARLY.(phase := Sending), w), GoLive(0, 0), At(r, LIVE, w));
    run := run + [GoLive(0, 0)];
  }

  /** An undisturbed delivery of the message in the channel. */
  lemma Delivers(mode: Mode, s: State, actions: seq<Action>, r: Rest, k: nat, w: Wire) returns (run: seq<Action>)
    requires Leads(mode, s, actions, At(r, LIVE.(queue := [k]), w)) && r.offset < k && w.conn < |r.streams|
    requires w == Idle(w.cursor, w.resend, w.conn) && CannotLap(mode, w)
    ensures Leads(mode, s, run, At(Delivered(r, k, w.conn), LIVE, Idle(w.cursor + 1, w.resend, w.conn)))
  {
    run := Receives(mode, s, actions, r, LIVE.(queue := [k]), w);
    assert [k][1..] == [];
    run := Completes(mode, s, run, r, LIVE.(hand := Passed(k)), w);
  }

  /** What a subscription finds once it has scanned. */
  function AfterScan(r: Rest): (e: Rest)
  {
    r.(streams := r.streams + [[]], skipped := r.skipped + Between(r.offset + CATCH_UP_LIMIT, Base(r)))
  }

  /** A client connects, subscribes and scans. */
  lemma OpensAndScans(mode: Mode, s: State, actions: seq<Action>, r: Rest) returns (run: seq<Action>)
    requires Leads(mode, s, actions, Alone(r)) && r.offset < r.counter
    requires mode == Strict ==> Base(r) <= r.offset + CATCH_UP_LIMIT
    ensures var u := EARLY.(phase := SeqRead(r.offset), base := Base(r));
            Leads(mode, s, run, At(AfterScan(r), Scanned(u, r.stored, r.counter), Idle(0, [], |r.streams|)))
  {
    var u, w, e := EARLY.(phase := SeqRead(r.offset), base := Base(r)), Idle(0, [], |r.streams|), r.(streams := r.streams + [[]]);
    run := Opens(mode, s, actions, r);
    Scans(e, u, w);
    Then(mode, s, run, At(e, u, w), Scan(0, 0), At(AfterScan(r), Scanned(u, r.stored, r.counter), w));
    run := run + [Scan(0, 0)];
  }

  /** And takes the first record of its catch-up, the next after the stored offset. */
  lemma StartsCatchUp(mode: Mode, s: State, actions: seq<Action>, r: Rest) returns (run: seq<Action>, u: Sub)
    requires Leads(mode, s, actions, Alone(r)) && r.offset < r.counter && r.offset + 1 in r.stored
    requires mode == Strict ==> Base(r) <= r.offset + CATCH_UP_LIMIT
    ensures u.hand == Passed(r.offset + 1) && Leads(mode, s, run, At(AfterScan(r), u, Idle(0, [], |r.streams|)))
  {
    run := OpensAndScans(mode, s, actions, r);
    var w, e := Idle(0, [], |r.streams|), AfterScan(r);
    var v := Scanned(EARLY.(phase := SeqRead(r.offset), base := Base(r)), r.stored, r.counter);
    assert v.todo[0] == r.offset + 1;
    u := v.(hand := Passed(v.todo[0]), todo := v.todo[1..]);
    TakesCatchUp(e, v, w);
    Then(mode, s, run, At(e, v, w), TakeCatchUp(0, 0), At(e, u, w));
    run := run + [TakeCatchUp(0, 0)];
  }

  /** A connection that is sent one record, the next after the stored offset, and then ends. */
  lemma OneRecord(mode: Mode, s: State, actions: seq<Action>, r: Rest) returns (run: seq<Action>)
    requires Leads(mode, s, actions, Alone(r)) && r.offset < r.counter && r.offset + 1 in r.stored
    requires mode == Strict ==> Base(r) <= r.offset + CATCH_UP_LIMIT
    ensures Leads(mode, s, run, Alone(Delivered(AfterScan(r), r.offset + 1, |r.streams|)))
  {
    var u, n := EARLY, |r.streams|;
    run, u := StartsCatchUp(mode, s, actions, r);
    run := Completes(mode, s, run, AfterScan(r), u, Idle(0, [], n));
    var e := Delivered(AfterScan(r), r.offset + 1, n);
    Leaves(e, u.(hand := Empty), Idle(1, [], n));
    Then(mode, s, run, At(e, u.(hand := Empty), Idle(1, [], n)), Disconnect(0), Alone(e));
    run := run + [Disconnect(0)];
  }

  /** What a catch-up leaves behind. */
  predicate CaughtUp(r: Rest, todo: seq<nat>, t: Rest)
  {
    && t == r.(offset := t.offset, acked := t.acked, handled := t.handled, streams := t.streams)
    && t.handled == r.handled + Elems(todo) && t.acked == r.acked + Elems(todo) && |t.streams| == |r.streams|
    && t.offset == if todo == [] then r.offset else todo[|todo| - 1]
  }

  /** The whole catch-up is delivered, one record after the other. */
  lemma {:induction false} DeliversTodo(mode: Mode, s: State, actions: seq<Action>, r: Rest, u: Sub, w: Wire)
    returns (run: seq<Action>, t: Rest, v: Wire)
    requires Leads(mode, s, actions, At(r, u, w)) && u.phase.Sending? && u.hand.Empty? && w.conn < |r.streams|
    requires w == Idle(w.cursor, [], w.conn)
    ensures v == Idle(v.cursor, [], w.conn) && CaughtUp(r, u.todo, t)
    ensures Leads(mode, s, run, At(t, u.(todo := []), v))
    decreases |u.todo|
  {
    if u.todo == [] {
      run, t, v := actions, r, w;
      assert CaughtUp(r, [], r);
    } else {
      var k, u1 := u.todo[0], u.(todo := u.todo[1..]);
      TakesCatchUp(r, u, w);
      Then(mode, s, actions, At(r, u, w), TakeCatchUp(0, 0), At(r, u1.(hand := Passed(k)), w));
      run := actions + [TakeCatchUp(0, 0)];
      run := Completes(mode, s, run, r, u1.(hand := Passed(k)), w);
      run, t, v := DeliversTodo(mode, s, run, Delivered(r, k, w.conn), u1, Idle(w.cursor + 1, [], w.conn));
      CaughtUpMore(r, u.todo, t, w.conn);
    }
  }

  lemma CaughtUpMore(r: Rest, todo: seq<nat>, t: Rest, conn: nat)
    requires todo != [] && conn < |r.streams| && CaughtUp(Delivered(r, todo[0], conn), todo[1..], t)
    ensures CaughtUp(r, todo, t)
  {
    assert todo == [todo[0]] + todo[1..];
    assert Elems(todo) == {todo[0]} + Elems(todo[1..]);
  }
}
