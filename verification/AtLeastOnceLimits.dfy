/** Runs of the QoS 1 system: runs that meet every condition of AtLeastOnceTheorems, some of which deliver a
    record twice, and for each condition a run that breaks it and loses a record or leaves a gap. */
module AtLeastOnceLimits {
  import opened Bytes
  import opened PacketIds
  import opened Common
  import opened AtLeastOnce
  import opened AtLeastOnceProof
  import opened AtLeastOnceRuns
  import T = AtLeastOnceTheorems

  // ----- the conditions can be met -----

  function Upto(n: nat): (ks: seq<nat>)
  {
    if n == 0 then [] else Upto(n - 1) + [n]
  }

  /** Everything up to n has been published, delivered and acknowledged over one connection. */
  function Finished(n: nat): (r: Rest)
  {
    Rest(n, Between(0, n), map[], n, Between(0, n), Between(0, n), [Upto(n)], 0, {})
  }

  /** The next record is in the channel. */
  function Waiting(n: nat): (r: Rest)
  {
    Finished(n).(counter := n + 1, stored := Between(0, n + 1))
  }

  lemma NextPublished(mode: Mode, actions: seq<Action>, n: nat, w: Wire) returns (run: seq<Action>)
    requires Leads(mode, Init(0, 0), actions, At(Finished(n), LIVE, w))
    ensures Leads(mode, Init(0, 0), run, At(Waiting(n), LIVE.(queue := [n + 1]), w))
  {
    run := PublishesNext(mode, Init(0, 0), actions, Finished(n), LIVE, w);
    assert Between(0, n) + {n + 1} == Between(0, n + 1) && [] + [n + 1] == [n + 1];
  }

  lemma NextHandled(n: nat)
    ensures Delivered(Waiting(n), n + 1, 0) == Finished(n + 1)
  {
    assert [Upto(n)][0 := Upto(n) + [n + 1]] == [Upto(n + 1)];
    assert Between(0, n) + {n + 1} == Between(0, n + 1);
  }

  /** The next record is published, delivered and acknowledged. */
  lemma OneRound(mode: Mode, actions: seq<Action>, n: nat, resend: seq<Copy>) returns (run: seq<Action>)
    requires Leads(mode, Init(0, 0), actions, At(Finished(n), LIVE, Idle(n, resend, 0)))
    requires mode == Free || mode == Ordered || resend == []
    ensures Leads(mode, Init(0, 0), run, At(Finished(n + 1), LIVE, Idle(n + 1, resend, 0)))
  {
    run := NextPublished(mode, actions, n, Idle(n, resend, 0));
    run := Delivers(mode, Init(0, 0), run, Waiting(n), n + 1, Idle(n, resend, 0));
    NextHandled(n);
  }

  lemma {:induction false} Deliveries(n: nat) returns (run: seq<Action>)
    ensures Leads(Strict, Init(0, 0), run, At(Finished(n), LIVE, Idle(n, [], 0)))
  {
    if n == 0 {
      run := Subscribes(Strict);
      assert Between(0, 0) == {} && Upto(0) == [];
    } else {
      run := Deliveries(n - 1);
      run := OneRound(Strict, run, n - 1, []);
    }
  }

  /** For every n there is a run that meets every condition of the theorems, publishes n records and settles:
      the packet id cursor may go round any number of times. */
  lemma ConditionsCanBeMet(n: nat) returns (run: seq<Action>)
    ensures DisciplinedRun(Init(0, 0), run) && Possible(Init(0, 0), run) && T.RoomyRun(Init(0, 0), run)
    ensures var s := Run(Init(0, 0), run); s.counter == n && T.Settles(s, 0, 0) && s.streams == [Upto(n)]
  {
    run := Deliveries(n);
    AllowedRuns(Strict, Init(0, 0), run);
  }

  // ----- two publishers at once -----

  /** Seq 2 is stored, fanned out, delivered and acknowledged while seq 1 is only allocated; when seq 1 is
      stored and fanned out, the live loop drops it. The subscription has settled, and a stored record above
      the client's first offset was never sent, although nothing was skipped and every PUBACK was in order. */
  lemma ConcurrentPublishersLoseARecord() returns (run: seq<Action>)
    ensures Possible(Init(0, 0), run)
    ensures var s := Run(Init(0, 0), run);
            && T.Settles(s, 0, 0) && 1 in s.stored && 1 <= s.offset
            && 1 !in s.handled && 1 !in s.acked && s.skipped == {}
  {
    var s, r0 := Init(0, 0), Fresh(0, 0, [[]]);
    run := Subscribes(Free);
    run := Allocates(Free, s, run, r0, LIVE, Idle(0, [], 0));
    var r1 := r0.(counter := 1, pubs := map[1 := Allocated]);
    assert r0.pubs[1 := Allocated] == r1.pubs;
    run := Allocates(Free, s, run, r1, LIVE, Idle(0, [], 0));
    var r2 := r1.(counter := 2, pubs := map[1 := Allocated, 2 := Allocated]);
    assert r1.pubs[2 := Allocated] == r2.pubs;
    run := Publishes(Free, s, run, r2, LIVE, Idle(0, [], 0), 2);
    assert [] + [2] == [2];
    var r3 := r2.(stored := {2}, pubs := map[1 := Allocated]);
    assert r2.stored + {2} == {2} && r2.pubs - {2} == r3.pubs;
    run := Delivers(Free, s, run, r3, 2, Idle(0, [], 0));
    run := LateRecord(run, Delivered(r3, 2, 0));
  }

  lemma LateRecord(actions: seq<Action>, r: Rest) returns (run: seq<Action>)
    requires Leads(Free, Init(0, 0), actions, At(r, LIVE, Idle(1, [], 0)))
    requires r.pubs == map[1 := Allocated] && r.offset == 2 && 1 !in r.handled && 1 !in r.acked && r.skipped == {}
    ensures Possible(Init(0, 0), run)
    ensures var s := Run(Init(0, 0), run);
            && T.Settles(s, 0, 0) && 1 in s.stored && 1 <= s.offset
            && 1 !in s.handled && 1 !in s.acked && s.skipped == {}
  {
    var s, w := Init(0, 0), Idle(1, [], 0);
    run := Publishes(Free, s, actions, r, LIVE, w, 1);
    var e := r.(stored := r.stored + {1}, pubs := map[]);
    assert r.pubs - {1} == map[] && [] + [1] == [1] && [1][1..] == [];
    Received(e, LIVE.(queue := [1]), w);
    Then(Free, s, run, At(e, LIVE.(queue := [1]), w), Receive(0, 0), At(e, LIVE.(hand := Got(1)), w));
    run := run + [Receive(0, 0)];
    Checked(e, LIVE.(hand := Got(1)), w);
    Then(Free, s, run, At(e, LIVE.(hand := Got(1)), w), CheckOffset(0, 0), At(e, LIVE, w));
    run := run + [CheckOffset(0, 0)];
  }

  // ----- the packet id cursor laps a copy -----

  /** The first record is delivered; before its PUBACK the retransmit loop has collected it. */
  lemma FirstRound() returns (run: seq<Action>)
    ensures Leads(Ordered, Init(0, 0), run, At(Finished(1), LIVE, Idle(1, [Copy(0, 1)], 0)))
  {
    var s, c := Init(0, 0), Copy(0, 1);
    run := Subscribes(Ordered);
    assert Between(0, 0) == {} && Upto(0) == [];
    run := NextPublished(Ordered, run, 0, Idle(0, [], 0));
    run := Takes(Ordered, s, run, Waiting(0), 1, Idle(0, [], 0));
    var u, w := LIVE.(hand := Entered(c)), Idle(1, [], 0).(inflight := map[Pid(c) := c]);
    Writes(Waiting(0), u, w);
    assert w.flow + [c] == [c];
    Then(Ordered, s, run, At(Waiting(0), u, w), Write(0, 0), At(Waiting(0), LIVE, w.(flow := [c])));
    run := run + [Write(0, 0)];
    var w1 := w.(flow := [c], resend := [c]);
    PutsSession(Waiting(0), Sess(LIVE, w.(flow := [c])), Sess(LIVE, w1));
    assert w.resend + [c] == [c];
    Then(Ordered, s, run, At(Waiting(0), LIVE, w.(flow := [c])), Snapshot(0, Pid(c)), At(Waiting(0), LIVE, w1));
    run := run + [Snapshot(0, Pid(c))];
    run := Answers(Ordered, s, run, Waiting(0), LIVE, w1, c, c);
    NextHandled(0);
  }

  /** Any number of further records is delivered and acknowledged while that copy stays collected. */
  lemma {:induction false} Rounds(n: nat) returns (run: seq<Action>)
    requires n >= 1
    ensures Leads(Ordered, Init(0, 0), run, At(Finished(n), LIVE, Idle(n, [Copy(0, 1)], 0)))
  {
    if n == 1 {
      run := FirstRound();
    } else {
      run := Rounds(n - 1);
      run := OneRound(Ordered, run, n - 1, [Copy(0, 1)]);
    }
  }

  /** The collected copy of record 1 is written under the packet id that record k is inflight under, and the
      client's PUBACK for it is taken for k. */
  lemma StaleCopyAnswersFor(actions: seq<Action>, r: Rest, c: Copy, d: Copy) returns (run: seq<Action>)
    requires Pid(c) == Pid(d) && |r.streams| > 0
    requires Leads(Ordered, Init(0, 0), actions,
                   At(r, LIVE.(hand := Entered(d)), Wire(map[Pid(d) := d], d.place + 1, [], 0, [c], Done, 0)))
    ensures Leads(Ordered, Init(0, 0), run, Alone(Handles(r, c.seqNo, 0).(acked := r.acked + {d.seqNo}, offset := d.seqNo)))
  {
    var s, u := Init(0, 0), LIVE.(hand := Entered(d));
    var w, w1 := Wire(map[Pid(d) := d], d.place + 1, [], 0, [c], Done, 0), Wire(map[Pid(d) := d], d.place + 1, [c], 0, [], Done, 0);
    PutsSession(r, Sess(u, w), Sess(u, w1));
    assert w.flow + [w.resend[0]] == [c] && w.resend[1..] == [];
    Then(Ordered, s, actions, At(r, u, w), Resend(0), At(r, u, w1));
    run := actions + [Resend(0)];
    run := Answers(Ordered, s, run, r, u, w1, c, d);
    var e := Handles(r, c.seqNo, 0).(acked := r.acked + {d.seqNo}, offset := d.seqNo);
    Leaves(e, u, Idle(d.place + 1, [], 0));
    Then(Ordered, s, run, At(e, u, Idle(d.place + 1, [], 0)), Disconnect(0), Alone(e));
    run := run + [Disconnect(0)];
  }

  /** On the wire, collected for retransmission, or in the hands of a delivery. */
  ghost predicate Outstanding(x: Session, c: Copy)
  {
    c in x.flow || c in x.resend || exists j :: j in x.subs && HasCopy(x.subs[j].hand) && x.subs[j].hand.c == c
  }

  /** Exactly when the allocator hands out an id that an outstanding copy carries: when some outstanding copy
      outside the inflight table stands a whole number of cycles behind. */
  lemma ReusedIff(x: Session, place: nat)
    requires IdsOk(x) && StopsAt(x.cursor, x.inflight.Keys, place)
    ensures (exists c :: Outstanding(x, c) && Pid(c) == IdAt(place)) <==>
            (exists c :: Outstanding(x, c) && Pid(c) !in x.inflight && c.place < place && (place - c.place) % IDS == 0)
  {
    forall c | Outstanding(x, c)
      ensures c.place < place && (Pid(c) == IdAt(place) <==> Pid(c) !in x.inflight && (place - c.place) % IDS == 0)
    {
      assert c.place < x.cursor by { if c in x.flow || c in x.resend { assert Clear(x, c); } }
      SameIdIff(c.place, place);
    }
  }

  /** Why the cursor must not lap a copy: publishes are serialised and PUBACKs come in order, but the
      retransmit loop still holds a copy of record 1 when the cursor comes round to its packet id, and the
      answer to that copy acknowledges record 65536, which was never written to the socket. It is stored,
      below the saved offset, and was never processed. */
  lemma LappedIdLosesARecord() returns (run: seq<Action>)
    ensures T.OrderlyRun(Init(0, 0), run) && Possible(Init(0, 0), run)
    ensures var s := Run(Init(0, 0), run);
            var k := IDS + 1;
            && k in s.stored && k <= s.offset && k in s.acked && k !in s.handled
            && s.skipped == {} && s.sessions == map[]
  {
    var s, c, d := Init(0, 0), Copy(0, 1), Copy(IDS, IDS + 1);
    run := Rounds(IDS);
    run := NextPublished(Ordered, run, IDS, Idle(IDS, [c], 0));
    run := Takes(Ordered, s, run, Waiting(IDS), IDS + 1, Idle(IDS, [c], 0));
    run := StaleCopyAnswersFor(run, Waiting(IDS), c, d);
    AllowedRuns(Ordered, s, run);
  }

  // ----- the same record over two connections -----

  /** A client connects, catches up on the records after its offset, and processes the first of them. */
  lemma ProcessesFirst(actions: seq<Action>, s: State, r: Rest, k: nat) returns (run: seq<Action>, u: Sub, w: Wire)
    requires Leads(Strict, s, actions, Alone(r)) && r.pubs == map[]
    requires k == r.offset + 1 <= r.counter <= r.offset + CATCH_UP_LIMIT && k in r.stored
    ensures Leads(Strict, s, run, At(r.(handled := r.handled + {k}, streams := r.streams + [[k]]), u, w)) && w.work.Done?
  {
    var e, c := r.(streams := r.streams + [[]]), Copy(0, k);
    run, u := StartsCatchUp(Strict, s, actions, r);
    assert Between(r.offset + CATCH_UP_LIMIT, r.counter) == {} && AfterScan(r) == e;
    run := Sends(Strict, s, run, e, u, Idle(0, [], |r.streams|));
    LastGrows(r.streams, k);
    u, w := u.(hand := Empty), Wire(map[][Pid(c) := c], 1, [] + [c], 0, [], Done, |r.streams|);
    run := Processes(Strict, s, run, e, u, w);
    w := w.(read := 1);
  }

  lemma LastGrows(streams: seq<seq<nat>>, k: nat)
    ensures var all := streams + [[]]; all[|streams| := all[|streams|] + [k]] == streams + [[k]]
  {
    assert [] + [k] == [k];
  }

  /** And goes away before its PUBACK has reached the broker. */
  lemma ProcessesAndLeaves(actions: seq<Action>, r: Rest) returns (run: seq<Action>)
    requires Leads(Strict, Init(1, 0), actions, Alone(r))
    requires r.counter == 1 && r.stored == {1} && r.pubs == map[] && r.offset == 0
    ensures Leads(Strict, Init(1, 0), run, Alone(r.(handled := r.handled + {1}, streams := r.streams + [[1]])))
  {
    var u, w;
    run, u, w := ProcessesFirst(actions, Init(1, 0), r, 1);
    var e := r.(handled := r.handled + {1}, streams := r.streams + [[1]]);
    Leaves(e, u, w);
    Then(Strict, Init(1, 0), run, At(e, u, w), Disconnect(0), Alone(e));
    run := run + [Disconnect(0)];
  }

  /** The reconnect: a run that meets every condition of the theorems, in which the client reads the same
      record over two connections. */
  lemma RedeliveredAfterReconnect() returns (run: seq<Action>)
    ensures DisciplinedRun(Init(1, 0), run) && Possible(Init(1, 0), run) && T.RoomyRun(Init(1, 0), run)
    ensures Run(Init(1, 0), run).streams == [[1], [1]] && Run(Init(1, 0), run).handled == {1}
  {
    var r := Fresh(1, 0, []);
    assert Between(0, 1) == {1};
    run := ProcessesAndLeaves([], r);
    var r1 := r.(handled := {1}, streams := [[1]]);
    assert r.streams + [[1]] == [[1]] && r.handled + {1} == {1};
    run := ProcessesAndLeaves(run, r1);
    assert r1.streams + [[1]] == [[1], [1]] && r1.handled + {1} == {1};
    AllowedRuns(Strict, Init(1, 0), run);
  }

  // ----- overlap moves the offset back -----

  /** Two records are published between a registration and its scan, so they are in the catch-up and in the
      channel. */
  lemma Overlaps() returns (run: seq<Action>)
    ensures Leads(Strict, Init(0, 0), run,
                  At(Fresh(2, 0, [[]]), Sub(Sending, [1, 2], Empty, [1, 2], true, 0), Idle(0, [], 0)))
  {
    var s, w := Init(0, 0), Idle(0, [], 0);
    run := Joins(Strict, s, [], Fresh(0, 0, []));
    assert Fresh(0, 0, []).streams + [[]] == [[]] && [] + [1] == [1] && [1] + [2] == [1, 2];
    run := PublishesNext(Strict, s, run, Fresh(0, 0, [[]]), EARLY, w);
    assert Between(0, 0) + {1} == Between(0, 1) && Between(0, 1) + {2} == Between(0, 2);
    run := PublishesNext(Strict, s, run, Fresh(0, 0, [[]]).(counter := 1, stored := Between(0, 1)), EARLY.(queue := [1]), w);
    var r, u := Fresh(2, 0, [[]]), EARLY.(queue := [1, 2]);
    run := ReadsBoth(Strict, s, run, r, u, w);
    Scans(r, u.(phase := SeqRead(0)), w);
    ScanOfTwo();
    Then(Strict, s, run, At(r, u.(phase := SeqRead(0)), w), Scan(0, 0), At(r, u.(phase := Sending, todo := [1, 2]), w));
    run := run + [Scan(0, 0)];
  }

  lemma ScanOfTwo()
    ensures FirstFrom(Between(0, 2), 1, 2, CATCH_UP_LIMIT) == [1, 2] && Between(CATCH_UP_LIMIT, 0) == {}
  {
    ScanIsConsecutive(2, 2, 1, CATCH_UP_LIMIT);
  }

  const A: Copy := Copy(0, 1)
  const B: Copy := Copy(1, 2)
  const C: Copy := Copy(2, 1)

  /** One, two and three copies on the wire, of which the client has processed the first `read`. */
  function One(read: nat): (w: Wire)
  {
    Wire(map[1 := A], 1, [A], read, [], Done, 0)
  }

  function Two(read: nat): (w: Wire)
  {
    Wire(map[1 := A, 2 := B], 2, [A, B], read, [], Done, 0)
  }

  function Three(read: nat): (w: Wire)
  {
    Wire(map[1 := A, 2 := B, 3 := C], 3, [A, B, C], read, [], Done, 0)
  }

  /** Both records are written from the catch-up. */
  lemma SendsTwo() returns (run: seq<Action>)
    ensures Leads(Strict, Init(0, 0), run, At(Fresh(2, 0, [[]]), Sub(Sending, [], Empty, [1, 2], true, 0), Two(0)))
  {
    var s, r, u, w := Init(0, 0), Fresh(2, 0, [[]]), Sub(Sending, [1, 2], Empty, [1, 2], true, 0), Idle(0, [], 0);
    run := Overlaps();
    assert [1, 2][1..] == [2] && [2][1..] == [];
    TakesCatchUp(r, u, w);
    Then(Strict, s, run, At(r, u, w), TakeCatchUp(0, 0), At(r, u.(hand := Passed(1), todo := [2]), w));
    run := run + [TakeCatchUp(0, 0)];
    run := Sends(Strict, s, run, r, u.(hand := Passed(1), todo := [2]), w);
    assert map[][1 := A] == One(0).inflight && [] + [A] == [A];
    run := SendsSecond(run, r, u.(todo := [2]));
  }

  lemma SendsSecond(actions: seq<Action>, r: Rest, u: Sub) returns (run: seq<Action>)
    requires Leads(Strict, Init(0, 0), actions, At(r, u, One(0))) && u == Sub(Sending, [2], Empty, [1, 2], true, 0)
    ensures Leads(Strict, Init(0, 0), run, At(r, u.(todo := []), Two(0)))
  {
    var s := Init(0, 0);
    TakesCatchUp(r, u, One(0));
    assert [2][1..] == [];
    Then(Strict, s, actions, At(r, u, One(0)), TakeCatchUp(0, 0), At(r, u.(hand := Passed(2), todo := []), One(0)));
    run := actions + [TakeCatchUp(0, 0)];
    run := Sends(Strict, s, run, r, u.(hand := Passed(2), todo := []), One(0));
    assert One(0).inflight[2 := B] == Two(0).inflight && [A] + [B] == [A, B];
  }

  /** And the first one again from the channel, before any PUBACK arrives. */
  lemma SendsThree() returns (run: seq<Action>)
    ensures Leads(Strict, Init(0, 0), run, At(Fresh(2, 0, [[]]), LIVE.(queue := [2]), Three(0)))
  {
    var s, r, u := Init(0, 0), Fresh(2, 0, [[]]), Sub(Sending, [], Empty, [1, 2], true, 0);
    run := SendsTwo();
    GoesLive(r, u, Two(0));
    Then(Strict, s, run, At(r, u, Two(0)), GoLive(0, 0), At(r, LIVE.(queue := [1, 2]), Two(0)));
    run := run + [GoLive(0, 0)];
    run := Receives(Strict, s, run, r, LIVE.(queue := [1, 2]), Two(0));
    assert [1, 2][1..] == [2];
    run := Sends(Strict, s, run, r, LIVE.(hand := Passed(1), queue := [2]), Two(0));
    assert Two(0).inflight[3 := C] == Three(0).inflight && [A, B] + [C] == [A, B, C];
  }

  /** The client processes all three. */
  lemma ProcessesThree() returns (run: seq<Action>)
    ensures Leads(Strict, Init(0, 0), run, At(Fresh(2, 0, [[1, 2, 1]]).(handled := {1, 2}), LIVE.(queue := [2]), Three(3)))
  {
    var s, u, r := Init(0, 0), LIVE.(queue := [2]), Fresh(2, 0, [[]]);
    run := SendsThree();
    run := Processes(Strict, s, run, r, u, Three(0));
    var r1 := Fresh(2, 0, [[1]]).(handled := {1});
    assert Handles(r, 1, 0) == r1 by { assert [] + [1] == [1] && [[]][0 := [1]] == [[1]] && {} + {1} == {1}; }
    run := Processes(Strict, s, run, r1, u, Three(1));
    var r2 := Fresh(2, 0, [[1, 2]]).(handled := {1, 2});
    assert Handles(r1, 2, 0) == r2 by { assert [1] + [2] == [1, 2] && [[1]][0 := [1, 2]] == [[1, 2]] && {1} + {2} == {1, 2}; }
    run := Processes(Strict, s, run, r2, u, Three(2));
    assert Handles(r2, 1, 0) == Fresh(2, 0, [[1, 2, 1]]).(handled := {1, 2}) by {
      assert [1, 2] + [1] == [1, 2, 1] && [[1, 2]][0 := [1, 2, 1]] == [[1, 2, 1]] && {1, 2} + {1} == {1, 2};
    }
  }

  lemma ThreeLess()
    ensures Three(3).flow[1..] == [B, C] && Three(3).inflight - {1} == map[2 := B, 3 := C]
    ensures [B, C][1..] == [C] && map[2 := B, 3 := C] - {2} == map[3 := C]
    ensures [C][1..] == [] && map[3 := C] - {3} == map[]
  {
  }

  /** The three PUBACKs arrive in order, and the offset goes 1, 2, 1. */
  lemma AnswersThree() returns (run: seq<Action>)
    ensures Leads(Strict, Init(0, 0), run,
                  Alone(Fresh(2, 0, [[1, 2, 1]]).(offset := 1, acked := {1, 2}, handled := {1, 2})))
  {
    var s, u, r := Init(0, 0), LIVE.(queue := [2]), Fresh(2, 0, [[1, 2, 1]]).(handled := {1, 2});
    run := ProcessesThree();
    ThreeLess();
    run := Settles(Strict, s, run, r, u, Three(3));
    assert {} + {1} == {1};
    run := AnswersTwo(run, r.(offset := 1, acked := {1}), u);
    Leaves(r.(offset := 1, acked := {1, 2}), u, Idle(3, [], 0));
    Then(Strict, s, run, At(r.(offset := 1, acked := {1, 2}), u, Idle(3, [], 0)), Disconnect(0), Alone(r.(offset := 1, acked := {1, 2})));
    run := run + [Disconnect(0)];
  }

  lemma AnswersTwo(actions: seq<Action>, r: Rest, u: Sub) returns (run: seq<Action>)
    requires r.acked == {1}
    requires Leads(Strict, Init(0, 0), actions, At(r, u, Wire(map[2 := B, 3 := C], 3, [B, C], 2, [], Done, 0)))
    ensures Leads(Strict, Init(0, 0), run, At(r.(offset := 1, acked := {1, 2}), u, Idle(3, [], 0)))
  {
    var s := Init(0, 0);
    ThreeLess();
    run := Settles(Strict, s, actions, r, u, Wire(map[2 := B, 3 := C], 3, [B, C], 2, [], Done, 0));
    assert {1} + {2} == {1, 2} && {1, 2} + {1} == {1, 2};
    run := Settles(Strict, s, run, r.(offset := 2, acked := {1, 2}), u, Wire(map[3 := C], 3, [C], 1, [], Done, 0));
  }

  /** Acknowledged is not enough: a run that meets every condition, in which every copy of the first connection
      has been processed and acknowledged before it ends, and record 2 is still carried again by the second. */
  lemma AckedYetRedelivered() returns (run: seq<Action>)
    ensures DisciplinedRun(Init(0, 0), run) && Possible(Init(0, 0), run) && T.RoomyRun(Init(0, 0), run)
    ensures Run(Init(0, 0), run).streams == [[1, 2, 1], [2]] && Run(Init(0, 0), run).acked == {1, 2}
  {
    var u, w := LIVE, Idle(0, [], 0);
    var r := Fresh(2, 0, [[1, 2, 1]]).(offset := 1, acked := {1, 2}, handled := {1, 2});
    run := AnswersThree();
    run, u, w := ProcessesFirst(run, Init(0, 0), r, 2);
    assert r.streams + [[2]] == [[1, 2, 1], [2]];
    AllowedRuns(Strict, Init(0, 0), run);
  }

  // ----- more waits than a catch-up fetches -----

  /** A client that finds one record more than the catch-up limit: the last one is left out, the next publish is
      delivered live and acknowledged, and the offset has passed a stored record that was never sent. */
  lemma CatchUpLimitLosesARecord() returns (run: seq<Action>)
    ensures var n := CATCH_UP_LIMIT + 1;
            && DisciplinedRun(Init(n, 0), run) && Possible(Init(n, 0), run)
            && var s := Run(Init(n, 0), run);
               && T.Settles(s, 0, 0) && n in s.stored && n <= s.offset
               && n !in s.handled && n !in s.acked && s.skipped == {n}
  {
    var n, r := CATCH_UP_LIMIT + 1, Fresh(CATCH_UP_LIMIT + 1, 0, []);
    var s := Init(n, 0);
    run := OpensAndScans(Careful, s, [], r);
    var u := EARLY.(phase := Sending, base := n, todo := FirstFrom(r.stored, 1, n, CATCH_UP_LIMIT));
    ScanIsConsecutive(n, n, 1, CATCH_UP_LIMIT);
    assert Between(CATCH_UP_LIMIT, n) == {n};
    var t, w;
    run, t, w := DeliversTodo(Careful, s, run, AfterScan(r), u, Idle(0, [], 0));
    assert n !in Elems(u.todo);
    run := LiveAfterCatchUp(s, run, t, u.(todo := []), w);
    AllowedRuns(Careful, s, run);
  }

  lemma LiveAfterCatchUp(s: State, actions: seq<Action>, r: Rest, u: Sub, w: Wire) returns (run: seq<Action>)
    requires Leads(Careful, s, actions, At(r, u, w)) && u == EARLY.(phase := Sending, base := u.base)
    requires w == Idle(w.cursor, [], 0) && |r.streams| > 0 && r.pubs == map[] && r.offset <= r.counter
    ensures var n := r.counter + 1;
            var e := Delivered(r.(counter := n, stored := r.stored + {n}), n, 0);
            Leads(Careful, s, run, At(e, u.(phase := Live), Idle(w.cursor + 1, [], 0)))
  {
    var v, n := u.(phase := Live), r.counter + 1;
    GoesLive(r, u, w);
    Then(Careful, s, actions, At(r, u, w), GoLive(0, 0), At(r, v, w));
    run := actions + [GoLive(0, 0)];
    run := PublishesNext(Careful, s, run, r, v, w);
    assert [] + [n] == [n] && [n][1..] == [];
    run := Receives(Careful, s, run, r.(counter := n, stored := r.stored + {n}), v.(queue := [n]), w);
    run := Completes(Careful, s, run, r.(counter := n, stored := r.stored + {n}), v.(hand := Passed(n)), w);
  }

  // ----- acknowledgements out of order -----

  /** Every smaller seq sent before copy x is settled. */
  predicate NoneBefore(first: nat, L: seq<nat>, x: nat, C: set<nat>)
    requires x < |L|
  {
    forall z | 0 <= z < x :: first < L[z] < L[x] ==> L[z] in C
  }

  lemma GapIff(first: nat, L: seq<nat>, x: nat, C: set<nat>)
    requires Chain(first, L, C) && x < |L|
    ensures Through(first, L[x], C + {L[x]}) <==> NoneBefore(first, L, x, C)
  {
    assert forall k: nat | first < k < L[x] :: k in C || k in L[..x];
    if Through(first, L[x], C + {L[x]}) {
      forall z | 0 <= z < x && first < L[z] < L[x] ensures L[z] in C {
        assert L[z] in C + {L[x]};
      }
    }
  }

  /** The broker after the PUBACK of copy x and the offset write that follows. */
  function Acknowledged(s: State, i: nat, x: nat): (t: State)
    requires Enabled(s, Ack(i, x)) && Pid(s.sessions[i].flow[x]) in s.sessions[i].inflight
  {
    Step(Step(s, Ack(i, x)), SaveOffset(i))
  }

  lemma AcknowledgedShape(s: State, i: nat, x: nat)
    requires Enabled(s, Ack(i, x)) && Pid(s.sessions[i].flow[x]) in s.sessions[i].inflight
    requires PidOk(s.sessions[i].flow[x], s.sessions[i].inflight, s.acked)
    ensures var t, k := Acknowledged(s, i, x), s.sessions[i].flow[x].seqNo;
            t.first == s.first && t.offset == k && t.acked == s.acked + {k} && t.skipped == s.skipped
  {
  }

  lemma FlowChain(s: State, i: nat)
    requires Inv(s) && i in s.sessions
    ensures Chain(s.first, Nums(s.sessions[i].flow), s.acked + s.skipped)
  {
    SessionInInv(s, i);
  }

  lemma AckIff(s: State, i: nat, x: nat)
    requires Enabled(s, Ack(i, x)) && Pid(s.sessions[i].flow[x]) in s.sessions[i].inflight
    requires PidOk(s.sessions[i].flow[x], s.sessions[i].inflight, s.acked)
    requires Chain(s.first, Nums(s.sessions[i].flow), s.acked + s.skipped)
    ensures var t, L := Acknowledged(s, i, x), Nums(s.sessions[i].flow);
            t.offset == L[x] && (OffsetOk(t) <==> NoneBefore(s.first, L, x, s.acked + s.skipped))
  {
    var t, L := Acknowledged(s, i, x), Nums(s.sessions[i].flow);
    AcknowledgedShape(s, i, x);
    GapIff(s.first, L, x, s.acked + s.skipped);
    assert t.acked + t.skipped == s.acked + s.skipped + {L[x]};
  }

  /** Exactly when a PUBACK out of order leaves a gap. In every state that satisfies the invariant, so in every
      state a disciplined run reaches, acknowledging copy x of a session leaves everything up to the saved
      offset settled if and only if every smaller seq sent before it is settled already. */
  lemma OutOfOrderAckIff(s: State, i: nat, x: nat)
    requires Inv(s) && Enabled(s, Ack(i, x)) && Pid(s.sessions[i].flow[x]) in s.sessions[i].inflight
    ensures var t, L := Acknowledged(s, i, x), Nums(s.sessions[i].flow);
            t.offset == L[x] && (OffsetOk(t) <==> NoneBefore(s.first, L, x, s.acked + s.skipped))
  {
    T.FlowPid(s, i, x);
    FlowChain(s, i);
    AckIff(s, i, x);
  }

  /** The next record is published and written to the socket. */
  lemma PublishesAndSends(actions: seq<Action>, r: Rest, w: Wire) returns (run: seq<Action>)
    requires Leads(Free, Init(0, 0), actions, At(r, LIVE, w))
    requires r.pubs == map[] && r.offset <= r.counter && IdAt(w.cursor) !in w.inflight
    ensures var n := r.counter + 1;
            var c := Copy(w.cursor, n);
            Leads(Free, Init(0, 0), run,
                  At(r.(counter := n, stored := r.stored + {n}), LIVE,
                     w.(cursor := w.cursor + 1, inflight := w.inflight[Pid(c) := c], flow := w.flow + [c])))
  {
    var s, n := Init(0, 0), r.counter + 1;
    var e := r.(counter := n, stored := r.stored + {n});
    run := PublishesNext(Free, s, actions, r, LIVE, w);
    assert [] + [n] == [n] && [n][1..] == [];
    run := Receives(Free, s, run, e, LIVE.(queue := [n]), w);
    run := Sends(Free, s, run, e, LIVE.(hand := Passed(n)), w);
  }

  /** A run with such a gap: two records are sent and processed, the PUBACK of the second arrives and the
      connection ends before that of the first. Record 1 is unacknowledged and below every later catch-up. */
  lemma OutOfOrderAckLeavesAGap() returns (run: seq<Action>)
    ensures Possible(Init(0, 0), run)
    ensures var s := Run(Init(0, 0), run);
            1 in s.stored && 1 <= s.offset && 1 !in s.acked && s.skipped == {} && s.sessions == map[]
  {
    var c, d, r := Copy(0, 1), Copy(1, 2), Fresh(0, 0, [[]]).(counter := 2, stored := {1, 2});
    run := Subscribes(Free);
    run := PublishesAndSends(run, Fresh(0, 0, [[]]), Idle(0, [], 0));
    var w := Wire(map[Pid(c) := c], 1, [c], 0, [], Done, 0);
    assert map[][Pid(c) := c] == w.inflight && [] + [c] == [c] && {} + {1} == {1};
    run := PublishesAndSends(run, r.(counter := 1, stored := {1}), w);
    var w1 := Wire(map[Pid(c) := c, Pid(d) := d], 2, [c, d], 0, [], Done, 0);
    assert w.inflight[Pid(d) := d] == w1.inflight && [c] + [d] == [c, d] && {1} + {2} == {1, 2};
    run := SecondAnswered(run, r, w1, c, d);
  }

  lemma SecondAnswered(actions: seq<Action>, r: Rest, w: Wire, c: Copy, d: Copy) returns (run: seq<Action>)
    requires Leads(Free, Init(0, 0), actions, At(r, LIVE, w)) && |r.streams| > 0 && r.skipped == {}
    requires Pid(c) != Pid(d) && w == Wire(map[Pid(c) := c, Pid(d) := d], w.cursor, [c, d], 0, [], Done, 0)
    ensures Possible(Init(0, 0), run)
    ensures var s := Run(Init(0, 0), run);
            s.stored == r.stored && s.offset == d.seqNo && s.acked == r.acked + {d.seqNo} && s.skipped == {} && s.sessions == map[]
  {
    var s, r1 := Init(0, 0), Handles(r, c.seqNo, 0);
    run := Processes(Free, s, actions, r, LIVE, w);
    var r2 := Handles(r1, d.seqNo, 0);
    run := Processes(Free, s, run, r1, LIVE, w.(read := 1));
    var r3, w1 := r2.(acked := r2.acked + {d.seqNo}), w.(flow := [c], read := 1, inflight := w.inflight - {Pid(d)}, work := Saving(d.seqNo));
    AcksSecond(r2, LIVE, w.(read := 2), c, d);
    Then(Free, s, run, At(r2, LIVE, w.(read := 2)), Ack(0, 1), At(r3, LIVE, w1));
    run := run + [Ack(0, 1)];
    var r4 := r3.(offset := d.seqNo);
    Saves(r3, LIVE, w1);
    Then(Free, s, run, At(r3, LIVE, w1), SaveOffset(0), At(r4, LIVE, w1.(work := Done)));
    run := run + [SaveOffset(0)];
    Leaves(r4, LIVE, w1.(work := Done));
    Then(Free, s, run, At(r4, LIVE, w1.(work := Done)), Disconnect(0), Alone(r4));
    run := run + [Disconnect(0)];
  }

  // ----- a copy of another topic -----

  /** Messages of other topics take the next places of the connection. */
  lemma OthersSent(s: State, actions: seq<Action>, x: Session, r: Rest, places: nat) returns (run: seq<Action>)
    requires Leads(Ordered, s, actions, Up(r, x))
    ensures Leads(Ordered, s, run,
                  Up(r, x.(cursor := x.cursor + places, foreign := x.foreign + Places(x.cursor, places))))
  {
    var y := x.(cursor := x.cursor + places, foreign := x.foreign + Places(x.cursor, places));
    PutsSession(r, x, y);
    run := actions + [OtherTopics(0, places)];
    Then(Ordered, s, actions, Up(r, x), OtherTopics(0, places), Up(r, y));
  }

  /** The first id of the connection goes to a message of another topic. When the cursor comes round to it, record 1
      is entered under it, and the PUBACK of that other message is taken for record 1, which was never written. */
  lemma ForeignAckLosesARecord() returns (run: seq<Action>)
    ensures T.OrderlyRun(Init(0, 0), run) && Possible(Init(0, 0), run)
    ensures var s := Run(Init(0, 0), run);
            1 in s.stored && 1 <= s.offset && 1 in s.acked && 1 !in s.handled && s.skipped == {} && s.sessions == map[]
  {
    var s, r := Init(0, 0), Fresh(0, 0, [[]]);
    run := Subscribes(Ordered);
    var x := Sess(LIVE, Idle(0, [], 0));
    run := OthersSent(s, run, x, r, IDS);
    x := x.(cursor := IDS, foreign := {} + Places(0, IDS));
    run := RecordEntered(s, run, x, r);
    var c, e := Copy(IDS, 1), r.(counter := 1, stored := {1});
    var x1 := x.(subs := map[0 := LIVE.(hand := Entered(c))], inflight := map[1 := c], cursor := IDS + 1);
    run := ForeignAnswered(s, run, x1, e, c);
    AllowedRuns(Ordered, s, run);
  }

  lemma RecordNumbered(s: State, actions: seq<Action>, x: Session, r: Rest) returns (run: seq<Action>)
    requires Leads(Ordered, s, actions, Up(r, x)) && r == Fresh(0, 0, [[]])
    requires x == Session(map[0 := LIVE], map[], IDS, [], 0, [], Done, 0, x.foreign)
    ensures Leads(Ordered, s, run,
                  Up(r.(counter := 1, stored := {1}), x.(subs := map[0 := LIVE.(hand := Numbered(Copy(IDS, 1)))], cursor := IDS + 1)))
  {
    var c, e := Copy(IDS, 1), r.(counter := 1, stored := {1});
    run := RecordReceived(s, actions, x, r);
    var u := LIVE.(hand := Passed(1));
    var x1 := x.(subs := map[0 := u]);
    var x2 := x.(subs := map[0 := u.(hand := Numbered(c))], cursor := IDS + 1);
    assert map[0 := u][0 := u.(hand := Numbered(c))] == x2.subs;
    PutsSession(e, x1, x2);
    Then(Ordered, s, run, Up(e, x1), Number(0, 0, IDS), Up(e, x2));
    run := run + [Number(0, 0, IDS)];
  }

  lemma RecordEntered(s: State, actions: seq<Action>, x: Session, r: Rest) returns (run: seq<Action>)
    requires Leads(Ordered, s, actions, Up(r, x)) && r == Fresh(0, 0, [[]])
    requires x == Session(map[0 := LIVE], map[], IDS, [], 0, [], Done, 0, x.foreign)
    ensures var c := Copy(IDS, 1);
            Leads(Ordered, s, run,
                  Up(r.(counter := 1, stored := {1}),
                     x.(subs := map[0 := LIVE.(hand := Entered(c))], inflight := map[1 := c], cursor := IDS + 1)))
  {
    var c, e := Copy(IDS, 1), r.(counter := 1, stored := {1});
    run := RecordNumbered(s, actions, x, r);
    var x2 := x.(subs := map[0 := LIVE.(hand := Numbered(c))], cursor := IDS + 1);
    var x3 := x2.(subs := map[0 := LIVE.(hand := Entered(c))], inflight := map[1 := c]);
    assert x2.subs[0 := LIVE.(hand := Entered(c))] == x3.subs && x2.inflight[1 := c] == x3.inflight;
    PutsSession(e, x2, x3);
    Then(Ordered, s, run, Up(e, x2), Enter(0, 0), Up(e, x3));
    run := run + [Enter(0, 0)];
  }

  lemma RecordReceived(s: State, actions: seq<Action>, x: Session, r: Rest) returns (run: seq<Action>)
    requires Leads(Ordered, s, actions, Up(r, x)) && r == Fresh(0, 0, [[]])
    requires x == Session(map[0 := LIVE], map[], IDS, [], 0, [], Done, 0, x.foreign)
    ensures Leads(Ordered, s, run, Up(r.(counter := 1, stored := {1}), x.(subs := map[0 := LIVE.(hand := Passed(1))])))
  {
    var r1 := r.(counter := 1, pubs := map[1 := Allocated]);
    var r2 := r1.(stored := {1}, pubs := map[1 := Stored]);
    var r3 := r1.(stored := {1}, pubs := map[1 := SeqSaved]);
    var e := r.(counter := 1, stored := {1});
    assert r.pubs[1 := Allocated] == r1.pubs && r1.pubs[1 := Stored] == r2.pubs && r2.pubs[1 := SeqSaved] == r3.pubs;
    assert r1.stored + {1} == {1} && r3.pubs - {1} == map[];
    Then(Ordered, s, actions, Up(r, x), Allocate, Up(r1, x));
    run := actions + [Allocate];
    Then(Ordered, s, run, Up(r1, x), Store(1), Up(r2, x));
    run := run + [Store(1)];
    Then(Ordered, s, run, Up(r2, x), SaveSeq(1), Up(r3, x));
    run := run + [SaveSeq(1)];
    var x1 := x.(subs := map[0 := LIVE.(queue := [1])]);
    FansOutTo(r3, x, x1);
    Then(Ordered, s, run, Up(r3, x), FanOut(1), Up(e, x1));
    run := run + [FanOut(1)];
    run := Got1(s, run, x1, e);
  }

  lemma FansOutTo(r: Rest, x: Session, x1: Session)
    requires r.pubs == map[1 := SeqSaved] && x.subs == map[0 := LIVE] && x1 == x.(subs := map[0 := LIVE.(queue := [1])])
    ensures Enabled(Up(r, x), FanOut(1)) && Step(Up(r, x), FanOut(1)) == Up(r.(pubs := map[]), x1)
  {
    assert SendTo(LIVE, 1) == LIVE.(queue := [1]);
    assert SendToSession(x, 1).subs == x1.subs;
    assert Step(Up(r, x), FanOut(1)).sessions == map[0 := x1] && r.pubs - {1} == map[];
    assert !SomeFull(Up(r, x));
  }

  lemma Got1(s: State, actions: seq<Action>, x: Session, e: Rest) returns (run: seq<Action>)
    requires Leads(Ordered, s, actions, Up(e, x)) && x.subs == map[0 := LIVE.(queue := [1])] && e.offset == 0
    ensures Leads(Ordered, s, run, Up(e, x.(subs := map[0 := LIVE.(hand := Passed(1))])))
  {
    var x1, x2 := x.(subs := map[0 := LIVE.(hand := Got(1))]), x.(subs := map[0 := LIVE.(hand := Passed(1))]);
    assert [1][1..] == [] && x.subs[0 := LIVE.(hand := Got(1))] == x1.subs && x1.subs[0 := LIVE.(hand := Passed(1))] == x2.subs;
    PutsSession(e, x, x1);
    Then(Ordered, s, actions, Up(e, x), Receive(0, 0), Up(e, x1));
    PutsSession(e, x1, x2);
    Then(Ordered, s, actions + [Receive(0, 0)], Up(e, x1), CheckOffset(0, 0), Up(e, x2));
    run := actions + [Receive(0, 0)] + [CheckOffset(0, 0)];
  }

  lemma ForeignSaves(s: State, actions: seq<Action>, x: Session, e: Rest, c: Copy) returns (run: seq<Action>)
    requires Leads(Ordered, s, actions, Up(e, x)) && x.work.Done? && 0 in x.foreign
    requires x.inflight == map[1 := c]
    ensures Leads(Ordered, s, run, Up(e.(acked := e.acked + {c.seqNo}), x.(inflight := map[], work := Saving(c.seqNo))))
  {
    var x1 := x.(inflight := map[], work := Saving(c.seqNo));
    assert map[1 := c] - {1} == map[];
    PutsSession(e, x, x1);
    Then(Ordered, s, actions, Up(e, x), StrayAck(0, 0), Up(e.(acked := e.acked + {c.seqNo}), x1));
    run := actions + [StrayAck(0, 0)];
  }

  lemma ForeignAnswered(s: State, actions: seq<Action>, x: Session, e: Rest, c: Copy) returns (run: seq<Action>)
    requires Leads(Ordered, s, actions, Up(e, x)) && x.work.Done? && 0 in x.foreign
    requires x.inflight == map[1 := c]
    ensures Leads(Ordered, s, run, Alone(e.(acked := e.acked + {c.seqNo}, offset := c.seqNo)))
  {
    run := ForeignSaves(s, actions, x, e, c);
    var x1, e1 := x.(inflight := map[], work := Saving(c.seqNo)), e.(acked := e.acked + {c.seqNo});
    var x2, e2 := x1.(work := Done), e1.(offset := c.seqNo);
    PutsSession(e1, x1, x2);
    Then(Ordered, s, run, Up(e1, x1), SaveOffset(0), Up(e2, x2));
    run := run + [SaveOffset(0)];
    assert map[0 := x2] - {0} == map[];
    Then(Ordered, s, run, Up(e2, x2), Disconnect(0), Alone(e2));
    run := run + [Disconnect(0)];
  }
}
