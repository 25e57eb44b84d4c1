/** What QoS 1 delivery guarantees over every run, and which condition each guarantee rests on. */
module AtLeastOnceTheorems {
  import opened PacketIds
  import opened Common
  import opened AtLeastOnce
  import opened AtLeastOnceProof

  lemma {:induction false} RunKeepsInv(s: State, actions: seq<Action>)
    requires Inv(s) && ClientOk(s) && DisciplinedRun(s, actions)
    ensures Possible(s, actions) && Inv(Run(s, actions)) && ClientOk(Run(s, actions))
    ensures Run(s, actions).first == s.first
    decreases |actions|
  {
    DisciplinedIsPossible(s, actions);
    if actions != [] {
      StepKeepsInv(s, actions[0]);
      StepKeepsClient(s, actions[0]);
      RunKeepsInv(Step(s, actions[0]), actions[1..]);
    }
  }

  lemma InitOk(n: nat, first: nat)
    ensures Inv(Init(n, first)) && ClientOk(Init(n, first))
  {
  }

  lemma AckedWasRead(handled: set<nat>, w: World, y: Session)
    requires w.acked <= handled && ReadsHandled(handled, y) && 0 < y.read <= |y.flow|
    ensures AckWorld(w, y).acked <= handled && ReadsHandled(handled, AckSession(y))
  {
  }

  lemma AckKeepsClient(s: State, i: nat)
    requires ClientOk(s) && Enabled(s, Ack(i, 0)) && PidOk(s.sessions[i].flow[0], s.sessions[i].inflight, s.acked)
    ensures ClientOk(Step(s, Ack(i, 0)))
  {
    AckShape(s, i);
    AckedWasRead(s.handled, WorldOf(s), s.sessions[i]);
  }

  lemma FlowPid(s: State, i: nat, x: nat)
    requires Inv(s) && i in s.sessions && x < |s.sessions[i].flow|
    ensures PidOk(s.sessions[i].flow[x], s.sessions[i].inflight, s.acked)
  {
    SessionInInv(s, i);
    assert s.sessions[i].flow[x] in s.sessions[i].flow;
  }

  lemma ReadKeepsClient(s: State, i: nat)
    requires ClientOk(s) && Enabled(s, Read(i))
    ensures ClientOk(Step(s, Read(i)))
  {
    var t := Step(s, Read(i));
    forall n | n in t.sessions
      ensures ReadsHandled(t.handled, t.sessions[n])
    {
      assert ReadsHandled(s.handled, s.sessions[n]);
    }
  }

  lemma ConnectionKeepsClient(s: State, a: Action)
    requires ClientOk(s) && Enabled(s, a) && (a.FanOut? || a.Connect? || a.Disconnect?)
    ensures ClientOk(Step(s, a))
  {
  }

  /** Only the client's own processing lets a PUBACK out. */
  lemma StepKeepsClient(s: State, a: Action)
    requires Inv(s) && ClientOk(s) && Enabled(s, a) && Disciplined(s, a)
    ensures ClientOk(Step(s, a))
  {
    if a.Ack? {
      FlowPid(s, a.i, 0);
      AckKeepsClient(s, a.i);
    } else if a.Read? {
      ReadKeepsClient(s, a.i);
    } else if a.FanOut? || a.Connect? || a.Disconnect? {
      ConnectionKeepsClient(s, a);
    } else if a.StrayAck? {
      StrayAckIsIgnored(s, a.i, a.place);
    } else {
      OtherClient(s, a);
    }
  }

  lemma OtherClient(s: State, a: Action)
    requires ClientOk(s) && Enabled(s, a)
    requires !a.Ack? && !a.Read? && !a.FanOut? && !a.Connect? && !a.Disconnect? && !a.StrayAck?
    ensures ClientOk(Step(s, a))
  {
    var t := Step(s, a);
    forall n | n in t.sessions
      ensures ReadsHandled(t.handled, t.sessions[n])
    {
      assert ReadsHandled(s.handled, s.sessions[n]);
      assert s.sessions[n].flow <= t.sessions[n].flow;
    }
  }

  // ----- the guarantees -----

  /** At-least-once, part one. In every disciplined run, through any number of sessions, disconnects
      and re-subscribes, and although overlap between catch-up and live can move the stored offset
      backwards: every seq between the client's first offset and its stored offset was processed by the
      client and acknowledged, unless it met a full channel or the catch-up limit. */
  lemma NothingUnackedBelowOffset(n: nat, first: nat, actions: seq<Action>)
    requires DisciplinedRun(Init(n, first), actions)
    ensures Possible(Init(n, first), actions)
    ensures var s := Run(Init(n, first), actions);
            && s.acked <= s.handled
            && forall k: nat | first < k <= s.offset :: k in s.acked || k in s.skipped
  {
    InitOk(n, first);
    RunKeepsInv(Init(n, first), actions);
    var s := Run(Init(n, first), actions);
    forall k: nat | first < k <= s.offset ensures k in s.acked || k in s.skipped {
      assert k in s.acked + s.skipped;
    }
  }

  lemma ScanPutsSub(s: State, i: nat, j: nat)
    requires Enabled(s, Scan(i, j))
    ensures HasSub(Step(s, Scan(i, j)), i, j)
    ensures SubOf(Step(s, Scan(i, j)), i, j) == Scanned(SubOf(s, i, j), s.stored, s.counter)
  {
  }

  lemma ScanFindsIff(m: nat, counter: nat, o: nat, k: nat)
    requires m <= counter
    ensures k in FirstFrom(Between(0, m), o + 1, counter, CATCH_UP_LIMIT) <==> o < k <= m && k <= o + CATCH_UP_LIMIT
  {
    var todo := FirstFrom(Between(0, m), o + 1, counter, CATCH_UP_LIMIT);
    ScanIsConsecutive(m, counter, o + 1, CATCH_UP_LIMIT);
    if o < k <= m && k <= o + CATCH_UP_LIMIT {
      assert todo[k - o - 1] == k;
    }
  }

  lemma ScanSends(s: State, i: nat, j: nat, k: nat)
    requires PubOk(s) && Enabled(s, Scan(i, j)) && s.first < k && k in s.stored
    requires Through(s.first, SubOf(s, i, j).phase.from, s.acked + s.skipped)
    ensures var o := SubOf(s, i, j).phase.from;
            && (k in Scanned(SubOf(s, i, j), s.stored, s.counter).todo <==> o < k <= o + CATCH_UP_LIMIT)
            && (k !in s.acked && k !in s.skipped ==> o < k)
  {
    assert k !in s.acked && k !in s.skipped ==> k !in s.acked + s.skipped;
    ScanFindsIff(StoredUpTo(s), s.counter, SubOf(s, i, j).phase.from, k);
  }

  lemma FromIsSettled(s: State, i: nat, j: nat)
    requires Inv(s) && Enabled(s, Scan(i, j))
    ensures Through(s.first, SubOf(s, i, j).phase.from, s.acked + s.skipped)
  {
    SubInInv(s, i, j);
  }

  /** At-least-once, part two. The catch-up of every later subscription sends a stored record exactly when it
      lies above the offset read, as far as the catch-up limit reaches; so a record that met a full channel or
      an earlier catch-up limit is sent again while the offset is below it. Whatever was left unacknowledged
      otherwise always lies above the offset read. */
  lemma UnackedIsSentAgain(n: nat, first: nat, actions: seq<Action>, i: nat, j: nat, k: nat)
    requires DisciplinedRun(Init(n, first), actions) && Possible(Init(n, first), actions)
    requires Enabled(Run(Init(n, first), actions), Scan(i, j))
    requires first < k && k in Run(Init(n, first), actions).stored
    ensures var s := Run(Init(n, first), actions);
            var o := SubOf(s, i, j).phase.from;
            && (k in SubOf(Step(s, Scan(i, j)), i, j).todo <==> o < k <= o + CATCH_UP_LIMIT)
            && (k !in s.acked && k !in s.skipped ==> o < k)
  {
    InitOk(n, first);
    RunKeepsInv(Init(n, first), actions);
    var s := Run(Init(n, first), actions);
    FromIsSettled(s, i, j);
    ScanSends(s, i, j, k);
    ScanPutsSub(s, i, j);
  }

  /** A subscription that is open, live and drained, on a session with nothing outstanding. */
  predicate Settles(s: State, i: nat, j: nat)
  {
    && HasSub(s, i, j) && s.pubs == map[] && s.sessions[i].flow == []
    && SubOf(s, i, j) == Sub(Live, [], Empty, [], true, SubOf(s, i, j).base)
  }

  /** At-least-once, part three. Once some subscription has settled, every record of the topic above the
      client's first offset has been processed and acknowledged. */
  lemma SettledMeansAllAcked(n: nat, first: nat, actions: seq<Action>, i: nat, j: nat)
    requires DisciplinedRun(Init(n, first), actions) && Possible(Init(n, first), actions)
    requires Settles(Run(Init(n, first), actions), i, j)
    ensures var s := Run(Init(n, first), actions);
            && s.acked <= s.handled
            && forall k: nat | first < k <= s.counter :: k in s.stored && (k in s.acked || k in s.skipped)
  {
    InitOk(n, first);
    RunKeepsInv(Init(n, first), actions);
    SettledState(Run(Init(n, first), actions), i, j);
  }

  lemma SettledState(s: State, i: nat, j: nat)
    requires Inv(s) && Settles(s, i, j)
    ensures forall k: nat | s.first < k <= s.counter :: k in s.stored && (k in s.acked || k in s.skipped)
  {
    SubInInv(s, i, j);
    assert Line(SubOf(s, i, j)) == [];
    forall k: nat | s.first < k <= s.counter ensures k in s.acked || k in s.skipped {
      assert k in Covered(WorldOf(s), s.sessions[i]);
    }
  }

  // ----- when the packet id cursor cannot lap -----

  /** Every enabled run whose publishes are serialised and whose PUBACKs come in order. */
  predicate OrderlyRun(s: State, actions: seq<Action>)
    decreases |actions|
  {
    actions == [] ||
    (Enabled(s, actions[0]) && Orderly(s, actions[0]) && OrderlyRun(Step(s, actions[0]), actions[1..]))
  }

  /** Every id is handed out in the first cycle of its connection, and nothing of other topics is answered. */
  predicate FirstCycle(actions: seq<Action>)
  {
    forall n | 0 <= n < |actions| :: !actions[n].StrayAck? && (actions[n].Number? ==> actions[n].place < IDS)
  }

  /** On connections that stay in their first cycle every orderly run is disciplined. */
  lemma {:induction false} FirstCycleIsDisciplined(s: State, actions: seq<Action>)
    requires OrderlyRun(s, actions) && FirstCycle(actions)
    ensures DisciplinedRun(s, actions)
    decreases |actions|
  {
    if actions != [] {
      FirstCycleIsDisciplined(Step(s, actions[0]), actions[1..]);
    }
  }

  /** In its first cycle the cursor moves one place for each message it numbers, whatever is acknowledged in
      between. */
  lemma FirstCycleIsDense(x: Session, place: nat)
    requires IdsOk(x) && x.cursor < IDS && StopsAt(x.cursor, x.inflight.Keys, place)
    ensures place == x.cursor
  {
    if place > x.cursor {
      assert IdAt(x.cursor) in x.inflight.Keys;
      var c := x.inflight[IdAt(x.cursor)];
      assert Clear(x, c) && Pid(c) == IdAt(x.cursor);
      SameIdFullCycle(c.place, x.cursor);
    }
  }

  /** How many packet ids the step takes on connection m: one for a message of this topic, `places` for
      messages of others. */
  function Cost(s: State, a: Action, m: nat): (c: nat)
  {
    match a
    case Number(i, _, _) => if i in s.sessions && s.sessions[i].conn == m then 1 else 0
    case OtherTopics(i, places) => if i in s.sessions && s.sessions[i].conn == m then places else 0
    case _ => 0
  }

  /** How many packet ids a run takes on connection m. */
  function Sent(s: State, actions: seq<Action>, m: nat): (c: nat)
    requires Possible(s, actions)
    decreases |actions|
  {
    if actions == [] then 0 else Cost(s, actions[0], m) + Sent(Step(s, actions[0]), actions[1..], m)
  }

  /** No connection, open or to come, is sent more than one cycle of ids. */
  ghost predicate Affordable(s: State, actions: seq<Action>)
    requires Possible(s, actions)
  {
    && (forall m: nat :: Sent(s, actions, m) <= IDS)
    && (forall i | i in s.sessions :: s.sessions[i].cursor + Sent(s, actions, s.sessions[i].conn) <= IDS)
  }

  /** In the first cycle the PUBACK of another topic's copy is for an id no message of this topic has. */
  lemma StrayIsForeign(s: State, i: nat, place: nat)
    requires Inv(s) && Enabled(s, StrayAck(i, place)) && s.sessions[i].cursor <= IDS
    ensures Disciplined(s, StrayAck(i, place))
  {
    SessionInInv(s, i);
    var x := s.sessions[i];
    if IdAt(place) in x.inflight {
      var c := x.inflight[IdAt(place)];
      assert Clear(x, c) && Pid(c) == IdAt(place);
      SameIdFullCycle(if place < c.place then place else c.place, if place < c.place then c.place else place);
    }
  }

  lemma AffordableNumber(s: State, i: nat, j: nat, place: nat)
    requires Inv(s) && Enabled(s, Number(i, j, place)) && s.sessions[i].cursor < IDS
    ensures place == s.sessions[i].cursor && Disciplined(s, Number(i, j, place))
  {
    SessionInInv(s, i);
    FirstCycleIsDense(s.sessions[i], place);
  }

  /** What a step does to the cursors. */
  lemma CursorStep(s: State, a: Action, n: nat)
    requires Enabled(s, a) && n in Step(s, a).sessions
    requires a.Number? ==> a.place == s.sessions[a.i].cursor
    ensures var x := Step(s, a).sessions[n];
            if a.Connect? && n == a.i then x.cursor == 0
            else n in s.sessions && x.conn == s.sessions[n].conn && x.cursor <= s.sessions[n].cursor + Cost(s, a, x.conn)
  {
  }

  lemma StillAffordable(s: State, actions: seq<Action>)
    requires Possible(s, actions) && Affordable(s, actions) && actions != []
    requires actions[0].Number? ==> actions[0].place == s.sessions[actions[0].i].cursor
    ensures Affordable(Step(s, actions[0]), actions[1..])
  {
    var a, t, rest := actions[0], Step(s, actions[0]), actions[1..];
    forall m: nat ensures Sent(t, rest, m) <= IDS {
      assert Sent(s, actions, m) == Cost(s, a, m) + Sent(t, rest, m);
    }
    forall n | n in t.sessions ensures t.sessions[n].cursor + Sent(t, rest, t.sessions[n].conn) <= IDS {
      CursorStep(s, a, n);
      assert Sent(s, actions, t.sessions[n].conn) == Cost(s, a, t.sessions[n].conn) + Sent(t, rest, t.sessions[n].conn);
    }
  }

  lemma {:induction false} AffordableIsDisciplined(s: State, actions: seq<Action>)
    requires Inv(s) && OrderlyRun(s, actions) && Possible(s, actions) && Affordable(s, actions)
    ensures DisciplinedRun(s, actions)
    decreases |actions|
  {
    if actions != [] {
      var a := actions[0];
      if a.Number? {
        assert Sent(s, actions, s.sessions[a.i].conn) >= 1;
        AffordableNumber(s, a.i, a.j, a.place);
      } else if a.StrayAck? {
        StrayIsForeign(s, a.i, a.place);
      }
      StepKeepsInv(s, a);
      StillAffordable(s, actions);
      AffordableIsDisciplined(Step(s, a), actions[1..]);
    }
  }

  /** Connections that are sent at most 65535 messages, of this topic and of others, need no condition on the
      allocator: every run of them with serialised publishes and PUBACKs in order is disciplined. */
  lemma FewMessagesAreDisciplined(n: nat, first: nat, actions: seq<Action>)
    requires OrderlyRun(Init(n, first), actions) && Possible(Init(n, first), actions)
    requires forall m: nat :: Sent(Init(n, first), actions, m) <= IDS
    ensures DisciplinedRun(Init(n, first), actions)
  {
    InitOk(n, first);
    AffordableIsDisciplined(Init(n, first), actions);
  }

  // ----- when nothing is skipped -----

  /** No channel is full at a fan-out, and at most CATCH_UP_LIMIT records are waiting at a registration. */
  predicate Roomy(s: State, a: Action)
    requires Enabled(s, a)
  {
    match a
    case FanOut(_) => !SomeFull(s)
    case Scan(i, j) => SubOf(s, i, j).base <= SubOf(s, i, j).phase.from + CATCH_UP_LIMIT
    case _ => true
  }

  predicate RoomyRun(s: State, actions: seq<Action>)
    requires Possible(s, actions)
    decreases |actions|
  {
    actions == [] || (Roomy(s, actions[0]) && RoomyRun(Step(s, actions[0]), actions[1..]))
  }

  lemma SkipStep(s: State, a: Action)
    requires Enabled(s, a)
    ensures s.skipped <= Step(s, a).skipped
    ensures s.skipped == {} ==> (Roomy(s, a) <==> Step(s, a).skipped == {})
  {
    if a.Scan? {
      var o, base := SubOf(s, a.i, a.j).phase.from, SubOf(s, a.i, a.j).base;
      if base > o + CATCH_UP_LIMIT { assert base in Between(o + CATCH_UP_LIMIT, base); }
    }
  }

  lemma {:induction false} SkippedGrows(s: State, actions: seq<Action>)
    requires Possible(s, actions)
    ensures s.skipped <= Run(s, actions).skipped
    decreases |actions|
  {
    if actions != [] {
      SkipStep(s, actions[0]);
      SkippedGrows(Step(s, actions[0]), actions[1..]);
    }
  }

  /** The guards of the two lossy branches are exact: a run skips nothing if and only if it is roomy. */
  lemma {:induction false} NothingSkippedIff(s: State, actions: seq<Action>)
    requires Possible(s, actions) && s.skipped == {}
    ensures Run(s, actions).skipped == {} <==> RoomyRun(s, actions)
    decreases |actions|
  {
    if actions != [] {
      var t := Step(s, actions[0]);
      SkipStep(s, actions[0]);
      if Roomy(s, actions[0]) {
        NothingSkippedIff(t, actions[1..]);
      } else {
        SkippedGrows(t, actions[1..]);
      }
    }
  }

  /** At-least-once delivery without exceptions, for roomy runs: everything up to the stored offset is
      processed and acknowledged, and so is the whole topic once some subscription has settled. */
  lemma RoomyRunsLoseNothing(n: nat, first: nat, actions: seq<Action>)
    requires DisciplinedRun(Init(n, first), actions) && Possible(Init(n, first), actions)
    requires RoomyRun(Init(n, first), actions)
    ensures var s := Run(Init(n, first), actions);
            && (forall k: nat | first < k <= s.offset :: k in s.acked && k in s.handled)
            && (forall i, j, k: nat | Settles(s, i, j) && first < k <= s.counter :: k in s.acked && k in s.handled)
  {
    var s := Run(Init(n, first), actions);
    NothingSkippedIff(Init(n, first), actions);
    NothingUnackedBelowOffset(n, first, actions);
    forall i, j, k: nat | Settles(s, i, j) && first < k <= s.counter ensures k in s.acked && k in s.handled {
      SettledMeansAllAcked(n, first, actions, i, j);
    }
  }
}
