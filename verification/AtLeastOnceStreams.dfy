/** Where the messages on the wire come from, and where they go: in every run, disciplined or not, a client
    reads stored records only, and what it has processed is what its connections have carried. */
module AtLeastOnceStreams {
  import opened Bytes
  import opened Common
  import opened AtLeastOnce
  import P = AtLeastOnceProof

  // ----- everything sent is stored -----

  predicate SubSourced(stored: set<nat>, u: Sub)
  {
    forall k | k in P.Line(u) :: k in stored
  }

  predicate SessionSourced(stored: set<nat>, x: Session)
  {
    && (forall j | j in x.subs :: SubSourced(stored, x.subs[j]))
    && (forall c | c in x.flow :: c.seqNo in stored)
    && (forall c | c in x.resend :: c.seqNo in stored)
    && (forall p | p in x.inflight :: x.inflight[p].seqNo in stored)
    && (x.work.Saving? ==> x.work.k in stored)
  }

  predicate Sourced(s: State)
  {
    && (forall n | n in s.pubs && s.pubs[n] != Allocated :: n in s.stored)
    && (forall i | i in s.sessions :: SessionSourced(s.stored, s.sessions[i]))
    && s.handled <= s.stored
    && (s.offset == s.first || s.offset in s.stored)
  }

  lemma SessionStays(stored: set<nat>, more: set<nat>, x: Session)
    requires SessionSourced(stored, x) && stored <= more
    ensures SessionSourced(more, x)
  {
    forall j | j in x.subs ensures SubSourced(more, x.subs[j]) {
      assert SubSourced(stored, x.subs[j]);
    }
  }

  lemma PublisherSourced(s: State, a: Action)
    requires Sourced(s) && Enabled(s, a) && (a.Allocate? || a.Store? || a.SaveSeq?)
    ensures Sourced(Step(s, a))
  {
    var t := Step(s, a);
    forall i | i in t.sessions ensures SessionSourced(t.stored, t.sessions[i]) {
      SessionStays(s.stored, t.stored, s.sessions[i]);
    }
  }

  lemma SendSourced(stored: set<nat>, x: Session, n: nat)
    requires SessionSourced(stored, x) && n in stored
    ensures SessionSourced(stored, SendToSession(x, n))
  {
    var y := SendToSession(x, n);
    forall j | j in y.subs ensures SubSourced(stored, y.subs[j]) {
      assert SubSourced(stored, x.subs[j]);
      assert P.Line(y.subs[j]) == P.Line(x.subs[j]) || P.Line(y.subs[j]) == P.Line(x.subs[j]) + [n];
    }
  }

  lemma FanOutSourced(s: State, n: nat)
    requires Sourced(s) && Enabled(s, FanOut(n))
    ensures Sourced(Step(s, FanOut(n)))
  {
    var t := Step(s, FanOut(n));
    forall i | i in t.sessions ensures SessionSourced(t.stored, t.sessions[i]) {
      SendSourced(s.stored, s.sessions[i], n);
    }
  }

  lemma {:induction false} ScanSourced(stored: set<nat>, from: nat, top: nat, limit: nat)
    ensures forall k | k in FirstFrom(stored, from, top, limit) :: k in stored
    decreases top + 1 - from
  {
    if limit > 0 && from <= top {
      ScanSourced(stored, from + 1, top, if from in stored then limit - 1 else limit);
    }
  }

  /** The steps of one subscription that leave the rest of its session alone. */
  predicate IsSubStep(a: Action)
  {
    a.Register? || a.Unsubscribe? || a.ReadOffset? || a.ReadSeq? || a.Scan? || a.TakeCatchUp? || a.GoLive? ||
    a.Receive? || a.CheckOffset? || a.Number?
  }

  lemma SubStepLine(s: State, a: Action)
    requires Enabled(s, a) && IsSubStep(a)
    ensures HasSub(Step(s, a), a.i, a.j)
    ensures a.Register? ==> P.Line(SubOf(Step(s, a), a.i, a.j)) == []
    ensures !a.Register? && !a.Scan? ==>
              forall k | k in P.Line(SubOf(Step(s, a), a.i, a.j)) :: k in P.Line(SubOf(s, a.i, a.j))
  {
    if a.TakeCatchUp? {
      var u := SubOf(s, a.i, a.j);
      assert u.todo == [u.todo[0]] + u.todo[1..];
    } else if a.Receive? {
      var u := SubOf(s, a.i, a.j);
      assert u.queue == [u.queue[0]] + u.queue[1..];
    }
  }

  lemma ScanLine(s: State, i: nat, j: nat)
    requires Enabled(s, Scan(i, j)) && SubSourced(s.stored, SubOf(s, i, j))
    ensures SubSourced(s.stored, Scanned(SubOf(s, i, j), s.stored, s.counter))
  {
    var u := SubOf(s, i, j);
    ScanSourced(s.stored, u.phase.from + 1, s.counter, CATCH_UP_LIMIT);
    var v := Scanned(u, s.stored, s.counter);
    forall k | k in P.Line(v) ensures k in s.stored {
      assert k in P.HandLine(u.hand) || k in v.todo || k in u.queue;
      assert k in P.HandLine(u.hand) || k in u.queue ==> k in P.Line(u);
    }
  }

  lemma SubStepShape(s: State, a: Action)
    requires Enabled(s, a) && IsSubStep(a)
    ensures var t, x := Step(s, a), s.sessions[a.i];
            && HasSub(t, a.i, a.j)
            && t.sessions == s.sessions[a.i := t.sessions[a.i]]
            && t.sessions[a.i] == x.(subs := x.subs[a.j := SubOf(t, a.i, a.j)], cursor := t.sessions[a.i].cursor)
            && t.stored == s.stored && t.pubs == s.pubs && t.handled == s.handled && t.offset == s.offset && t.first == s.first
  {
  }

  lemma SubStepSourced(s: State, a: Action)
    requires Sourced(s) && Enabled(s, a) && IsSubStep(a)
    ensures Sourced(Step(s, a))
  {
    SubStepShape(s, a);
    SubStepLine(s, a);
    var t, x := Step(s, a), s.sessions[a.i];
    assert SessionSourced(s.stored, x);
    if a.Scan? {
      ScanLine(s, a.i, a.j);
    }
    assert SubSourced(s.stored, SubOf(t, a.i, a.j));
    assert SessionSourced(t.stored, t.sessions[a.i]);
  }

  lemma HandSourced(s: State, a: Action)
    requires Sourced(s) && Enabled(s, a) && (a.Enter? || a.Write?)
    ensures Sourced(Step(s, a))
  {
    var t, x := Step(s, a), s.sessions[a.i];
    var u := x.subs[a.j];
    HandLineSourced(s.stored, x, a.j);
    assert forall k | k in P.Line(t.sessions[a.i].subs[a.j]) :: k in P.Line(u);
    assert SessionSourced(t.stored, t.sessions[a.i]);
  }

  lemma HandLineSourced(stored: set<nat>, x: Session, j: nat)
    requires SessionSourced(stored, x) && j in x.subs && HasCopy(x.subs[j].hand)
    ensures SubSourced(stored, x.subs[j]) && x.subs[j].hand.c.seqNo in stored
  {
    var u := x.subs[j];
    assert SubSourced(stored, u);
    assert u.hand.c.seqNo in P.Line(u) by { assert P.HandLine(u.hand) == [u.hand.c.seqNo]; }
  }

  lemma RetransmitSourced(s: State, a: Action)
    requires Sourced(s) && Enabled(s, a) && (a.Snapshot? || a.Resend? || a.Read?)
    ensures Sourced(Step(s, a))
  {
    var t, x := Step(s, a), s.sessions[a.i];
    assert SessionSourced(s.stored, x);
    assert SessionSourced(t.stored, t.sessions[a.i]);
  }

  lemma AnswerSourced(s: State, a: Action)
    requires Sourced(s) && Enabled(s, a) && (a.Ack? || a.SaveOffset? || a.OtherTopics? || a.StrayAck?)
    ensures Sourced(Step(s, a))
  {
    var t, x := Step(s, a), s.sessions[a.i];
    assert SessionSourced(s.stored, x);
    assert SessionSourced(t.stored, t.sessions[a.i]);
  }

  lemma StepSourced(s: State, a: Action)
    requires Sourced(s) && Enabled(s, a)
    ensures Sourced(Step(s, a))
  {
    if IsSubStep(a) {
      SubStepSourced(s, a);
    } else if a.FanOut? {
      FanOutSourced(s, a.n);
    } else if a.Allocate? || a.Store? || a.SaveSeq? {
      PublisherSourced(s, a);
    } else if a.Enter? || a.Write? {
      HandSourced(s, a);
    } else if a.Snapshot? || a.Resend? || a.Read? {
      RetransmitSourced(s, a);
    } else if !a.Connect? && !a.Disconnect? {
      AnswerSourced(s, a);
    }
  }

  // ----- what has been processed is what the connections carried -----

  ghost predicate InSome(streams: seq<seq<nat>>, k: nat)
  {
    exists m :: 0 <= m < |streams| && k in streams[m]
  }

  ghost predicate StreamsOk(s: State)
  {
    && (forall i | i in s.sessions :: s.sessions[i].conn < |s.streams|)
    && (forall k: nat :: k in s.handled <==> InSome(s.streams, k))
  }

  lemma ReadStreams(s: State, i: nat)
    requires StreamsOk(s) && Enabled(s, Read(i))
    ensures StreamsOk(Step(s, Read(i)))
  {
    var t, m := Step(s, Read(i)), s.sessions[i].conn;
    var q := s.sessions[i].flow[s.sessions[i].read].seqNo;
    assert t.streams == s.streams[m := s.streams[m] + [q]];
    forall k: nat ensures k in t.handled <==> InSome(t.streams, k) {
      if InSome(s.streams, k) {
        var n :| 0 <= n < |s.streams| && k in s.streams[n];
        assert k in t.streams[n];
      }
      if k == q {
        assert k in t.streams[m];
      }
      if InSome(t.streams, k) && k != q {
        var n :| 0 <= n < |t.streams| && k in t.streams[n];
        assert k in s.streams[n];
      }
    }
  }

  lemma ConnectStreams(s: State, i: nat)
    requires StreamsOk(s) && Enabled(s, Connect(i))
    ensures StreamsOk(Step(s, Connect(i)))
  {
    var t := Step(s, Connect(i));
    forall k: nat ensures InSome(t.streams, k) <==> InSome(s.streams, k) {
      if InSome(s.streams, k) {
        var n :| 0 <= n < |s.streams| && k in s.streams[n];
        assert k in t.streams[n];
      }
    }
  }

  lemma OtherStreams(s: State, a: Action)
    requires StreamsOk(s) && Enabled(s, a) && !a.Read? && !a.Connect?
    ensures StreamsOk(Step(s, a))
  {
    assert Step(s, a).streams == s.streams && Step(s, a).handled == s.handled;
  }

  lemma StepStreams(s: State, a: Action)
    requires StreamsOk(s) && Enabled(s, a)
    ensures StreamsOk(Step(s, a))
  {
    if a.Read? {
      ReadStreams(s, a.i);
    } else if a.Connect? {
      ConnectStreams(s, a.i);
    } else {
      OtherStreams(s, a);
    }
  }

  lemma {:induction false} RunSourced(s: State, actions: seq<Action>)
    requires Sourced(s) && StreamsOk(s) && Possible(s, actions)
    ensures Sourced(Run(s, actions)) && StreamsOk(Run(s, actions))
    decreases |actions|
  {
    if actions != [] {
      StepSourced(s, actions[0]);
      StepStreams(s, actions[0]);
      RunSourced(Step(s, actions[0]), actions[1..]);
    }
  }

  /** In every run from the start, disciplined or not: the processed seqs are exactly those some connection
      carried to the client, and each of them is a stored record. */
  lemma CarriedIsHandledAndStored(n: nat, first: nat, actions: seq<Action>)
    requires Possible(Init(n, first), actions)
    ensures var s := Run(Init(n, first), actions);
            && (forall k: nat :: k in s.handled <==> InSome(s.streams, k))
            && s.handled <= s.stored
  {
    RunSourced(Init(n, first), actions);
  }

  // ----- channels -----

  /** The seqs a subscription takes from its channel in a run, in order. */
  function TakenFrom(s: State, actions: seq<Action>, i: nat, j: nat): (ks: seq<nat>)
    requires Possible(s, actions)
    decreases |actions|
  {
    if actions == [] then []
    else
      (if actions[0] == Receive(i, j) then [SubOf(s, i, j).queue[0]] else []) +
      TakenFrom(Step(s, actions[0]), actions[1..], i, j)
  }

  predicate Stays(actions: seq<Action>, i: nat)
  {
    forall n :: 0 <= n < |actions| ==> actions[n] != Disconnect(i)
  }

  /** Subscription (i, j) of a closed channel, before and after: it is there, closed, and this is its channel. */
  predicate ClosedWith(s: State, i: nat, j: nat, queue: seq<nat>)
  {
    HasSub(s, i, j) && !SubOf(s, i, j).open && SubOf(s, i, j).queue == queue
  }

  lemma ClosedSubStep(s: State, a: Action, i: nat, j: nat)
    requires Enabled(s, a) && HasSub(s, i, j) && !SubOf(s, i, j).open && IsSubStep(a)
    ensures ClosedWith(Step(s, a), i, j, if a == Receive(i, j) then SubOf(s, i, j).queue[1..] else SubOf(s, i, j).queue)
  {
    SubStepShape(s, a);
  }

  lemma ClosedSessionStep(s: State, a: Action, i: nat, j: nat)
    requires Enabled(s, a) && HasSub(s, i, j) && !SubOf(s, i, j).open
    requires a.Enter? || a.Write? || a.Snapshot? || a.Resend? || a.Read?
    ensures ClosedWith(Step(s, a), i, j, SubOf(s, i, j).queue)
  {
  }

  lemma ClosedOtherStep(s: State, a: Action, i: nat, j: nat)
    requires Enabled(s, a) && HasSub(s, i, j) && !SubOf(s, i, j).open && a != Disconnect(i)
    requires !IsSubStep(a) && !a.Enter? && !a.Write? && !a.Snapshot? && !a.Resend? && !a.Read?
    ensures ClosedWith(Step(s, a), i, j, SubOf(s, i, j).queue)
  {
  }

  /** A closed channel only empties. */
  lemma ClosedStep(s: State, a: Action, i: nat, j: nat)
    requires Enabled(s, a) && HasSub(s, i, j) && !SubOf(s, i, j).open && a != Disconnect(i)
    ensures ClosedWith(Step(s, a), i, j, if a == Receive(i, j) then SubOf(s, i, j).queue[1..] else SubOf(s, i, j).queue)
  {
    if IsSubStep(a) {
      ClosedSubStep(s, a, i, j);
    } else if a.Enter? || a.Write? || a.Snapshot? || a.Resend? || a.Read? {
      ClosedSessionStep(s, a, i, j);
    } else {
      ClosedOtherStep(s, a, i, j);
    }
  }

  lemma FirstTaken(s: State, actions: seq<Action>, i: nat, j: nat)
    requires Possible(s, actions) && actions != []
    ensures var t, rest := Step(s, actions[0]), actions[1..];
            && Run(s, actions) == Run(t, rest)
            && TakenFrom(s, actions, i, j) ==
                 (if actions[0] == Receive(i, j) then [SubOf(s, i, j).queue[0]] else []) + TakenFrom(t, rest, i, j)
  {
  }

  lemma TakenThenLeft(q: seq<nat>, first: bool, taken: seq<nat>, left: seq<nat>)
    requires (first ==> q != []) && taken + left == if first then q[1..] else q
    ensures (if first then [q[0]] else []) + taken + left == q
  {
    if first { assert [q[0]] + taken + left == [q[0]] + (taken + left); }
  }

  lemma {:induction false} ClosedRun(s: State, actions: seq<Action>, i: nat, j: nat)
    requires Possible(s, actions) && Stays(actions, i) && HasSub(s, i, j) && !SubOf(s, i, j).open
    ensures HasSub(Run(s, actions), i, j)
    ensures TakenFrom(s, actions, i, j) + SubOf(Run(s, actions), i, j).queue == SubOf(s, i, j).queue
    decreases |actions|
  {
    if actions != [] {
      var t, rest := Step(s, actions[0]), actions[1..];
      FirstTaken(s, actions, i, j);
      ClosedStep(s, actions[0], i, j);
      ClosedRun(t, rest, i, j);
      TakenThenLeft(SubOf(s, i, j).queue, actions[0] == Receive(i, j), TakenFrom(t, rest, i, j), SubOf(Run(t, rest), i, j).queue);
    }
  }

  /** Unsubscribing ends it: over every continuation in which the session stays, what the subscription still takes
      from its channel, and what is then left in it, is exactly what was in it at that moment. */
  lemma UnsubscribedGetsNothingNew(s: State, i: nat, j: nat, after: seq<Action>)
    requires Enabled(s, Unsubscribe(i, j)) && Possible(Step(s, Unsubscribe(i, j)), after) && Stays(after, i)
    ensures var t := Step(s, Unsubscribe(i, j));
            && HasSub(Run(t, after), i, j)
            && TakenFrom(t, after, i, j) + SubOf(Run(t, after), i, j).queue == SubOf(s, i, j).queue
  {
    ClosedRun(Step(s, Unsubscribe(i, j)), after, i, j);
  }

  predicate Bounded(s: State)
  {
    forall i, j | i in s.sessions && j in s.sessions[i].subs :: |SubOf(s, i, j).queue| <= SUB_CHAN_SIZE
  }

  lemma StepKeepsBounded(s: State, a: Action)
    requires Bounded(s) && Enabled(s, a)
    ensures Bounded(Step(s, a))
  {
    var t := Step(s, a);
    forall i, j | HasSub(t, i, j) ensures |SubOf(t, i, j).queue| <= SUB_CHAN_SIZE {
      QueueStep(s, a, i, j);
    }
  }

  lemma QueueStep(s: State, a: Action, i: nat, j: nat)
    requires Enabled(s, a) && HasSub(Step(s, a), i, j)
    ensures var q := SubOf(Step(s, a), i, j).queue;
            || q == []
            || (HasSub(s, i, j) && |q| <= |SubOf(s, i, j).queue|)
            || (HasSub(s, i, j) && |SubOf(s, i, j).queue| < SUB_CHAN_SIZE && |q| == |SubOf(s, i, j).queue| + 1)
  {
  }

  /** Over every run no channel holds more than its 256 places. */
  lemma {:induction false} ChannelsAreBounded(s: State, actions: seq<Action>)
    requires Bounded(s) && Possible(s, actions)
    ensures Bounded(Run(s, actions))
    decreases |actions|
  {
    if actions != [] {
      StepKeepsBounded(s, actions[0]);
      ChannelsAreBounded(Step(s, actions[0]), actions[1..]);
    }
  }
}
