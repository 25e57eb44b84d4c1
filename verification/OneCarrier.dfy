/** When a record travels over one connection only: a client that holds one connection at a time, and lets go of
    it only while its stored offset has reached everything it has processed, is never sent a record twice over
    different connections. */
module OneCarrier {
  import opened Bytes
  import opened Common
  import opened AtLeastOnce
  import P = AtLeastOnceProof
  import C = AtLeastOnceStreams

  predicate Tidy(s: State, a: Action)
  {
    match a
    case Connect(_) => s.sessions == map[]
    case Disconnect(_) => forall k | k in s.handled :: k <= s.offset
    case _ => true
  }

  predicate TidyRun(s: State, actions: seq<Action>)
    requires Possible(s, actions)
    decreases |actions|
  {
    actions == [] || (Tidy(s, actions[0]) && TidyRun(Step(s, actions[0]), actions[1..]))
  }

  // ----- everything a connection sends lies above the offset it began with -----

  predicate HandAbove(h: Hand, b: nat)
  {
    match h
    case Passed(k) => k > b
    case Numbered(c) => c.seqNo > b
    case Entered(c) => c.seqNo > b
    case _ => true
  }

  predicate SubAbove(u: Sub, b: nat)
  {
    && HandAbove(u.hand, b)
    && (forall k | k in u.todo :: k > b)
    && (u.phase.OffsetRead? || u.phase.SeqRead? ==> u.phase.from >= b)
  }

  predicate SessionAbove(x: Session, b: nat)
  {
    && (forall j | j in x.subs :: SubAbove(x.subs[j], b))
    && (forall c | c in x.flow :: c.seqNo > b)
    && (forall c | c in x.resend :: c.seqNo > b)
    && (forall p | p in x.inflight :: x.inflight[p].seqNo > b)
    && (x.work.Saving? ==> x.work.k > b)
  }

  predicate Disjoint(streams: seq<seq<nat>>)
  {
    forall m, n, k | 0 <= m < n < |streams| && k in streams[m] :: k !in streams[n]
  }

  /** The streams of finished connections end at b; the current one begins above it. */
  predicate Split(streams: seq<seq<nat>>, b: nat, current: nat)
  {
    && Disjoint(streams)
    && (forall m, k | 0 <= m < |streams| && m < current && k in streams[m] :: k <= b)
    && (forall m, k | 0 <= m < |streams| && current <= m && k in streams[m] :: k > b)
  }

  /** The number of the open connection, or of the next one. */
  function Current(s: State): (m: nat)
  {
    if s.sessions == map[] || |s.streams| == 0 then |s.streams| else |s.streams| - 1
  }

  predicate Apart(s: State, b: nat)
  {
    && b <= s.offset && Split(s.streams, b, Current(s))
    && (forall i | i in s.sessions :: SessionAbove(s.sessions[i], b) && s.sessions[i].conn + 1 == |s.streams|)
    && (forall i, j | i in s.sessions && j in s.sessions :: i == j)
  }

  lemma {:induction false} ScanAbove(stored: set<nat>, from: nat, top: nat, limit: nat)
    ensures forall k | k in FirstFrom(stored, from, top, limit) :: k >= from
    decreases top + 1 - from
  {
    if limit > 0 && from <= top {
      ScanAbove(stored, from + 1, top, if from in stored then limit - 1 else limit);
    }
  }

  lemma SubStepAbove(s: State, a: Action, b: nat)
    requires Enabled(s, a) && C.IsSubStep(a) && b <= s.offset
    requires a.Register? || SubAbove(SubOf(s, a.i, a.j), b)
    ensures HasSub(Step(s, a), a.i, a.j) && SubAbove(SubOf(Step(s, a), a.i, a.j), b)
  {
    C.SubStepShape(s, a);
    if a.Scan? {
      ScanAbove(s.stored, SubOf(s, a.i, a.j).phase.from + 1, s.counter, CATCH_UP_LIMIT);
    } else if a.TakeCatchUp? {
      var u := SubOf(s, a.i, a.j);
      assert u.todo[0] in u.todo && forall k | k in u.todo[1..] :: k in u.todo;
    }
  }

  lemma SubStepApart(s: State, a: Action, b: nat)
    requires Apart(s, b) && Enabled(s, a) && C.IsSubStep(a)
    ensures Apart(Step(s, a), b)
  {
    var t := Step(s, a);
    SubStepAbove(s, a, b);
    C.SubStepShape(s, a);
    assert t.streams == s.streams && t.offset == s.offset;
    assert SessionAbove(s.sessions[a.i], b);
    assert SessionAbove(t.sessions[a.i], b);
  }

  lemma FanOutApart(s: State, n: nat, b: nat)
    requires Apart(s, b) && Enabled(s, FanOut(n))
    ensures Apart(Step(s, FanOut(n)), b)
  {
    var t := Step(s, FanOut(n));
    forall i | i in t.sessions ensures SessionAbove(t.sessions[i], b) {
      assert SessionAbove(s.sessions[i], b);
    }
    assert t.sessions == map[] <==> s.sessions == map[] by {
      assert t.sessions.Keys == s.sessions.Keys;
    }
  }

  /** The steps that put copies on the wire or take them off. */
  predicate IsWireStep(a: Action)
  {
    a.Enter? || a.Write? || a.Snapshot? || a.Resend? || a.Ack? || a.SaveOffset? || a.OtherTopics? || a.StrayAck?
  }

  lemma WireAbove(s: State, a: Action, b: nat)
    requires Enabled(s, a) && IsWireStep(a) && SessionAbove(s.sessions[a.i], b)
    ensures a.i in Step(s, a).sessions && SessionAbove(Step(s, a).sessions[a.i], b)
  {
    var x := s.sessions[a.i];
    if a.Enter? || a.Write? {
      assert SubAbove(x.subs[a.j], b);
    }
  }

  lemma WireShape(s: State, a: Action)
    requires Enabled(s, a) && IsWireStep(a)
    ensures var t := Step(s, a);
            && a.i in t.sessions && t.sessions == s.sessions[a.i := t.sessions[a.i]] && t.streams == s.streams
            && t.sessions[a.i].conn == s.sessions[a.i].conn
            && t.offset == if a.SaveOffset? then s.sessions[a.i].work.k else s.offset
  {
  }

  lemma WireApart(s: State, a: Action, b: nat)
    requires Apart(s, b) && Enabled(s, a) && IsWireStep(a)
    ensures Apart(Step(s, a), b)
  {
    assert SessionAbove(s.sessions[a.i], b);
    WireAbove(s, a, b);
    WireShape(s, a);
  }

  lemma SplitMore(streams: seq<seq<nat>>, b: nat, k: nat)
    requires |streams| > 0 && Split(streams, b, |streams| - 1) && k > b
    ensures var m := |streams| - 1; Split(streams[m := streams[m] + [k]], b, m)
  {
    var m := |streams| - 1;
    var t := streams[m := streams[m] + [k]];
    forall p, n, q | 0 <= p < n < |t| && q in t[p] ensures q !in t[n] {
      assert q in streams[p] && q <= b;
      assert n < m ==> q !in streams[n];
      assert q !in streams[n];
    }
  }

  lemma ReadApart(s: State, i: nat, b: nat)
    requires Apart(s, b) && Enabled(s, Read(i))
    ensures Apart(Step(s, Read(i)), b)
  {
    var x := s.sessions[i];
    assert SessionAbove(x, b);
    var k := x.flow[x.read].seqNo;
    assert x.flow[x.read] in x.flow;
    SplitMore(s.streams, b, k);
    var t := Step(s, Read(i));
    assert SessionAbove(t.sessions[i], b);
  }

  lemma ConnectApart(s: State, i: nat, b: nat)
    requires Apart(s, b) && Enabled(s, Connect(i)) && s.sessions == map[]
    ensures Apart(Step(s, Connect(i)), b)
  {
    var t := Step(s, Connect(i));
    assert SessionAbove(t.sessions[i], b);
  }

  lemma DisconnectApart(s: State, i: nat, b: nat)
    requires Apart(s, b) && C.StreamsOk(s) && Enabled(s, Disconnect(i)) && Tidy(s, Disconnect(i))
    ensures Apart(Step(s, Disconnect(i)), s.offset)
  {
    var t := Step(s, Disconnect(i));
    assert t.sessions == map[];
    forall m, k | 0 <= m < |t.streams| && k in t.streams[m] ensures k <= s.offset {
      assert C.InSome(s.streams, k);
    }
  }

  lemma StepApart(s: State, a: Action, b: nat) returns (c: nat)
    requires Apart(s, b) && C.StreamsOk(s) && Enabled(s, a) && Tidy(s, a)
    ensures Apart(Step(s, a), c)
  {
    c := if a.Disconnect? then s.offset else b;
    if C.IsSubStep(a) {
      SubStepApart(s, a, b);
    } else if IsWireStep(a) {
      WireApart(s, a, b);
    } else if a.FanOut? {
      FanOutApart(s, a.n, b);
    } else if a.Read? {
      ReadApart(s, a.i, b);
    } else if a.Connect? {
      ConnectApart(s, a.i, b);
    } else if a.Disconnect? {
      DisconnectApart(s, a.i, b);
    }
  }

  lemma {:induction false} RunApart(s: State, actions: seq<Action>, b: nat) returns (c: nat)
    requires Apart(s, b) && C.StreamsOk(s) && Possible(s, actions) && TidyRun(s, actions)
    ensures Apart(Run(s, actions), c)
    decreases |actions|
  {
    c := b;
    if actions != [] {
      c := StepApart(s, actions[0], b);
      C.StepStreams(s, actions[0]);
      c := RunApart(Step(s, actions[0]), actions[1..], c);
    }
  }

  /** On every tidy run, disciplined or not, no record is carried by two connections. */
  lemma TidyStreamsAreDisjoint(n: nat, first: nat, actions: seq<Action>)
    requires Possible(Init(n, first), actions) && TidyRun(Init(n, first), actions)
    ensures Disjoint(Run(Init(n, first), actions).streams)
  {
    var b := RunApart(Init(n, first), actions, first);
  }
}
