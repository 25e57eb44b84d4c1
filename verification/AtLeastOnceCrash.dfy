/** QoS 1 delivery across crashes of the broker. A crash drops every session and every publish in progress, and
    the counter comes back as the saved seq key; log and offsets stay. A publish caught between its record write
    and its seq key write leaves a record above the counter, whose seq the next publish takes again. */
module AtLeastOnceCrash {
  import opened Bytes
  import opened Common
  import opened AtLeastOnce
  import opened AtLeastOnceProof
  import opened AtLeastOnceRuns
  import T = AtLeastOnceTheorems
  import C = AtLeastOnceStreams

  /** `before` remembers, for a seq that was stored, how many copies under it had been processed by then: of a
      record that is no more. */
  datatype Life = Life(s: State, seqKey: nat, before: map<nat, nat>)

  datatype Event = Do(a: Action) | Crash

  function Copies(streams: seq<seq<nat>>, k: nat): (c: nat)
  {
    if streams == [] then 0 else multiset(streams[0])[k] + Copies(streams[1..], k)
  }

  function Restarted(s: State, seqKey: nat): (t: State)
  {
    s.(counter := seqKey, pubs := map[], sessions := map[])
  }

  predicate CanHappen(l: Life, e: Event)
  {
    e.Do? ==> Enabled(l.s, e.a)
  }

  function Next(l: Life, e: Event): (m: Life)
    requires CanHappen(l, e)
  {
    match e
    case Crash => l.(s := Restarted(l.s, l.seqKey))
    case Do(a) =>
      Life(Step(l.s, a), if a.SaveSeq? then a.n else l.seqKey,
           if a.Store? then l.before[a.n := Copies(l.s.streams, a.n)] else l.before)
  }

  function Begin(n: nat, first: nat): (l: Life)
  {
    Life(Init(n, first), n, map[])
  }

  /** The record that seq k stands for now has been processed. */
  predicate Held(l: Life, k: nat)
  {
    Copies(l.s.streams, k) > if k in l.before then l.before[k] else 0
  }

  /** No record is stored above the seq key. */
  predicate Clean(l: Life)
  {
    forall k | k in l.s.stored :: k <= l.seqKey
  }

  /** Disciplined steps, and crashes at any point. */
  predicate Lives(l: Life, es: seq<Event>)
    decreases |es|
  {
    es == [] ||
    (CanHappen(l, es[0]) && (es[0].Do? ==> Disciplined(l.s, es[0].a)) && Lives(Next(l, es[0]), es[1..]))
  }

  function After(l: Life, es: seq<Event>): (m: Life)
    requires Lives(l, es)
    decreases |es|
  {
    if es == [] then l else After(Next(l, es[0]), es[1..])
  }

  /** No publish is between its record write and its seq key write when the broker crashes. */
  predicate CleanCrashes(l: Life, es: seq<Event>)
    requires Lives(l, es)
    decreases |es|
  {
    es == [] || ((es[0].Crash? ==> Clean(l)) && CleanCrashes(Next(l, es[0]), es[1..]))
  }

  // ----- clean crashes lose nothing -----

  /** The seq key is the counter, or one behind while a publish has not saved it. */
  predicate KeyOk(l: Life)
  {
    l.seqKey == if l.s.pubs != map[] && l.s.counter in l.s.pubs && l.s.pubs[l.s.counter] != SeqSaved then l.s.counter - 1
                else l.s.counter
  }

  predicate SkippedOk(s: State)
  {
    forall k | k in s.skipped :: k <= Fanned(s)
  }

  predicate BeforeOk(l: Life)
  {
    forall k | k in l.before :: l.before[k] == 0
  }

  ghost predicate Sound(l: Life)
  {
    && Inv(l.s) && ClientOk(l.s) && C.Sourced(l.s) && C.StreamsOk(l.s)
    && KeyOk(l) && SkippedOk(l.s) && BeforeOk(l)
  }

  lemma {:induction false} CopiesIff(streams: seq<seq<nat>>, k: nat)
    ensures Copies(streams, k) > 0 <==> C.InSome(streams, k)
  {
    if streams != [] {
      var rest := streams[1..];
      CopiesIff(rest, k);
      assert forall m | 0 <= m < |rest| :: rest[m] == streams[m + 1];
      assert C.InSome(streams, k) <==> k in streams[0] || C.InSome(rest, k) by {
        if C.InSome(rest, k) {
          var m :| 0 <= m < |rest| && k in rest[m];
          assert k in streams[m + 1];
        }
        if C.InSome(streams, k) && k !in streams[0] {
          var m :| 0 <= m < |streams| && k in streams[m];
          assert k in rest[m - 1];
        }
      }
    }
  }

  lemma KeyStep(l: Life, a: Action)
    requires PubOk(l.s) && KeyOk(l) && Enabled(l.s, a) && Disciplined(l.s, a)
    ensures KeyOk(Next(l, Do(a)))
  {
    if a.Allocate? || a.Store? || a.SaveSeq? || a.FanOut? {
      PublishKey(l, a);
    } else {
      assert Step(l.s, a).pubs == l.s.pubs && Step(l.s, a).counter == l.s.counter;
    }
  }

  lemma PublishKey(l: Life, a: Action)
    requires PubOk(l.s) && KeyOk(l) && Enabled(l.s, a) && Disciplined(l.s, a)
    requires a.Allocate? || a.Store? || a.SaveSeq? || a.FanOut?
    ensures KeyOk(Next(l, Do(a)))
  {
    if !a.Allocate? {
      assert a.n in l.s.pubs.Keys;
    }
  }

  lemma SkippedStep(s: State, a: Action)
    requires Inv(s) && SkippedOk(s) && Enabled(s, a) && Disciplined(s, a)
    ensures SkippedOk(Step(s, a))
  {
    if a.FanOut? {
      FanOutSkips(s, a.n);
    } else if a.Scan? {
      ScanSkips(s, a.i, a.j);
    } else {
      FannedStays(s, a);
    }
  }

  lemma FanOutSkips(s: State, n: nat)
    requires PubOk(s) && SkippedOk(s) && Enabled(s, FanOut(n))
    ensures SkippedOk(Step(s, FanOut(n)))
  {
    assert n in s.pubs.Keys;
    assert s.pubs - {n} == map[];
  }

  lemma ScanSkips(s: State, i: nat, j: nat)
    requires Inv(s) && SkippedOk(s) && Enabled(s, Scan(i, j))
    ensures SkippedOk(Step(s, Scan(i, j)))
  {
    SubInInv(s, i, j);
    ScanShape(s, i, j);
  }

  lemma FannedStays(s: State, a: Action)
    requires PubOk(s) && SkippedOk(s) && Enabled(s, a) && Disciplined(s, a) && !a.FanOut? && !a.Scan?
    ensures SkippedOk(Step(s, a))
  {
    if a.Store? || a.SaveSeq? {
      assert a.n in s.pubs.Keys;
    }
    assert Step(s, a).skipped == s.skipped;
  }

  lemma BeforeStep(l: Life, a: Action)
    requires PubOk(l.s) && C.Sourced(l.s) && C.StreamsOk(l.s) && BeforeOk(l) && Enabled(l.s, a) && Disciplined(l.s, a)
    ensures BeforeOk(Next(l, Do(a)))
  {
    if a.Store? {
      assert a.n in l.s.pubs.Keys;
      assert a.n !in l.s.handled;
      CopiesIff(l.s.streams, a.n);
    }
  }

  lemma StepKeepsSound(l: Life, a: Action)
    requires Sound(l) && Enabled(l.s, a) && Disciplined(l.s, a)
    ensures Sound(Next(l, Do(a)))
  {
    StepKeepsInv(l.s, a);
    T.StepKeepsClient(l.s, a);
    C.StepSourced(l.s, a);
    C.StepStreams(l.s, a);
    KeyStep(l, a);
    SkippedStep(l.s, a);
    BeforeStep(l, a);
  }

  lemma CrashPub(l: Life)
    requires PubOk(l.s) && KeyOk(l) && Clean(l)
    ensures PubOk(Restarted(l.s, l.seqKey)) && Fanned(l.s) <= Fanned(Restarted(l.s, l.seqKey))
  {
    var s := l.s;
    if s.pubs != map[] {
      assert s.counter in s.pubs.Keys;
      assert s.pubs[s.counter] == Stored ==> s.counter in s.stored;
    }
  }

  lemma CrashKeepsSound(l: Life)
    requires Sound(l) && Clean(l)
    ensures Sound(Next(l, Crash))
  {
    CrashPub(l);
  }

  lemma {:induction false} LifeKeepsSound(l: Life, es: seq<Event>)
    requires Sound(l) && Lives(l, es) && CleanCrashes(l, es)
    ensures Sound(After(l, es)) && After(l, es).s.first == l.s.first && l.seqKey <= After(l, es).seqKey
    decreases |es|
  {
    if es != [] {
      if es[0].Do? {
        StepKeepsSound(l, es[0].a);
        KeyGrows(l, es[0].a);
      } else {
        CrashKeepsSound(l);
      }
      LifeKeepsSound(Next(l, es[0]), es[1..]);
    }
  }

  lemma KeyGrows(l: Life, a: Action)
    requires PubOk(l.s) && KeyOk(l) && Enabled(l.s, a)
    ensures l.seqKey <= Next(l, Do(a)).seqKey && Step(l.s, a).first == l.s.first
  {
    if a.SaveSeq? {
      assert a.n in l.s.pubs.Keys;
    }
  }

  lemma BeginSound(n: nat, first: nat)
    ensures Sound(Begin(n, first))
  {
    T.InitOk(n, first);
  }

  lemma HeldIff(l: Life, k: nat)
    requires Sound(l)
    ensures Held(l, k) <==> k in l.s.handled
  {
    CopiesIff(l.s.streams, k);
  }

  /** Some subscription has settled, and a record above the client's first offset is neither processed nor
      skipped. */
  ghost predicate Lost(l: Life, k: nat)
  {
    && (exists i, j :: T.Settles(l.s, i, j))
    && l.s.first < k <= l.s.counter && !Held(l, k) && k !in l.s.skipped
  }

  lemma SettledIsHeld(l: Life, k: nat)
    requires Sound(l)
    ensures !Lost(l, k)
  {
    if Lost(l, k) {
      var i, j :| T.Settles(l.s, i, j);
      T.SettledState(l.s, i, j);
      HeldIff(l, k);
    }
  }

  lemma SoundPromises(l: Life, k: nat)
    requires Sound(l)
    ensures l.s.acked <= l.s.handled && (Held(l, k) <==> k in l.s.handled) && !Lost(l, k)
    ensures l.s.first < k <= l.s.offset ==> k in l.s.acked || k in l.s.skipped
  {
    HeldIff(l, k);
    SettledIsHeld(l, k);
    if l.s.first < k <= l.s.offset {
      assert OffsetOk(l.s) && k in l.s.acked + l.s.skipped;
    }
  }

  /** At-least-once across crashes: in every disciplined life whose crashes are clean, everything up to the
      stored offset was processed and acknowledged, and once a subscription has settled every record of the
      topic above the first offset was processed, unless it met a full channel or the catch-up limit. */
  lemma CleanCrashesLoseNothing(n: nat, first: nat, es: seq<Event>, k: nat)
    requires Lives(Begin(n, first), es) && CleanCrashes(Begin(n, first), es)
    ensures var l := After(Begin(n, first), es);
            && l.s.acked <= l.s.handled && (Held(l, k) <==> k in l.s.handled)
            && (first < k <= l.s.offset ==> k in l.s.acked || k in l.s.skipped)
            && !Lost(l, k)
  {
    BeginSound(n, first);
    LifeKeepsSound(Begin(n, first), es);
    SoundPromises(After(Begin(n, first), es), k);
  }

  // ----- exactly when a crash is survived -----

  function Serve(l: Life, actions: seq<Action>): (m: Life)
    requires Possible(l.s, actions)
    ensures m.s == Run(l.s, actions)
    decreases |actions|
  {
    if actions == [] then l else Serve(Next(l, Do(actions[0])), actions[1..])
  }

  lemma {:induction false} PossibleSnoc(s: State, actions: seq<Action>, a: Action)
    requires Possible(s, actions) && Enabled(Run(s, actions), a)
    ensures Possible(s, actions + [a])
    decreases |actions|
  {
    if actions == [] {
      assert [] + [a] == [a];
    } else {
      PossibleSnoc(Step(s, actions[0]), actions[1..], a);
      assert (actions + [a])[1..] == actions[1..] + [a];
    }
  }

  lemma {:induction false} ServeSnoc(l: Life, actions: seq<Action>, a: Action)
    requires Possible(l.s, actions) && Enabled(Run(l.s, actions), a)
    ensures Possible(l.s, actions + [a]) && Serve(l, actions + [a]) == Next(Serve(l, actions), Do(a))
    decreases |actions|
  {
    PossibleSnoc(l.s, actions, a);
    if actions == [] {
      assert [] + [a] == [a];
    } else {
      ServeSnoc(Next(l, Do(actions[0])), actions[1..], a);
      assert (actions + [a])[1..] == actions[1..] + [a];
    }
  }

  /** However the broker goes on after this, no record of the client's is lost. */
  ghost predicate AlwaysDelivers(l: Life)
  {
    forall actions, k | Possible(l.s, actions) && DisciplinedRun(l.s, actions) :: !Lost(Serve(l, actions), k)
  }

  lemma {:induction false} ServeKeepsSound(l: Life, actions: seq<Action>)
    requires Sound(l) && Possible(l.s, actions) && DisciplinedRun(l.s, actions)
    ensures Sound(Serve(l, actions))
    decreases |actions|
  {
    if actions != [] {
      StepKeepsSound(l, actions[0]);
      ServeKeepsSound(Next(l, Do(actions[0])), actions[1..]);
    }
  }

  // ----- the run that loses a record after an unclean crash -----

  /** A broker that has come up at counter n on a log that goes up to n + 1. */
  predicate Overhang(r: Rest, n: nat)
  {
    && r.counter == n && r.pubs == map[] && r.stored == Between(0, n + 1)
    && r.offset <= n + 1 && r.first <= n && forall k | k in r.skipped :: k <= n
  }

  lemma UncleanShape(l: Life)
    requires Sound(l) && !Clean(l) && l.s.first <= l.seqKey
    ensures var s := l.s;
            var r := Rest(l.seqKey, s.stored, map[], s.offset, s.acked, s.handled, s.streams, s.first, s.skipped);
            Restarted(s, l.seqKey) == Alone(r) && Overhang(r, l.seqKey)
  {
    var s := l.s;
    assert s.pubs == map[] ==> forall k | k in s.stored :: k <= s.counter;
    assert s.counter in s.pubs.Keys;
  }

  /** Connection after connection, each sent one record, the stored offset reaches the counter. */
  lemma {:induction false} WorksOff(s: State, actions: seq<Action>, r: Rest, n: nat) returns (run: seq<Action>, t: Rest)
    requires Leads(Careful, s, actions, Alone(r)) && Overhang(r, n) && r.offset <= n
    ensures Leads(Careful, s, run, Alone(t)) && Overhang(t, n) && t.offset == n && t.first == r.first
    decreases n - r.offset
  {
    if r.offset == n {
      run, t := actions, r;
    } else {
      run := OneRecord(Careful, s, actions, r);
      run, t := WorksOff(s, run, Delivered(AfterScan(r), r.offset + 1, |r.streams|), n);
    }
  }

  /** The next publish has taken its seq, and the client has been sent, and has acknowledged, the old record that
      still stands under it. */
  lemma PassesOrphan(s: State, r: Rest, n: nat) returns (run: seq<Action>, t: Rest)
    requires s == Alone(r) && Overhang(r, n)
    ensures Leads(Careful, s, run, Alone(t)) && t.first == r.first && t.offset == t.counter == n + 1
    ensures t.pubs == map[n + 1 := Allocated] && forall k | k in t.skipped :: k <= n
  {
    var u;
    run, u := [], r;
    if r.offset <= n {
      run, u := WorksOff(s, run, r, n);
    }
    t := u.(counter := n + 1, pubs := map[n + 1 := Allocated]);
    assert u.pubs[n + 1 := Allocated] == t.pubs;
    Then(Careful, s, run, Alone(u), Allocate, Alone(t));
    run := run + [Allocate];
    if u.offset == n {
      run := OneRecord(Careful, s, run, t);
      t := Delivered(AfterScan(t), n + 1, |t.streams|);
    }
  }

  /** A new subscription is live, and finds nothing to catch up on. */
  lemma GetsReady(s: State, actions: seq<Action>, r: Rest) returns (run: seq<Action>)
    requires Leads(Careful, s, actions, Alone(r)) && r.offset == r.counter
    ensures Leads(Careful, s, run, At(r.(streams := r.streams + [[]]), LIVE.(base := Base(r)), Idle(0, [], |r.streams|)))
  {
    var e, u, w := r.(streams := r.streams + [[]]), EARLY.(phase := Sending, base := Base(r)), Idle(0, [], |r.streams|);
    run := Opens(Careful, s, actions, r);
    GoesLive(e, u, w);
    Then(Careful, s, run, At(e, u, w), GoLive(0, 0), At(e, LIVE.(base := Base(r)), w));
    run := run + [GoLive(0, 0)];
  }

  /** The publish goes through. */
  lemma StoresAgain(l: Life, actions: seq<Action>, r: Rest, u: Sub, w: Wire, n: nat) returns (run: seq<Action>)
    requires Leads(Careful, l.s, actions, At(r, u, w)) && u == LIVE.(base := u.base) && r.pubs == map[n := Allocated]
    ensures var e := r.(stored := r.stored + {n}, pubs := map[]);
            Leads(Careful, l.s, run, At(e, u.(queue := [n]), w)) && !Held(Serve(l, run), n)
  {
    var r1, r2 := r.(stored := r.stored + {n}, pubs := map[n := Stored]), r.(stored := r.stored + {n}, pubs := map[n := SeqSaved]);
    assert r.pubs[n := Stored] == r1.pubs && r1.pubs[n := SeqSaved] == r2.pubs && r2.pubs - {n} == map[];
    run := Goes(l, actions, At(r, u, w), Store(n), At(r1, u, w));
    run := GoesOn(l, run, At(r1, u, w), SaveSeq(n), At(r2, u, w), n);
    FansOut(r2, u, w, n);
    assert [] + [n] == [n];
    run := GoesOn(l, run, At(r2, u, w), FanOut(n), At(r2.(pubs := map[]), u.(queue := [n]), w), n);
  }

  /** And the live loop drops its record. */
  lemma DropsLive(l: Life, actions: seq<Action>, r: Rest, u: Sub, w: Wire, n: nat) returns (run: seq<Action>)
    requires Leads(Careful, l.s, actions, At(r, u, w)) && u == LIVE.(base := u.base)
    requires r.pubs == map[n := Allocated] && n <= r.offset
    ensures var e := r.(stored := r.stored + {n}, pubs := map[]);
            Leads(Careful, l.s, run, At(e, u, w)) && !Held(Serve(l, run), n)
  {
    var e := r.(stored := r.stored + {n}, pubs := map[]);
    run := StoresAgain(l, actions, r, u, w, n);
    assert [n][1..] == [];
    Received(e, u.(queue := [n]), w);
    run := GoesOn(l, run, At(e, u.(queue := [n]), w), Receive(0, 0), At(e, u.(hand := Got(n)), w), n);
    Checked(e, u.(hand := Got(n)), w);
    run := GoesOn(l, run, At(e, u.(hand := Got(n)), w), CheckOffset(0, 0), At(e, u, w), n);
  }

  lemma Goes(l: Life, actions: seq<Action>, s: State, a: Action, t: State) returns (run: seq<Action>)
    requires Leads(Careful, l.s, actions, s) && Enabled(s, a) && Step(s, a) == t && Disciplined(s, a)
    ensures run == actions + [a] && Leads(Careful, l.s, run, t) && Serve(l, run) == Next(Serve(l, actions), Do(a))
  {
    run := actions + [a];
    Then(Careful, l.s, actions, s, a, t);
    ServeSnoc(l, actions, a);
  }

  /** A step that stores nothing and processes nothing. */
  lemma GoesOn(l: Life, actions: seq<Action>, s: State, a: Action, t: State, n: nat) returns (run: seq<Action>)
    requires Leads(Careful, l.s, actions, s) && Enabled(s, a) && Step(s, a) == t && Disciplined(s, a)
    requires !a.Store? && t.streams == s.streams && !Held(Serve(l, actions), n)
    ensures Leads(Careful, l.s, run, t) && !Held(Serve(l, run), n)
  {
    run := Goes(l, actions, s, a, t);
  }

  lemma OverhangLoses(c: Life, r: Rest, n: nat) returns (run: seq<Action>)
    requires c.s == Alone(r) && Overhang(r, n)
    ensures Possible(c.s, run) && DisciplinedRun(c.s, run) && Lost(Serve(c, run), n + 1)
  {
    var t;
    run, t := PassesOrphan(c.s, r, n);
    run := GetsReady(c.s, run, t);
    var e, u, w := t.(streams := t.streams + [[]]), LIVE.(base := Base(t)), Idle(0, [], |t.streams|);
    run := DropsLive(c, run, e, u, w, n + 1);
    AllowedRuns(Careful, c.s, run);
    SettledAt(e.(stored := e.stored + {n + 1}, pubs := map[]), u, w);
  }

  lemma SettledAt(r: Rest, u: Sub, w: Wire)
    requires r.pubs == map[] && u == LIVE.(base := u.base) && w.flow == []
    ensures T.Settles(At(r, u, w), 0, 0)
  {
  }

  /** After an unclean crash a disciplined run loses the record that is published under the left-over seq. */
  lemma UncleanCrashLoses(l: Life) returns (run: seq<Action>)
    requires Sound(l) && !Clean(l) && l.s.first <= l.seqKey
    ensures var c := Next(l, Crash);
            Possible(c.s, run) && DisciplinedRun(c.s, run) && Lost(Serve(c, run), l.seqKey + 1)
  {
    UncleanShape(l);
    var r := Rest(l.seqKey, l.s.stored, map[], l.s.offset, l.s.acked, l.s.handled, l.s.streams, l.s.first, l.s.skipped);
    run := OverhangLoses(Next(l, Crash), r, l.seqKey);
  }

  /** Such a crash can come at once, with the stored offset at the seq key: the first publish of a topic has written
      its record and not yet its seq key. */
  lemma CrashLosesARecord() returns (es: seq<Event>, run: seq<Action>)
    ensures Lives(Begin(0, 0), es) && CleanCrashes(Begin(0, 0), es)
    ensures After(Begin(0, 0), es).s.offset == After(Begin(0, 0), es).seqKey
    ensures var c := Next(After(Begin(0, 0), es), Crash);
            Possible(c.s, run) && DisciplinedRun(c.s, run) && Lost(Serve(c, run), 1)
  {
    es := FirstRecordWritten();
    BeginSound(0, 0);
    LifeKeepsSound(Begin(0, 0), es);
    run := UncleanCrashLoses(After(Begin(0, 0), es));
  }

  lemma FirstRecordWritten() returns (es: seq<Event>)
    ensures Lives(Begin(0, 0), es) && CleanCrashes(Begin(0, 0), es)
    ensures var l := After(Begin(0, 0), es); l.seqKey == 0 && 1 in l.s.stored && l.s.offset == 0
  {
    es := [Do(Allocate), Do(Store(1))];
    var l1 := Next(Begin(0, 0), Do(Allocate));
    var l2 := Next(l1, Do(Store(1)));
    assert es[1..] == [Do(Store(1))] && es[1..][1..] == [];
    assert Lives(l2, []) && Lives(l1, [Do(Store(1))]);
    assert After(l1, [Do(Store(1))]) == l2;
  }

  /** Exactly when a crash is survived: in every disciplined life, after a first part with clean crashes only, the
      next crash leaves the client's delivery whole if and only if no record is stored above the seq key. That the
      stored offset is at most the seq key is not enough: the left-over record can still be delivered and
      acknowledged before its seq is taken again. */
  lemma CrashSurvivedIff(n: nat, first: nat, es: seq<Event>)
    requires Lives(Begin(n, first), es) && CleanCrashes(Begin(n, first), es) && first <= n
    ensures var l := After(Begin(n, first), es); AlwaysDelivers(Next(l, Crash)) <==> Clean(l)
  {
    var l := After(Begin(n, first), es);
    BeginSound(n, first);
    LifeKeepsSound(Begin(n, first), es);
    var c := Next(l, Crash);
    if Clean(l) {
      CrashKeepsSound(l);
      forall actions, k | Possible(c.s, actions) && DisciplinedRun(c.s, actions) ensures !Lost(Serve(c, actions), k) {
        ServeKeepsSound(c, actions);
        SettledIsHeld(Serve(c, actions), k);
      }
    } else {
      var run := UncleanCrashLoses(l);
    }
  }
}
