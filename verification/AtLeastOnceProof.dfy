/** Why QoS 1 delivery loses nothing: in every session the copies on the wire, followed by the
    messages still on their way to it, form a chain in which each seq is preceded by every smaller
    seq that has not been acknowledged. */
module AtLeastOnceProof {
  import opened Bytes
  import opened PacketIds
  import opened Common
  import opened AtLeastOnce

  // ----- chains -----

  /** Every seq between `lo` and an element of L is in C or earlier in L. */
  predicate Chain(lo: nat, L: seq<nat>, C: set<nat>)
  {
    forall i: nat, k: nat | i < |L| && lo < k < L[i] :: k in C || k in L[..i]
  }

  /** Every seq in (lo, hi] is in C or in L. */
  predicate Reach(lo: nat, hi: nat, L: seq<nat>, C: set<nat>)
  {
    forall k: nat | lo < k <= hi :: k in C || k in L
  }

  /** Every seq between `lo` and x is in C. */
  predicate Below(lo: nat, x: nat, C: set<nat>)
  {
    forall k: nat | lo < k < x :: k in C
  }

  /** Every seq in (lo, x] is in C. */
  predicate Through(lo: nat, x: nat, C: set<nat>)
  {
    forall k: nat | lo < k <= x :: k in C
  }

  lemma ThroughMore(lo: nat, x: nat, C: set<nat>, D: set<nat>)
    requires Through(lo, x, C) && C <= D
    ensures Through(lo, x, D)
  {
  }

  lemma ChainHead(lo: nat, L: seq<nat>, C: set<nat>)
    requires Chain(lo, L, C) && L != []
    ensures Below(lo, L[0], C)
  {
    assert L[..0] == [];
  }

  lemma ChainTail(lo: nat, L: seq<nat>, C: set<nat>, D: set<nat>)
    requires Chain(lo, L, C) && L != [] && C <= D && (L[0] <= lo || L[0] in D)
    ensures Chain(lo, L[1..], D)
  {
    forall i: nat, k: nat | i < |L[1..]| && lo < k < L[1..][i]
      ensures k in D || k in L[1..][..i]
    {
      assert L[i + 1] == L[1..][i];
      assert k in C || k in L[..i + 1];
      assert L[..i + 1] == [L[0]] + L[1..][..i];
    }
  }

  lemma ChainSnoc(lo: nat, L: seq<nat>, C: set<nat>, x: nat)
    requires Chain(lo, L, C) && forall k: nat | lo < k < x :: k in C || k in L
    ensures Chain(lo, L + [x], C)
  {
    forall i: nat, k: nat | i < |L + [x]| && lo < k < (L + [x])[i]
      ensures k in C || k in (L + [x])[..i]
    {
      if i < |L| {
        assert (L + [x])[..i] == L[..i];
        assert k in C || k in L[..i];
      } else {
        assert (L + [x])[..i] == L;
      }
    }
  }

  lemma ChainMore(lo: nat, L: seq<nat>, C: set<nat>, D: set<nat>)
    requires Chain(lo, L, C) && C <= D
    ensures Chain(lo, L, D)
  {
    forall i: nat, k: nat | i < |L| && lo < k < L[i]
      ensures k in D || k in L[..i]
    {
      assert k in C || k in L[..i];
    }
  }

  lemma ReachTail(lo: nat, hi: nat, L: seq<nat>, C: set<nat>, D: set<nat>)
    requires Reach(lo, hi, L, C) && L != [] && C <= D && (L[0] <= lo || L[0] in D)
    ensures Reach(lo, hi, L[1..], D)
  {
    assert L == [L[0]] + L[1..];
  }

  // ----- the invariant -----

  function Nums(cs: seq<Copy>): (r: seq<nat>)
    ensures |r| == |cs| && forall i :: 0 <= i < |cs| ==> r[i] == cs[i].seqNo
  {
    if cs == [] then [] else Nums(cs[..|cs| - 1]) + [cs[|cs| - 1].seqNo]
  }

  function Elems(L: seq<nat>): (r: set<nat>)
  {
    set k | k in L
  }

  function HandLine(h: Hand): (L: seq<nat>)
  {
    match h
    case Empty => []
    case Got(k) => [k]
    case Passed(k) => [k]
    case Numbered(c) => [c.seqNo]
    case Entered(c) => [c.seqNo]
  }

  /** What a subscription still has to put on the wire, in order. */
  function Line(u: Sub): (L: seq<nat>)
  {
    HandLine(u.hand) + u.todo + u.queue
  }

  /** The copy's packet id stands for it, or it has been acknowledged. */
  predicate PidOk(c: Copy, inflight: map<uint16, Copy>, acked: set<nat>)
  {
    if Pid(c) in inflight then inflight[Pid(c)] == c else c.seqNo in acked
  }

  /** The global facts a session depends on: base offset, acknowledged, skipped, fanned out. */
  datatype World = World(first: nat, acked: set<nat>, skipped: set<nat>, fanned: nat)

  function Settled(w: World): (A: set<nat>)
  {
    w.acked + w.skipped
  }

  /** Settled, or on the wire of this session. */
  function Covered(w: World, x: Session): (C: set<nat>)
  {
    Settled(w) + Elems(Nums(x.flow))
  }

  predicate OffsetKnown(w: World, u: Sub)
  {
    match u.phase
    case OffsetRead(o) => Through(w.first, o, Settled(w))
    case SeqRead(o) => Through(w.first, o, Settled(w))
    case _ => true
  }

  predicate SubOk(w: World, C: set<nat>, u: Sub)
  {
    && u.base <= w.fanned
    && OffsetKnown(w, u)
    && (if u.phase.Sending? || u.phase.Live? then
          && Chain(w.first, Line(u), C)
          && (u.open ==> Reach(w.first, w.fanned, Line(u), C))
          && (u.phase.Live? ==> u.todo == [])
        else
          && u.hand.Empty? && u.todo == []
          && Chain(u.base, u.queue, C)
          && (u.open ==> Reach(u.base, w.fanned, u.queue, C)))
  }

  predicate PidsOk(w: World, x: Session)
  {
    && (forall c | c in x.flow :: PidOk(c, x.inflight, w.acked))
    && (forall c | c in x.resend :: PidOk(c, x.inflight, w.acked))
    && (forall j | j in x.subs && x.subs[j].hand.Entered? :: PidOk(x.subs[j].hand.c, x.inflight, w.acked))
  }

  predicate TableOk(w: World, C: set<nat>, x: Session)
  {
    && (forall p | p in x.inflight :: Below(w.first, x.inflight[p].seqNo, C))
    && (forall c | c in x.resend :: Below(w.first, c.seqNo, C))
  }

  predicate SubsOk(w: World, C: set<nat>, x: Session)
  {
    forall j | j in x.subs :: SubOk(w, C, x.subs[j])
  }

  /** The copy was numbered earlier, and no goroutine is about to enter another one under its packet id. */
  predicate Clear(x: Session, c: Copy)
  {
    c.place < x.cursor && c.place !in x.foreign && forall j | j in x.subs && x.subs[j].hand.Numbered? :: Pid(x.subs[j].hand.c) != Pid(c)
  }

  /** What is about to enter the inflight table carries an id that nothing else in the session carries. */
  predicate IdsOk(x: Session)
  {
    && (forall c | c in x.flow :: Clear(x, c))
    && (forall c | c in x.resend :: Clear(x, c))
    && (forall p | p in x.inflight :: Pid(x.inflight[p]) == p && Clear(x, x.inflight[p]))
    && (forall j | j in x.subs && x.subs[j].hand.Entered? :: Clear(x, x.subs[j].hand.c))
    && (forall j | j in x.subs && x.subs[j].hand.Numbered? ::
          x.subs[j].hand.c.place < x.cursor && x.subs[j].hand.c.place !in x.foreign)
    && (forall p | p in x.foreign :: p < x.cursor)
    && (forall j, k | j in x.subs && k in x.subs && j != k && x.subs[j].hand.Numbered? && x.subs[k].hand.Numbered? ::
          Pid(x.subs[j].hand.c) != Pid(x.subs[k].hand.c))
  }

  /** An offset about to be saved has everything below it settled. */
  predicate WorkOk(w: World, x: Session)
  {
    x.work.Saving? ==> Through(w.first, x.work.k, Settled(w))
  }

  predicate SessionOk(w: World, x: Session)
  {
    && x.read <= |x.flow|
    && IdsOk(x) && WorkOk(w, x)
    && Chain(w.first, Nums(x.flow), Settled(w))
    && PidsOk(w, x)
    && TableOk(w, Covered(w, x), x)
    && SubsOk(w, Covered(w, x), x)
  }

  function WorldOf(s: State): (w: World)
  {
    World(s.first, s.acked, s.skipped, Fanned(s))
  }

  /** The serialised publisher: at most the newest seq is in progress. */
  predicate PubOk(s: State)
  {
    if s.pubs == map[] then s.stored == Between(0, s.counter)
    else
      && s.counter > 0 && s.pubs.Keys == {s.counter}
      && s.stored == Between(0, if s.pubs[s.counter] == Allocated then s.counter - 1 else s.counter)
  }

  predicate OffsetOk(s: State)
  {
    Through(s.first, s.offset, s.acked + s.skipped)
  }

  predicate ClientOk(s: State)
  {
    && s.acked <= s.handled
    && (forall i | i in s.sessions :: ReadsHandled(s.handled, s.sessions[i]))
  }

  /** What the client has read has been handled. */
  predicate ReadsHandled(handled: set<nat>, x: Session)
  {
    x.read <= |x.flow| && forall n | 0 <= n < x.read :: x.flow[n].seqNo in handled
  }

  predicate Inv(s: State)
  {
    && PubOk(s) && OffsetOk(s)
    && (forall i | i in s.sessions :: SessionOk(WorldOf(s), s.sessions[i]))
  }

  // ----- more is settled or covered -----

  predicate Extends(w: World, v: World)
  {
    v.first == w.first && w.acked <= v.acked && w.skipped <= v.skipped && v.fanned == w.fanned
  }

  lemma SubGrows(w: World, v: World, C: set<nat>, D: set<nat>, u: Sub)
    requires SubOk(w, C, u) && Extends(w, v) && C <= D
    ensures SubOk(v, D, u)
  {
    assert Settled(w) <= Settled(v);
    if u.phase.Sending? || u.phase.Live? {
      ChainMore(w.first, Line(u), C, D);
    } else {
      ChainMore(u.base, u.queue, C, D);
    }
  }

  lemma SubsGrow(w: World, v: World, C: set<nat>, D: set<nat>, x: Session)
    requires SubsOk(w, C, x) && TableOk(w, C, x) && Extends(w, v) && C <= D
    ensures SubsOk(v, D, x) && TableOk(v, D, x)
  {
    forall j | j in x.subs ensures SubOk(v, D, x.subs[j]) {
      SubGrows(w, v, C, D, x.subs[j]);
    }
  }

  lemma SessionGrows(w: World, v: World, x: Session)
    requires SessionOk(w, x) && Extends(w, v)
    ensures SessionOk(v, x)
  {
    ChainMore(w.first, Nums(x.flow), Settled(w), Settled(v));
    SubsGrow(w, v, Covered(w, x), Covered(v, x), x);
    if x.work.Saving? {
      ThroughMore(w.first, x.work.k, Settled(w), Settled(v));
    }
  }

  // ----- one subscription changes -----

  lemma PutSubOk(w: World, x: Session, j: nat, u: Sub)
    requires SessionOk(w, x) && SubOk(w, Covered(w, x), u)
    requires HasCopy(u.hand) ==> j in x.subs && u.hand == x.subs[j].hand
    ensures SessionOk(w, x.(subs := x.subs[j := u]))
  {
    var y := x.(subs := x.subs[j := u]);
    IdsShrink(x, y);
    assert Covered(w, y) == Covered(w, x);
  }

  /** Fewer copies, the same cursor. */
  lemma IdsShrink(x: Session, y: Session)
    requires IdsOk(x) && y.cursor == x.cursor && y.foreign == x.foreign
    requires forall c | c in y.flow :: c in x.flow
    requires forall c | c in y.resend :: c in x.resend
    requires forall p | p in y.inflight :: p in x.inflight && y.inflight[p] == x.inflight[p]
    requires forall j | j in y.subs && HasCopy(y.subs[j].hand) :: j in x.subs && y.subs[j].hand == x.subs[j].hand
    ensures IdsOk(y)
  {
    forall c | Clear(x, c) ensures Clear(y, c) { }
  }

  /** The subscription line stays what it was. */
  lemma SameLine(w: World, C: set<nat>, u: Sub, v: Sub)
    requires SubOk(w, C, u) && (u.phase.Sending? || u.phase.Live?)
    requires v == u.(phase := v.phase, hand := v.hand, todo := v.todo, queue := v.queue) && Line(v) == Line(u)
    requires v.phase.Live? || v.phase == u.phase
    requires v.phase.Live? ==> v.todo == []
    ensures SubOk(w, C, v)
  {
  }

  /** The head of the line has been dealt with. */
  lemma HeadDone(w: World, v: World, C: set<nat>, D: set<nat>, u: Sub)
    requires SubOk(w, C, u) && Extends(w, v) && C <= D && !u.hand.Empty? && (u.phase.Sending? || u.phase.Live?)
    requires HandLine(u.hand)[0] <= w.first || HandLine(u.hand)[0] in D
    ensures SubOk(v, D, u.(hand := Empty))
  {
    var L := Line(u);
    assert Line(u.(hand := Empty)) == L[1..];
    ChainTail(w.first, L, C, D);
    if u.open {
      ReachTail(w.first, w.fanned, L, C, D);
    }
  }

  lemma LineHead(w: World, C: set<nat>, u: Sub)
    requires SubOk(w, C, u) && !u.hand.Empty?
    ensures Below(w.first, HandLine(u.hand)[0], C)
  {
    ChainHead(w.first, Line(u), C);
  }

  /** From the scan on: catch-up seqs o+1..e, then the channel. */
  predicate Consecutive(todo: seq<nat>, o: nat, e: nat)
  {
    |todo| == (if e > o then e - o else 0) && forall i :: 0 <= i < |todo| ==> todo[i] == o + 1 + i
  }

  lemma {:induction false} ScanIsConsecutive(m: nat, top: nat, from: nat, limit: nat)
    requires m <= top && 0 < from
    ensures var e := if m < from - 1 + limit then m else from - 1 + limit;
            Consecutive(FirstFrom(Between(0, m), from, top, limit), from - 1, e)
    decreases top + 1 - from
  {
    if limit > 0 && from <= top {
      if from <= m {
        ScanIsConsecutive(m, top, from + 1, limit - 1);
      } else {
        ScanIsConsecutive(m, top, from + 1, limit);
      }
    }
  }

  lemma StartSending(w: World, v: World, C: set<nat>, D: set<nat>, u: Sub, o: nat, e: nat, todo: seq<nat>)
    requires SubOk(w, C, u) && Extends(w, v) && C <= D && Settled(w) <= C
    requires u.phase == OffsetRead(o) || u.phase == SeqRead(o)
    requires Consecutive(todo, o, e)
    requires forall k: nat | o < k <= u.base :: k <= e || k in D
    ensures SubOk(v, D, u.(phase := Sending, todo := todo))
  {
    var t := u.(phase := Sending, todo := todo);
    ThroughMore(w.first, o, Settled(w), D);
    var L := todo + u.queue;
    assert Line(t) == L;
    forall k: nat | o < k <= e ensures k in todo {
      assert todo[k - o - 1] == k;
    }
    forall i: nat, k: nat | i < |L| && w.first < k < L[i]
      ensures k in D || k in L[..i]
    {
      if i < |todo| {
        assert L[..i] == todo[..i];
        if k > o { assert todo[..i][k - o - 1] == k; }
      } else {
        var q := i - |todo|;
        assert L[..i] == todo + u.queue[..q] && L[i] == u.queue[q];
        assert k > u.base ==> k in C || k in u.queue[..q];
      }
    }
    if u.open {
      forall k: nat | w.first < k <= w.fanned ensures k in D || k in L {
        assert k > u.base ==> k in C || k in u.queue;
      }
    }
  }

  // ----- copies reach the wire -----

  lemma NumsSnoc(cs: seq<Copy>, c: Copy)
    ensures Nums(cs + [c]) == Nums(cs) + [c.seqNo]
  {
  }

  /** Writing a copy whose smaller seqs are all covered keeps the session sound. */
  lemma AppendFlow(w: World, x: Session, c: Copy)
    requires SessionOk(w, x) && PidOk(c, x.inflight, w.acked) && Below(w.first, c.seqNo, Covered(w, x))
    requires Clear(x, c)
    ensures SessionOk(w, x.(flow := x.flow + [c]))
    ensures Covered(w, x.(flow := x.flow + [c])) == Covered(w, x) + {c.seqNo}
  {
    var y := x.(flow := x.flow + [c]);
    NumsSnoc(x.flow, c);
    var L := Nums(x.flow);
    assert Elems(L + [c.seqNo]) == Elems(L) + {c.seqNo};
    forall k: nat | w.first < k < c.seqNo ensures k in Settled(w) || k in L {
      assert k in Covered(w, x);
    }
    ChainSnoc(w.first, L, Settled(w), c.seqNo);
    SubsGrow(w, w, Covered(w, x), Covered(w, y), x);
    assert SubsOk(w, Covered(w, y), y) && TableOk(w, Covered(w, y), y);
    assert PidsOk(w, y);
    IdsMoreFlow(x, c);
  }

  lemma IdsMoreFlow(x: Session, c: Copy)
    requires IdsOk(x) && Clear(x, c)
    ensures IdsOk(x.(flow := x.flow + [c]))
  {
    var y := x.(flow := x.flow + [c]);
    forall d | Clear(x, d) ensures Clear(y, d) { }
  }

  lemma WriteKeepsSession(w: World, x: Session, j: nat)
    requires SessionOk(w, x) && j in x.subs && x.subs[j].hand.Entered?
    ensures var u := x.subs[j];
            SessionOk(w, x.(subs := x.subs[j := u.(hand := Empty)], flow := x.flow + [u.hand.c]))
  {
    var u := x.subs[j];
    var c := u.hand.c;
    var y := x.(flow := x.flow + [c]);
    LineHead(w, Covered(w, x), u);
    AppendFlow(w, x, c);
    HeadDone(w, w, Covered(w, y), Covered(w, y), u);
    PutSubOk(w, y, j, u.(hand := Empty));
  }

  lemma ResendKeepsSession(w: World, x: Session)
    requires SessionOk(w, x) && x.resend != []
    ensures SessionOk(w, x.(flow := x.flow + [x.resend[0]], resend := x.resend[1..]))
  {
    var c := x.resend[0];
    assert c in x.resend;
    AppendFlow(w, x, c);
    var y := x.(flow := x.flow + [c]);
    var z := y.(resend := x.resend[1..]);
    assert forall d | d in z.resend :: d in x.resend;
    assert Covered(w, z) == Covered(w, y);
    IdsShrink(y, z);
    assert SubsOk(w, Covered(w, z), z) && TableOk(w, Covered(w, z), z) && PidsOk(w, z);
  }

  /** A place at which the allocator stops gives an id that no outstanding copy carries, as long as the
      cursor has not lapped a copy outside the inflight table. */
  lemma StopIsFresh(x: Session, place: nat, c: Copy)
    requires StopsAt(x.cursor, x.inflight.Keys, place) && c.place < x.cursor && Recent(c, place, x.inflight)
    ensures Pid(c) != IdAt(place)
  {
    if Pid(c) == IdAt(place) {
      SameIdFullCycle(c.place, place);
    }
  }

  lemma NumberKeepsIds(x: Session, j: nat, place: nat, u: Sub)
    requires IdsOk(x) && StopsAt(x.cursor, x.inflight.Keys, place) && WithinCycle(x, place)
    requires u.hand.Numbered? && u.hand.c.place == place && (j in x.subs ==> !HasCopy(x.subs[j].hand))
    ensures IdsOk(x.(subs := x.subs[j := u], cursor := place + 1))
  {
    var y := x.(subs := x.subs[j := u], cursor := place + 1);
    forall c | Clear(x, c) && Recent(c, place, x.inflight) ensures Clear(y, c) {
      StopIsFresh(x, place, c);
    }
    forall k | k in x.subs && x.subs[k].hand.Numbered? ensures Pid(x.subs[k].hand.c) != IdAt(place) {
      StopIsFresh(x, place, x.subs[k].hand.c);
    }
  }

  lemma NumberKeepsSession(w: World, x: Session, j: nat, place: nat)
    requires SessionOk(w, x) && j in x.subs && x.subs[j].hand.Passed?
    requires StopsAt(x.cursor, x.inflight.Keys, place) && WithinCycle(x, place)
    ensures SessionOk(w, NumberedSession(x, j, place))
  {
    var u := x.subs[j];
    var v := u.(hand := Numbered(Copy(place, u.hand.k)));
    var y := x.(subs := x.subs[j := v], cursor := place + 1);
    NumberKeepsIds(x, j, place, v);
    DeliverySub(w, Covered(w, x), u, v);
    assert Covered(w, y) == Covered(w, x);
    assert PidsOk(w, y) && TableOk(w, Covered(w, y), y) && SubsOk(w, Covered(w, y), y);
  }

  lemma EnterKeepsIds(x: Session, j: nat)
    requires IdsOk(x) && j in x.subs && x.subs[j].hand.Numbered?
    ensures var u := x.subs[j];
            IdsOk(x.(subs := x.subs[j := u.(hand := Entered(u.hand.c))], inflight := x.inflight[Pid(u.hand.c) := u.hand.c]))
  {
    var u := x.subs[j];
    var y := x.(subs := x.subs[j := u.(hand := Entered(u.hand.c))], inflight := x.inflight[Pid(u.hand.c) := u.hand.c]);
    forall c | Clear(x, c) ensures Clear(y, c) { }
    assert Clear(y, u.hand.c);
  }

  /** No other copy in the session carries the id. */
  lemma EnterIsFresh(x: Session, j: nat)
    requires IdsOk(x) && j in x.subs && x.subs[j].hand.Numbered?
    ensures FreshPid(x, Pid(x.subs[j].hand.c))
  {
    forall p | p in x.inflight ensures p != Pid(x.subs[j].hand.c) {
      assert Clear(x, x.inflight[p]);
    }
  }

  predicate FreshPid(x: Session, pid: uint16)
  {
    && pid !in x.inflight
    && (forall c | c in x.flow :: Pid(c) != pid)
    && (forall c | c in x.resend :: Pid(c) != pid)
    && (forall j | j in x.subs && x.subs[j].hand.Entered? :: Pid(x.subs[j].hand.c) != pid)
  }

  lemma EnterKeepsSession(w: World, x: Session, j: nat)
    requires SessionOk(w, x) && j in x.subs && x.subs[j].hand.Numbered?
    ensures var u := x.subs[j];
            SessionOk(w, x.(subs := x.subs[j := u.(hand := Entered(u.hand.c))],
                            inflight := x.inflight[Pid(u.hand.c) := u.hand.c]))
  {
    var u := x.subs[j];
    var c := u.hand.c;
    EnterIsFresh(x, j);
    EnterKeepsIds(x, j);
    LineHead(w, Covered(w, x), u);
    SameLine(w, Covered(w, x), u, u.(hand := Entered(c)));
    var y := x.(subs := x.subs[j := u.(hand := Entered(c))], inflight := x.inflight[Pid(c) := c]);
    assert Covered(w, y) == Covered(w, x);
    assert PidsOk(w, y) && TableOk(w, Covered(w, y), y) && SubsOk(w, Covered(w, y), y);
  }

  lemma SnapshotKeepsSession(w: World, x: Session, pid: uint16)
    requires SessionOk(w, x) && pid in x.inflight
    ensures SessionOk(w, x.(resend := x.resend + [x.inflight[pid]]))
  {
    var y := x.(resend := x.resend + [x.inflight[pid]]);
    assert Covered(w, y) == Covered(w, x);
    forall c | Clear(x, c) ensures Clear(y, c) { }
    assert IdsOk(y);
    assert PidsOk(w, y) && TableOk(w, Covered(w, y), y) && SubsOk(w, Covered(w, y), y);
  }

  // ----- acknowledgements -----

  /** The session after the PUBACK of its oldest copy. */
  function AckSession(x: Session): (y: Session)
    requires 0 < x.read <= |x.flow|
  {
    var pid := Pid(x.flow[0]);
    x.(flow := x.flow[1..], read := x.read - 1, inflight := x.inflight - {pid},
       work := if pid in x.inflight then Saving(x.flow[0].seqNo) else Done)
  }

  function AckWorld(w: World, x: Session): (v: World)
    requires x.flow != []
  {
    if Pid(x.flow[0]) in x.inflight then w.(acked := w.acked + {x.flow[0].seqNo}) else w
  }

  lemma AckPids(w: World, x: Session)
    requires PidsOk(w, x) && 0 < x.read <= |x.flow|
    ensures PidsOk(AckWorld(w, x), AckSession(x)) && x.flow[0].seqNo in AckWorld(w, x).acked
  {
    assert x.flow[0] in x.flow;
    forall c | c in x.flow[1..] ensures c in x.flow { }
  }

  lemma AckCovers(w: World, x: Session)
    requires 0 < x.read <= |x.flow| && x.flow[0].seqNo in AckWorld(w, x).acked
    ensures Covered(w, x) <= Covered(AckWorld(w, x), AckSession(x))
  {
    var L := Nums(x.flow);
    assert Nums(x.flow[1..]) == L[1..];
    assert L == [L[0]] + L[1..];
  }

  lemma AckIds(x: Session)
    requires IdsOk(x) && 0 < x.read <= |x.flow|
    ensures IdsOk(AckSession(x))
  {
    assert forall c | c in x.flow[1..] :: c in x.flow;
    IdsShrink(x, AckSession(x));
  }

  lemma AckSaves(w: World, x: Session)
    requires 0 < x.read <= |x.flow| && Chain(w.first, Nums(x.flow), Settled(w)) && x.flow[0].seqNo in AckWorld(w, x).acked
    ensures WorkOk(AckWorld(w, x), AckSession(x))
  {
    ChainHead(w.first, Nums(x.flow), Settled(w));
    forall k: nat | w.first < k <= x.flow[0].seqNo ensures k in Settled(AckWorld(w, x)) {
      assert k < x.flow[0].seqNo ==> k in Settled(w);
    }
  }

  lemma AckKeepsSession(w: World, x: Session)
    requires SessionOk(w, x) && 0 < x.read <= |x.flow|
    ensures SessionOk(AckWorld(w, x), AckSession(x))
  {
    var v, y := AckWorld(w, x), AckSession(x);
    var L := Nums(x.flow);
    AckPids(w, x);
    AckCovers(w, x);
    assert Nums(x.flow[1..]) == L[1..];
    ChainTail(w.first, L, Settled(w), Settled(v));
    SubsGrow(w, v, Covered(w, x), Covered(v, y), x);
    AckIds(x);
    AckSaves(w, x);
    assert SubsOk(v, Covered(v, y), y) && TableOk(v, Covered(v, y), y);
  }

  // ----- fan-out -----

  lemma SendKeepsSub(w: World, v: World, C: set<nat>, D: set<nat>, u: Sub)
    requires SubOk(w, C, u) && C <= D && v.first == w.first && v.fanned == w.fanned + 1
    requires w.acked <= v.acked && w.skipped <= v.skipped
    requires Full(u) ==> v.fanned in D
    ensures SubOk(v, D, SendTo(u, v.fanned))
  {
    var n, t := v.fanned, SendTo(u, v.fanned);
    assert Settled(w) <= Settled(v);
    var early := !(u.phase.Sending? || u.phase.Live?);
    var lo, L := if early then u.base else w.first, if early then u.queue else Line(u);
    ChainMore(lo, L, C, D);
    if u.open && |u.queue| < SUB_CHAN_SIZE {
      ChainSnoc(lo, L, D, n);
      assert Line(t) == Line(u) + [n];
      assert Reach(lo, n, L + [n], D);
    }
  }

  lemma SendKeepsSession(w: World, v: World, x: Session)
    requires SessionOk(w, x) && v.first == w.first && v.fanned == w.fanned + 1
    requires w.acked == v.acked && w.skipped <= v.skipped
    requires (exists j | j in x.subs :: Full(x.subs[j])) ==> v.fanned in v.skipped
    ensures SessionOk(v, SendToSession(x, v.fanned))
  {
    var y := SendToSession(x, v.fanned);
    ChainMore(w.first, Nums(x.flow), Settled(w), Settled(v));
    forall j | j in y.subs ensures SubOk(v, Covered(v, y), y.subs[j]) {
      SendKeepsSub(w, v, Covered(w, x), Covered(v, y), x.subs[j]);
    }
    assert PidsOk(v, y);
    IdsShrink(x, y);
    if x.work.Saving? {
      ThroughMore(w.first, x.work.k, Settled(w), Settled(v));
    }
    var C, D := Covered(w, x), Covered(v, y);
    assert C <= D;
    assert TableOk(v, D, y);
  }

  // ----- every step keeps the invariant -----

  /** All sessions stay sound when only one of them changes and the rest of the world grows. */
  lemma OneSession(s: State, t: State, i: nat)
    requires Inv(s) && PubOk(t) && OffsetOk(t) && Extends(WorldOf(s), WorldOf(t))
    requires forall n | n in t.sessions && n != i :: n in s.sessions && t.sessions[n] == s.sessions[n]
    requires i in t.sessions ==> SessionOk(WorldOf(t), t.sessions[i])
    ensures Inv(t)
  {
    forall n | n in t.sessions ensures SessionOk(WorldOf(t), t.sessions[n]) {
      if n != i {
        SessionGrows(WorldOf(s), WorldOf(t), s.sessions[n]);
      }
    }
  }

  lemma PublisherKeepsInv(s: State, a: Action)
    requires Inv(s) && Enabled(s, a) && Disciplined(s, a) && (a.Allocate? || a.Store? || a.SaveSeq?)
    ensures Inv(Step(s, a))
  {
    var t := Step(s, a);
    assert PubOk(t) by {
      if a.Store? {
        assert a.n in s.pubs.Keys;
        assert Between(0, s.counter) == Between(0, s.counter - 1) + {s.counter};
      } else if a.SaveSeq? {
        assert a.n in s.pubs.Keys;
      }
    }
    assert WorldOf(t) == WorldOf(s);
  }

  lemma FanOutKeepsInv(s: State, n: nat)
    requires Inv(s) && Enabled(s, FanOut(n))
    ensures Inv(Step(s, FanOut(n)))
  {
    var t := Step(s, FanOut(n));
    assert n in s.pubs.Keys;
    assert t.pubs == map[];
    var w, v := WorldOf(s), WorldOf(t);
    assert v.fanned == n == w.fanned + 1;
    ThroughMore(s.first, s.offset, s.acked + s.skipped, t.acked + t.skipped);
    forall i | i in t.sessions ensures SessionOk(v, t.sessions[i]) {
      SendKeepsSession(w, v, s.sessions[i]);
    }
  }

  lemma NewSessionOk(w: World, conn: nat)
    ensures SessionOk(w, NewSession(conn))
  {
  }

  lemma ConnectKeepsInv(s: State, i: nat)
    requires Inv(s) && Enabled(s, Connect(i))
    ensures Inv(Step(s, Connect(i)))
  {
    NewSessionOk(WorldOf(s), |s.streams|);
    SessionKeepsInv(s, Step(s, Connect(i)), i, NewSession(|s.streams|));
  }

  lemma DisconnectKeepsInv(s: State, i: nat)
    requires Inv(s) && Enabled(s, Disconnect(i))
    ensures Inv(Step(s, Disconnect(i)))
  {
    var t := Step(s, Disconnect(i));
    assert WorldOf(t) == WorldOf(s);
    forall n | n in t.sessions ensures SessionOk(WorldOf(t), t.sessions[n]) {
      SessionInInv(s, n);
    }
  }

  /** A step that only replaces one subscription. */
  lemma SubKeepsInv(s: State, i: nat, j: nat, u: Sub)
    requires Inv(s) && i in s.sessions && SubOk(WorldOf(s), Covered(WorldOf(s), s.sessions[i]), u)
    requires HasCopy(u.hand) ==> j in s.sessions[i].subs && u.hand == SubOf(s, i, j).hand
    ensures Inv(PutSub(s, i, j, u))
  {
    SessionInInv(s, i);
    PutSubOk(WorldOf(s), s.sessions[i], j, u);
    SessionKeepsInv(s, PutSub(s, i, j, u), i, s.sessions[i].(subs := s.sessions[i].subs[j := u]));
  }

  lemma RegisterKeepsInv(s: State, i: nat, j: nat)
    requires Inv(s) && Enabled(s, Register(i, j))
    ensures Inv(Step(s, Register(i, j)))
  {
    SubKeepsInv(s, i, j, Sub(Registered, [], Empty, [], true, Fanned(s)));
  }

  lemma UnsubscribeKeepsInv(s: State, i: nat, j: nat)
    requires Inv(s) && Enabled(s, Unsubscribe(i, j))
    ensures Inv(Step(s, Unsubscribe(i, j)))
  {
    var u := SubOf(s, i, j);
    SubInInv(s, i, j);
    assert Line(u.(open := false)) == Line(u);
    SubKeepsInv(s, i, j, u.(open := false));
  }

  lemma ReadOffsetKeepsInv(s: State, i: nat, j: nat)
    requires Inv(s) && Enabled(s, ReadOffset(i, j))
    ensures Inv(Step(s, ReadOffset(i, j)))
  {
    SubInInv(s, i, j);
    SubKeepsInv(s, i, j, SubOf(s, i, j).(phase := OffsetRead(s.offset)));
  }

  lemma SeqReadKeepsSub(w: World, C: set<nat>, u: Sub, counter: nat)
    requires SubOk(w, C, u) && u.phase.OffsetRead? && Settled(w) <= C && w.fanned <= counter
    ensures SubOk(w, C, SeqReadSub(u, counter)) && SeqReadSub(u, counter).hand == u.hand
  {
    if u.phase.from >= counter {
      StartSending(w, w, C, C, u, u.phase.from, u.phase.from, []);
      assert u.(phase := Sending, todo := []) == u.(phase := Sending);
    }
  }

  lemma ReadSeqKeepsInv(s: State, i: nat, j: nat)
    requires Inv(s) && Enabled(s, ReadSeq(i, j))
    ensures Inv(Step(s, ReadSeq(i, j)))
  {
    SubInInv(s, i, j);
    SeqReadKeepsSub(WorldOf(s), Covered(WorldOf(s), s.sessions[i]), SubOf(s, i, j), s.counter);
    SubKeepsInv(s, i, j, SeqReadSub(SubOf(s, i, j), s.counter));
  }

  /** How many records are on disk. */
  function StoredUpTo(s: State): (m: nat)
    requires PubOk(s)
    ensures s.stored == Between(0, m) && Fanned(s) <= m <= s.counter
  {
    if s.pubs != map[] && s.pubs[s.counter] == Allocated then s.counter - 1 else s.counter
  }

  /** The world after a scan from offset o by a channel registered at `base`. */
  function ScanWorld(w: World, o: nat, base: nat): (v: World)
    ensures Extends(w, v)
  {
    w.(skipped := w.skipped + Between(o + CATCH_UP_LIMIT, base))
  }

  lemma ScanSub(w: World, x: Session, u: Sub, m: nat, counter: nat)
    requires SubOk(w, Covered(w, x), u) && u.phase.SeqRead? && u.base <= m <= counter
    ensures var v := ScanWorld(w, u.phase.from, u.base);
            SubOk(v, Covered(v, x), Scanned(u, Between(0, m), counter))
  {
    var o, v := u.phase.from, ScanWorld(w, u.phase.from, u.base);
    var C, D := Covered(w, x), Covered(v, x);
    var e := if m < o + CATCH_UP_LIMIT then m else o + CATCH_UP_LIMIT;
    ScanIsConsecutive(m, counter, o + 1, CATCH_UP_LIMIT);
    forall k: nat | o < k <= u.base ensures k <= e || k in D {
      assert k > e ==> k in Between(o + CATCH_UP_LIMIT, u.base);
    }
    StartSending(w, v, C, D, u, o, e, FirstFrom(Between(0, m), o + 1, counter, CATCH_UP_LIMIT));
  }

  lemma ScanSession(w: World, x: Session, j: nat, m: nat, counter: nat)
    requires SessionOk(w, x) && j in x.subs && x.subs[j].phase.SeqRead? && w.fanned <= m <= counter
    ensures SessionOk(ScanWorld(w, x.subs[j].phase.from, x.subs[j].base),
                      x.(subs := x.subs[j := Scanned(x.subs[j], Between(0, m), counter)]))
  {
    var u := x.subs[j];
    var v := ScanWorld(w, u.phase.from, u.base);
    assert SubOk(w, Covered(w, x), u);
    ScanSub(w, x, u, m, counter);
    SessionGrows(w, v, x);
    PutSubOk(v, x, j, Scanned(u, Between(0, m), counter));
  }

  /** One session changes and more is skipped. */
  lemma SkippingKeepsInv(s: State, t: State, i: nat, y: Session)
    requires Inv(s) && t == s.(sessions := s.sessions[i := y], skipped := t.skipped) && s.skipped <= t.skipped
    requires SessionOk(WorldOf(t), y)
    ensures Inv(t)
  {
    ThroughMore(s.first, s.offset, s.acked + s.skipped, t.acked + t.skipped);
    OneSession(s, t, i);
  }

  lemma ScanShape(s: State, i: nat, j: nat)
    requires PubOk(s) && Enabled(s, Scan(i, j))
    ensures var t, x, u := Step(s, Scan(i, j)), s.sessions[i], SubOf(s, i, j);
            && s.skipped <= t.skipped && WorldOf(t) == ScanWorld(WorldOf(s), u.phase.from, u.base)
            && t == s.(sessions := s.sessions[i := x.(subs := x.subs[j := Scanned(u, Between(0, StoredUpTo(s)), s.counter)])],
                       skipped := t.skipped)
  {
  }

  lemma ScanKeepsInv(s: State, i: nat, j: nat)
    requires Inv(s) && Enabled(s, Scan(i, j))
    ensures Inv(Step(s, Scan(i, j)))
  {
    var x, u, t, m := s.sessions[i], SubOf(s, i, j), Step(s, Scan(i, j)), StoredUpTo(s);
    SessionInInv(s, i);
    ScanSession(WorldOf(s), x, j, m, s.counter);
    ScanShape(s, i, j);
    SkippingKeepsInv(s, t, i, x.(subs := x.subs[j := Scanned(u, Between(0, m), s.counter)]));
  }

  lemma DeliverySub(w: World, C: set<nat>, u: Sub, v: Sub)
    requires SubOk(w, C, u) && (u.phase.Sending? || u.phase.Live?)
    requires
      || (u.hand.Empty? && u.todo != [] && v == u.(hand := Passed(u.todo[0]), todo := u.todo[1..]))
      || (u.hand.Empty? && u.todo == [] && v == u.(phase := Live))
      || (u.hand.Empty? && u.phase.Live? && u.queue != [] && v == u.(hand := Got(u.queue[0]), queue := u.queue[1..]))
      || (u.hand.Passed? && v.hand.Numbered? && v.hand.c.seqNo == u.hand.k && v == u.(hand := v.hand))
    ensures SubOk(w, C, v)
  {
    assert Line(v) == Line(u);
    SameLine(w, C, u, v);
  }

  lemma SessionInInv(s: State, i: nat)
    requires Inv(s) && i in s.sessions
    ensures SessionOk(WorldOf(s), s.sessions[i]) && PidsOk(WorldOf(s), s.sessions[i])
  {
  }

  lemma SubInInv(s: State, i: nat, j: nat)
    requires Inv(s) && HasSub(s, i, j)
    ensures SubOk(WorldOf(s), Covered(WorldOf(s), s.sessions[i]), SubOf(s, i, j))
  {
  }

  lemma TakeCatchUpKeepsInv(s: State, i: nat, j: nat)
    requires Inv(s) && Enabled(s, TakeCatchUp(i, j))
    ensures Inv(Step(s, TakeCatchUp(i, j)))
  {
    SubInInv(s, i, j);
    DeliverySub(WorldOf(s), Covered(WorldOf(s), s.sessions[i]), SubOf(s, i, j), TakenSub(SubOf(s, i, j)));
    SubKeepsInv(s, i, j, TakenSub(SubOf(s, i, j)));
  }

  lemma GoLiveKeepsInv(s: State, i: nat, j: nat)
    requires Inv(s) && Enabled(s, GoLive(i, j))
    ensures Inv(Step(s, GoLive(i, j)))
  {
    var u := SubOf(s, i, j);
    var v := u.(phase := Live);
    SubInInv(s, i, j);
    DeliverySub(WorldOf(s), Covered(WorldOf(s), s.sessions[i]), u, v);
    SubKeepsInv(s, i, j, v);
  }

  lemma ReceiveKeepsInv(s: State, i: nat, j: nat)
    requires Inv(s) && Enabled(s, Receive(i, j))
    ensures Inv(Step(s, Receive(i, j)))
  {
    SubInInv(s, i, j);
    DeliverySub(WorldOf(s), Covered(WorldOf(s), s.sessions[i]), SubOf(s, i, j), ReceivedSub(SubOf(s, i, j)));
    SubKeepsInv(s, i, j, ReceivedSub(SubOf(s, i, j)));
  }

  lemma CheckKeepsSub(w: World, C: set<nat>, u: Sub, offset: nat)
    requires SubOk(w, C, u) && u.hand.Got? && Settled(w) <= C && Through(w.first, offset, Settled(w))
    ensures SubOk(w, C, CheckedSub(u, offset)) && !HasCopy(CheckedSub(u, offset).hand)
  {
    if u.hand.k <= offset {
      ThroughMore(w.first, offset, Settled(w), C);
      HeadDone(w, w, C, C, u);
    } else {
      SameLine(w, C, u, u.(hand := Passed(u.hand.k)));
    }
  }

  lemma CheckOffsetKeepsInv(s: State, i: nat, j: nat)
    requires Inv(s) && Enabled(s, CheckOffset(i, j))
    ensures Inv(Step(s, CheckOffset(i, j)))
  {
    SubInInv(s, i, j);
    CheckKeepsSub(WorldOf(s), Covered(WorldOf(s), s.sessions[i]), SubOf(s, i, j), s.offset);
    SubKeepsInv(s, i, j, CheckedSub(SubOf(s, i, j), s.offset));
  }

  /** A step that only replaces one session. */
  lemma SessionKeepsInv(s: State, t: State, i: nat, y: Session)
    requires Inv(s) && SessionOk(WorldOf(s), y)
    requires t == PutSession(s, i, y).(handled := t.handled, streams := t.streams)
    ensures Inv(t)
  {
    OneSession(s, t, i);
  }

  lemma NumberKeepsInv(s: State, i: nat, j: nat, place: nat)
    requires Inv(s) && Enabled(s, Number(i, j, place)) && WithinCycle(s.sessions[i], place)
    ensures Inv(Step(s, Number(i, j, place)))
  {
    var x, t := s.sessions[i], Step(s, Number(i, j, place));
    NumberInSession(WorldOf(s), x, j, place, x.inflight.Keys);
    NumberShape(s, i, j, place);
    SessionKeepsInv(s, t, i, NumberedSession(x, j, place));
  }

  lemma NumberInSession(w: World, x: Session, j: nat, place: nat, used: set<uint16>)
    requires SessionOk(w, x) && j in x.subs && x.subs[j].hand.Passed? && used == x.inflight.Keys
    requires StopsAt(x.cursor, used, place) && WithinCycle(x, place)
    ensures SessionOk(w, NumberedSession(x, j, place))
  {
    NumberKeepsSession(w, x, j, place);
  }

  lemma NumberShape(s: State, i: nat, j: nat, place: nat)
    requires Enabled(s, Number(i, j, place))
    ensures Step(s, Number(i, j, place)) == PutSession(s, i, NumberedSession(s.sessions[i], j, place))
  {
  }

  lemma EnterKeepsInv(s: State, i: nat, j: nat)
    requires Inv(s) && Enabled(s, Enter(i, j))
    ensures Inv(Step(s, Enter(i, j)))
  {
    var x, u := s.sessions[i], SubOf(s, i, j);
    var c := u.hand.c;
    SessionInInv(s, i);
    EnterKeepsSession(WorldOf(s), x, j);
    SessionKeepsInv(s, Step(s, Enter(i, j)), i,
                    x.(subs := x.subs[j := u.(hand := Entered(c))], inflight := x.inflight[Pid(c) := c]));
  }

  lemma WriteKeepsInv(s: State, i: nat, j: nat)
    requires Inv(s) && Enabled(s, Write(i, j))
    ensures Inv(Step(s, Write(i, j)))
  {
    var x, u := s.sessions[i], SubOf(s, i, j);
    WriteKeepsSession(WorldOf(s), x, j);
    SessionKeepsInv(s, Step(s, Write(i, j)), i,
                    x.(subs := x.subs[j := u.(hand := Empty)], flow := x.flow + [u.hand.c]));
  }

  lemma SnapshotKeepsInv(s: State, i: nat, pid: uint16)
    requires Inv(s) && Enabled(s, Snapshot(i, pid))
    ensures Inv(Step(s, Snapshot(i, pid)))
  {
    var x := s.sessions[i];
    SnapshotKeepsSession(WorldOf(s), x, pid);
    SessionKeepsInv(s, Step(s, Snapshot(i, pid)), i, x.(resend := x.resend + [x.inflight[pid]]));
  }

  lemma ResendKeepsInv(s: State, i: nat)
    requires Inv(s) && Enabled(s, Resend(i))
    ensures Inv(Step(s, Resend(i)))
  {
    var x := s.sessions[i];
    ResendKeepsSession(WorldOf(s), x);
    SessionKeepsInv(s, Step(s, Resend(i)), i, x.(flow := x.flow + [x.resend[0]], resend := x.resend[1..]));
  }

  lemma ReadKeepsSession(w: World, x: Session)
    requires SessionOk(w, x) && x.read < |x.flow|
    ensures SessionOk(w, ReadSession(x))
  {
    var y := ReadSession(x);
    IdsShrink(x, y);
    assert Covered(w, y) == Covered(w, x);
    assert PidsOk(w, y);
    assert TableOk(w, Covered(w, y), y);
    assert SubsOk(w, Covered(w, y), y);
  }

  lemma ReadKeepsInv(s: State, i: nat)
    requires Inv(s) && Enabled(s, Read(i))
    ensures Inv(Step(s, Read(i)))
  {
    ReadKeepsSession(WorldOf(s), s.sessions[i]);
    SessionKeepsInv(s, Step(s, Read(i)), i, ReadSession(s.sessions[i]));
  }

  /** What the PUBACK of the oldest copy does to the broker. */
  lemma AckShape(s: State, i: nat)
    requires Enabled(s, Ack(i, 0)) && PidOk(s.sessions[i].flow[0], s.sessions[i].inflight, s.acked)
    ensures var t, x := Step(s, Ack(i, 0)), s.sessions[i];
            && t == s.(sessions := s.sessions[i := AckSession(x)], acked := t.acked)
            && WorldOf(t) == AckWorld(WorldOf(s), x)
  {
    var x := s.sessions[i];
    assert x.flow[..0] + x.flow[1..] == x.flow[1..];
  }

  lemma AckTurns(s: State, i: nat)
    requires Inv(s) && Enabled(s, Ack(i, 0))
    ensures var t, x := Step(s, Ack(i, 0)), s.sessions[i];
            && t == s.(sessions := s.sessions[i := AckSession(x)], acked := t.acked)
            && s.acked <= t.acked && SessionOk(WorldOf(t), AckSession(x))
  {
    SessionInInv(s, i);
    assert s.sessions[i].flow[0] in s.sessions[i].flow;
    AckShape(s, i);
    AckKeepsSession(WorldOf(s), s.sessions[i]);
  }

  /** One session changes and more is acknowledged. */
  lemma AckGrows(s: State, t: State, i: nat, y: Session)
    requires Inv(s) && t == s.(sessions := s.sessions[i := y], acked := t.acked) && s.acked <= t.acked
    requires SessionOk(WorldOf(t), y)
    ensures Inv(t)
  {
    ThroughMore(s.first, s.offset, s.acked + s.skipped, t.acked + t.skipped);
    OneSession(s, t, i);
  }

  lemma AckKeepsInv(s: State, i: nat)
    requires Inv(s) && Enabled(s, Ack(i, 0))
    ensures Inv(Step(s, Ack(i, 0)))
  {
    AckTurns(s, i);
    AckGrows(s, Step(s, Ack(i, 0)), i, AckSession(s.sessions[i]));
  }

  lemma SavedSession(w: World, x: Session)
    requires SessionOk(w, x) && x.work.Saving?
    ensures SessionOk(w, x.(work := Done)) && Through(w.first, x.work.k, Settled(w))
  {
    var y := x.(work := Done);
    IdsShrink(x, y);
    assert Covered(w, y) == Covered(w, x);
    assert PidsOk(w, y) && TableOk(w, Covered(w, y), y) && SubsOk(w, Covered(w, y), y);
  }

  lemma CursorMoves(w: World, x: Session, places: nat)
    requires SessionOk(w, x)
    ensures SessionOk(w, MovedSession(x, places))
  {
    var y := MovedSession(x, places);
    forall c | Clear(x, c) ensures Clear(y, c) { }
    assert IdsOk(y);
    assert Covered(w, y) == Covered(w, x);
    assert PidsOk(w, y) && TableOk(w, Covered(w, y), y) && SubsOk(w, Covered(w, y), y);
  }

  lemma OtherTopicsKeepInv(s: State, i: nat, places: nat)
    requires Inv(s) && Enabled(s, OtherTopics(i, places))
    ensures Inv(Step(s, OtherTopics(i, places)))
  {
    CursorMoves(WorldOf(s), s.sessions[i], places);
    SessionKeepsInv(s, Step(s, OtherTopics(i, places)), i, MovedSession(s.sessions[i], places));
  }

  /** A PUBACK for an id that is not in the table changes nothing. */
  lemma StrayAckIsIgnored(s: State, i: nat, place: nat)
    requires Enabled(s, StrayAck(i, place)) && IdAt(place) !in s.sessions[i].inflight
    ensures Step(s, StrayAck(i, place)) == s
  {
    var y, pid := s.sessions[i], IdAt(place);
    assert y.inflight - {pid} == y.inflight;
    assert Taken(y, pid) == y;
    assert s.sessions[i := y] == s.sessions;
    assert s.acked + {} == s.acked;
  }

  lemma OffsetMoves(s: State, k: nat)
    requires Inv(s) && Through(s.first, k, Settled(WorldOf(s)))
    ensures Inv(s.(offset := k))
  {
    assert WorldOf(s.(offset := k)) == WorldOf(s);
  }

  lemma SaveOffsetKeepsInv(s: State, i: nat)
    requires Inv(s) && Enabled(s, SaveOffset(i))
    ensures Inv(Step(s, SaveOffset(i)))
  {
    var x := s.sessions[i];
    SavedSession(WorldOf(s), x);
    OffsetMoves(s, x.work.k);
    SessionKeepsInv(s.(offset := x.work.k), Step(s, SaveOffset(i)), i, x.(work := Done));
  }

  lemma StepKeepsInv(s: State, a: Action)
    requires Inv(s) && Enabled(s, a) && Disciplined(s, a)
    ensures Inv(Step(s, a))
  {
    if a.Register? {
      RegisterKeepsInv(s, a.i, a.j);
    } else if a.Unsubscribe? {
      UnsubscribeKeepsInv(s, a.i, a.j);
    } else if a.ReadOffset? {
      ReadOffsetKeepsInv(s, a.i, a.j);
    } else if a.ReadSeq? {
      ReadSeqKeepsInv(s, a.i, a.j);
    } else if a.Scan? {
      ScanKeepsInv(s, a.i, a.j);
    } else if a.TakeCatchUp? {
      TakeCatchUpKeepsInv(s, a.i, a.j);
    } else if a.GoLive? {
      GoLiveKeepsInv(s, a.i, a.j);
    } else if a.Receive? {
      ReceiveKeepsInv(s, a.i, a.j);
    } else if a.CheckOffset? {
      CheckOffsetKeepsInv(s, a.i, a.j);
    } else if a.Number? {
      NumberKeepsInv(s, a.i, a.j, a.place);
    } else if a.Enter? {
      EnterKeepsInv(s, a.i, a.j);
    } else if a.Write? {
      WriteKeepsInv(s, a.i, a.j);
    } else if a.Snapshot? {
      SnapshotKeepsInv(s, a.i, a.pid);
    } else if a.Resend? {
      ResendKeepsInv(s, a.i);
    } else if a.Read? {
      ReadKeepsInv(s, a.i);
    } else if a.Ack? {
      AckKeepsInv(s, a.i);
    } else if a.SaveOffset? {
      SaveOffsetKeepsInv(s, a.i);
    } else if a.OtherTopics? {
      OtherTopicsKeepInv(s, a.i, a.places);
    } else if a.StrayAck? {
      StrayAckIsIgnored(s, a.i, a.place);
    } else if a.FanOut? {
      FanOutKeepsInv(s, a.n);
    } else if a.Connect? {
      ConnectKeepsInv(s, a.i);
    } else if a.Disconnect? {
      DisconnectKeepsInv(s, a.i);
    } else {
      PublisherKeepsInv(s, a);
    }
  }
}
