/** The hand-over from catch-up to live delivery at QoS 0. One topic with its (serialised) publisher
    and one subscription run step by step, in every interleaving, through the code's own atomic
    points: counter add, record write, seq-key write, fan-out under the read lock; channel
    registration, offset read, seq read, log scan, each socket write, each offset write, each
    channel receive. */
module HandOver {
  import opened Common

  type Record = seq<int>

  datatype Message = Message(seqNo: nat, rec: Record)

  datatype PubStage = Idle | Allocated(rec: Record) | Stored | SeqSaved

  datatype Phase = Unregistered | Registered | OffsetRead | SeqRead | Sending | Live

  /** The message a delivery goroutine holds: just received, past the offset check, or written to
      the socket with its offset still to be stored. */
  datatype Hand = Empty | Got(m: Message) | Passed(m: Message) | Written(m: Message)

  /** `log[k-1]` is the record of seq k. `start`, `registeredAt`, `end`, `taken` and `dropped` record
      what happened: the offset read at subscribe time, the last seq fanned out before registration,
      the last seq the catch-up covers, the messages received so far, and the seqs dropped on a full
      channel. */
  datatype State = State(
    log: seq<Record>, counter: nat, pub: PubStage, offset: nat,
    phase: Phase, todo: seq<Message>, hand: Hand, queue: seq<Message>, delivered: seq<Message>,
    start: nat, registeredAt: nat, end: nat, taken: seq<Message>, dropped: set<nat>)

  function Init(log: seq<Record>, offset: nat): (s: State)
  {
    State(log, |log|, Idle, offset, Unregistered, [], Empty, [], [], 0, 0, 0, [], {})
  }

  /** The messages of seqs lo+1..hi that are not in `skip`, in order. */
  function Messages(log: seq<Record>, lo: nat, hi: nat, skip: set<nat>): (ms: seq<Message>)
    requires hi <= |log|
    decreases hi
  {
    if hi <= lo then []
    else Messages(log, lo, hi - 1, skip) + if hi in skip then [] else [Message(hi, log[hi - 1])]
  }

  /** The log records above `lo`, up to `hi`. */
  function Slice(log: seq<Record>, lo: nat, hi: nat): (ms: seq<Message>)
    requires hi <= |log|
  {
    Messages(log, lo, hi, {})
  }

  /** The messages with a seq above e. */
  function Above(ms: seq<Message>, e: nat): (r: seq<Message>)
  {
    if ms == [] then []
    else
      var last := ms[|ms| - 1];
      Above(ms[..|ms| - 1], e) + if last.seqNo > e then [last] else []
  }

  function Min(a: nat, b: nat): (m: nat)
  {
    if a < b then a else b
  }

  /** The last seq that has been fanned out. */
  function Fanned(s: State): (n: nat)
  {
    if (s.pub.Stored? || s.pub.SeqSaved?) && s.log != [] then |s.log| - 1 else |s.log|
  }

  datatype Action =
    | Allocate(rec: Record) | Store | SaveSeq | FanOut
    | Register | ReadOffset | ReadSeq | Scan
    | TakeCatchUp | GoLive | Receive | CheckOffset | Write | SetOffset

  predicate Enabled(s: State, a: Action)
  {
    match a
    case Allocate(_) => s.pub.Idle?
    case Store => s.pub.Allocated?
    case SaveSeq => s.pub.Stored?
    case FanOut => s.pub.SeqSaved? && s.log != []
    case Register => s.phase.Unregistered?
    case ReadOffset => s.phase.Registered?
    case ReadSeq => s.phase.OffsetRead?
    case Scan => s.phase.SeqRead?
    case TakeCatchUp => s.phase.Sending? && s.hand.Empty? && s.todo != []
    case GoLive => s.phase.Sending? && s.hand.Empty? && s.todo == []
    case Receive => s.phase.Live? && s.hand.Empty? && s.queue != []
    case CheckOffset => s.hand.Got?
    case Write => s.hand.Passed?
    case SetOffset => s.hand.Written?
  }

  function Send(s: State, m: Message): (r: State)
  {
    if s.phase.Unregistered? then s
    else if |s.queue| < SUB_CHAN_SIZE then s.(queue := s.queue + [m])
    else s.(dropped := s.dropped + {m.seqNo})
  }

  function Step(s: State, a: Action): (r: State)
    requires Enabled(s, a)
  {
    match a
    case Allocate(rec) => s.(counter := s.counter + 1, pub := Allocated(rec))
    case Store => s.(log := s.log + [s.pub.rec], pub := Stored)
    case SaveSeq => s.(pub := SeqSaved)
    case FanOut => Send(s, Message(|s.log|, s.log[|s.log| - 1])).(pub := Idle)
    case Register => s.(phase := Registered, registeredAt := Fanned(s))
    case ReadOffset => s.(phase := OffsetRead, start := s.offset, end := s.offset)
    case ReadSeq => s.(phase := if s.start < s.counter then SeqRead else Sending)
    case Scan =>
      var e := Min(s.start + CATCH_UP_LIMIT, |s.log|);
      s.(phase := Sending, end := e, todo := Slice(s.log, s.start, e))
    case TakeCatchUp => s.(hand := Passed(s.todo[0]), todo := s.todo[1..])
    case GoLive => s.(phase := Live)
    case Receive => s.(hand := Got(s.queue[0]), queue := s.queue[1..], taken := s.taken + [s.queue[0]])
    case CheckOffset => s.(hand := if s.hand.m.seqNo <= s.offset then Empty else Passed(s.hand.m))
    case Write => s.(hand := Written(s.hand.m), delivered := s.delivered + [s.hand.m])
    case SetOffset => s.(hand := Empty, offset := s.hand.m.seqNo)
  }

  predicate Possible(s: State, actions: seq<Action>)
    decreases |actions|
  {
    actions == [] || (Enabled(s, actions[0]) && Possible(Step(s, actions[0]), actions[1..]))
  }

  function Run(s: State, actions: seq<Action>): (r: State)
    requires Possible(s, actions)
    decreases |actions|
  {
    if actions == [] then s else Run(Step(s, actions[0]), actions[1..])
  }

  // ----- facts about Messages and Above -----

  lemma Associative(a: seq<Message>, b: seq<Message>, c: seq<Message>)
    ensures a + (b + c) == (a + b) + c
  {
  }

  lemma FrontOf(a: seq<Message>, m: Message)
    ensures (a + [m])[..|a|] == a && (a + [m])[|a|] == m
  {
  }

  lemma EmptyIsUnit(a: seq<Message>)
    ensures a + [] == a
  {
  }

  lemma {:induction false} MessagesStable(log: seq<Record>, rec: Record, lo: nat, hi: nat, skip: set<nat>, k: nat)
    requires hi <= |log| && hi < k
    ensures Messages(log + [rec], lo, hi, skip) == Messages(log, lo, hi, skip)
    ensures Messages(log, lo, hi, skip + {k}) == Messages(log, lo, hi, skip)
    decreases hi
  {
    if hi > lo {
      MessagesStable(log, rec, lo, hi - 1, skip, k);
      assert (log + [rec])[hi - 1] == log[hi - 1];
    }
  }

  predicate Ascending(ms: seq<Message>)
  {
    forall i, j :: 0 <= i < j < |ms| ==> ms[i].seqNo < ms[j].seqNo
  }

  /** Messages are ascending, lie in (lo, hi] and carry the log's records. */
  lemma {:induction false} MessagesFacts(log: seq<Record>, lo: nat, hi: nat, skip: set<nat>)
    requires hi <= |log|
    ensures Ascending(Messages(log, lo, hi, skip)) && FromLog(log, lo, Messages(log, lo, hi, skip))
    ensures UpTo(Messages(log, lo, hi, skip), hi)
    decreases hi
  {
    if hi > lo {
      MessagesFacts(log, lo, hi - 1, skip);
      var front := Messages(log, lo, hi - 1, skip);
      if hi in skip {
        UpToMore(front, hi);
      } else {
        SnocOrdered(log, lo, front, Message(hi, log[hi - 1]));
      }
    }
  }

  lemma UpToMore(ms: seq<Message>, hi: nat)
    requires hi > 0 && UpTo(ms, hi - 1)
    ensures UpTo(ms, hi) && ms + [] == ms
  {
  }

  predicate UpTo(ms: seq<Message>, hi: nat)
  {
    forall i :: 0 <= i < |ms| ==> ms[i].seqNo <= hi
  }

  lemma SnocOrdered(log: seq<Record>, lo: nat, ms: seq<Message>, m: Message)
    requires Ascending(ms) && FromLog(log, lo, ms) && m.seqNo > 0 && UpTo(ms, m.seqNo - 1)
    requires lo < m.seqNo <= |log| && m.rec == log[m.seqNo - 1]
    ensures Ascending(ms + [m]) && FromLog(log, lo, ms + [m]) && UpTo(ms + [m], m.seqNo)
  {
  }

  /** They miss exactly `skip`. */
  lemma {:induction false} MessagesSeqs(log: seq<Record>, lo: nat, hi: nat, skip: set<nat>)
    requires hi <= |log|
    ensures Seqs(Messages(log, lo, hi, skip)) == Range(lo, hi, skip)
    decreases hi
  {
    if hi > lo {
      MessagesSeqs(log, lo, hi - 1, skip);
      var front := Messages(log, lo, hi - 1, skip);
      RangeSnoc(lo, hi, skip);
      if hi in skip {
        assert Messages(log, lo, hi, skip) == front;
      } else {
        SeqsSnoc(front, Message(hi, log[hi - 1]));
      }
    }
  }

  lemma RangeSnoc(lo: nat, hi: nat, skip: set<nat>)
    requires lo < hi
    ensures Range(lo, hi, skip) == Range(lo, hi - 1, skip) + if hi in skip then {} else {hi}
  {
  }

  function Range(lo: nat, hi: nat, skip: set<nat>): (r: set<nat>)
  {
    set k: nat | lo < k <= hi && k !in skip
  }

  /** Every message of the list is the log's record of its seq, above `lo`. */
  predicate FromLog(log: seq<Record>, lo: nat, ms: seq<Message>)
  {
    forall i :: 0 <= i < |ms| ==> lo < ms[i].seqNo <= |log| && ms[i].rec == log[ms[i].seqNo - 1]
  }

  /** The seqs of a list of messages. */
  function Seqs(ms: seq<Message>): (r: set<nat>)
  {
    if ms == [] then {} else Seqs(ms[..|ms| - 1]) + {ms[|ms| - 1].seqNo}
  }

  lemma SeqsSnoc(ms: seq<Message>, m: Message)
    ensures Seqs(ms + [m]) == Seqs(ms) + {m.seqNo}
  {
    assert (ms + [m])[..|ms|] == ms;
  }

  lemma {:induction false} SeqsHas(ms: seq<Message>, k: nat)
    ensures k in Seqs(ms) <==> exists i :: 0 <= i < |ms| && ms[i].seqNo == k
  {
    if ms != [] {
      var front := ms[..|ms| - 1];
      SeqsHas(front, k);
      if i :| 0 <= i < |ms| - 1 && ms[i].seqNo == k { assert front[i].seqNo == k; }
    }
  }

  lemma AboveSnoc(ms: seq<Message>, m: Message, e: nat)
    ensures Above(ms + [m], e) == Above(ms, e) + if m.seqNo > e then [m] else []
  {
    assert (ms + [m])[..|ms|] == ms;
  }

  lemma {:induction false} AboveMembers(ms: seq<Message>, e: nat)
    ensures forall i :: 0 <= i < |Above(ms, e)| ==> Above(ms, e)[i] in ms && Above(ms, e)[i].seqNo > e
  {
    if ms != [] {
      var n := |ms| - 1;
      AboveMembers(ms[..n], e);
      assert ms == ms[..n] + [ms[n]];
    }
  }

  function Beyond(ks: set<nat>, e: nat): (r: set<nat>)
  {
    set k | k in ks && k > e
  }

  lemma BeyondAdd(ks: set<nat>, k: nat, e: nat)
    ensures Beyond(ks + {k}, e) == if k > e then Beyond(ks, e) + {k} else Beyond(ks, e)
  {
  }

  lemma {:induction false} AboveSeqs(ms: seq<Message>, e: nat)
    ensures Seqs(Above(ms, e)) == Beyond(Seqs(ms), e)
  {
    if ms != [] {
      var n := |ms| - 1;
      var front := Above(ms[..n], e);
      AboveSeqs(ms[..n], e);
      BeyondAdd(Seqs(ms[..n]), ms[n].seqNo, e);
      if ms[n].seqNo > e {
        SeqsSnoc(front, ms[n]);
      } else {
        EmptyIsUnit(front);
      }
    }
  }

  lemma {:induction false} AboveAscending(ms: seq<Message>, e: nat)
    requires Ascending(ms)
    ensures Ascending(Above(ms, e))
    ensures Above(ms, e) != [] ==> Above(ms, e)[|Above(ms, e)| - 1] == ms[|ms| - 1]
  {
    if ms != [] {
      var n := |ms| - 1;
      var front := Above(ms[..n], e);
      AboveAscending(ms[..n], e);
      AboveMembers(ms[..n], e);
      forall i | 0 <= i < |front| ensures front[i].seqNo < ms[n].seqNo {
        var j :| 0 <= j < n && ms[..n][j] == front[i];
        assert ms[j].seqNo < ms[n].seqNo;
      }
    }
  }

  // ----- the invariant -----

  predicate PubOk(s: State)
  {
    && s.counter == (if s.pub.Allocated? then |s.log| + 1 else |s.log|)
    && (s.pub.Stored? || s.pub.SeqSaved? ==> s.log != [])
  }

  /** Everything ever put in the channel, in order: all of (base, fanned] except what was dropped. */
  predicate Channel(log: seq<Record>, fanned: nat, base: nat, dropped: set<nat>, taken: seq<Message>, queue: seq<Message>)
  {
    && base <= fanned <= |log|
    && (forall k | k in dropped :: base < k <= fanned)
    && taken + queue == Messages(log, base, fanned, dropped)
  }

  predicate ChannelOk(s: State)
  {
    Channel(s.log, Fanned(s), s.registeredAt, s.dropped, s.taken, s.queue)
  }

  /** The stored offset is the last seq whose offset write is done. */
  predicate Stores(written: bool, delivered: seq<Message>, start: nat, offset: nat)
  {
    var done := if written && delivered != [] then delivered[..|delivered| - 1] else delivered;
    offset == if done == [] then start else done[|done| - 1].seqNo
  }

  predicate OffsetOk(s: State)
  {
    Stores(s.hand.Written?, s.delivered, s.start, s.offset)
  }

  predicate Cover(length: nat, start: nat, end: nat, base: nat)
  {
    start <= end && (end <= length || end == start) && (base <= end <==> base <= start + CATCH_UP_LIMIT)
  }

  predicate CoverOk(s: State)
  {
    Cover(|s.log|, s.start, s.end, s.registeredAt)
  }

  /** The catch-up messages. */
  function CatchUp(s: State): (ms: seq<Message>)
  {
    Slice(s.log, s.start, Min(s.end, |s.log|))
  }

  predicate SendingParts(taken: seq<Message>, hand: Hand, delivered: seq<Message>, todo: seq<Message>, catchUp: seq<Message>)
  {
    && taken == [] && !hand.Got?
    && delivered + (if hand.Passed? then [hand.m] else []) + todo == catchUp
    && (hand.Written? ==> delivered != [] && hand.m == delivered[|delivered| - 1])
  }

  predicate SendingOk(s: State)
  {
    SendingParts(s.taken, s.hand, s.delivered, s.todo, CatchUp(s))
  }

  predicate LiveParts(taken: seq<Message>, hand: Hand, delivered: seq<Message>, end: nat, catchUp: seq<Message>)
  {
    match hand
    case Empty => delivered == catchUp + Above(taken, end)
    case Got(m) =>
      taken != [] && m == taken[|taken| - 1] && delivered == catchUp + Above(taken[..|taken| - 1], end)
    case Passed(m) =>
      taken != [] && m == taken[|taken| - 1] && delivered + [m] == catchUp + Above(taken, end)
    case Written(m) =>
      delivered == catchUp + Above(taken, end) && delivered != [] && m == delivered[|delivered| - 1]
  }

  predicate LiveOk(s: State)
  {
    LiveParts(s.taken, s.hand, s.delivered, s.end, CatchUp(s))
  }

  predicate Quiet(s: State)
  {
    s.taken == [] && s.hand.Empty? && s.delivered == [] && s.todo == []
  }

  predicate Inv(s: State)
  {
    && PubOk(s)
    && (match s.phase
        case Unregistered => Quiet(s) && s.queue == [] && s.dropped == {}
        case Registered => Quiet(s) && ChannelOk(s)
        case OffsetRead => Quiet(s) && ChannelOk(s) && s.offset == s.start == s.end
        case SeqRead => Quiet(s) && ChannelOk(s) && s.offset == s.start == s.end && s.start < s.counter
        case Sending => ChannelOk(s) && CoverOk(s) && OffsetOk(s) && SendingOk(s)
        case Live => ChannelOk(s) && CoverOk(s) && OffsetOk(s) && LiveOk(s) && s.todo == [])
  }

  lemma StoreChannel(s: State)
    requires PubOk(s) && ChannelOk(s) && Enabled(s, Store)
    ensures ChannelOk(Step(s, Store))
  {
    MessagesStable(s.log, s.pub.rec, s.registeredAt, Fanned(s), s.dropped, |s.log| + 1);
  }

  lemma StoreCatchUp(s: State)
    requires CoverOk(s) && Enabled(s, Store)
    ensures CoverOk(Step(s, Store)) && CatchUp(Step(s, Store)) == CatchUp(s)
  {
    MessagesStable(s.log, s.pub.rec, s.start, Min(s.end, |s.log|), {}, |s.log| + 1);
  }

  lemma StoreKeepsInv(s: State)
    requires Inv(s) && Enabled(s, Store)
    ensures Inv(Step(s, Store))
  {
    if !s.phase.Unregistered? {
      StoreChannel(s);
    }
    if s.phase.Sending? || s.phase.Live? {
      StoreCatchUp(s);
    }
    var t := Step(s, Store);
    assert t == s.(log := t.log, pub := Stored);
  }

  lemma FanOutChannel(s: State)
    requires PubOk(s) && ChannelOk(s) && Enabled(s, FanOut) && !s.phase.Unregistered?
    ensures ChannelOk(Step(s, FanOut))
  {
    var n := |s.log|;
    var m := Message(n, s.log[n - 1]);
    MessagesStable(s.log, [], s.registeredAt, n - 1, s.dropped, n);
    assert n !in s.dropped;
    if |s.queue| < SUB_CHAN_SIZE {
      assert s.taken + (s.queue + [m]) == (s.taken + s.queue) + [m];
    }
  }

  lemma FanOutKeepsInv(s: State)
    requires Inv(s) && Enabled(s, FanOut)
    ensures Inv(Step(s, FanOut))
  {
    if !s.phase.Unregistered? {
      FanOutChannel(s);
    }
    var t := Step(s, FanOut);
    assert t == s.(pub := Idle, queue := t.queue, dropped := t.dropped);
  }

  lemma ScanKeepsInv(s: State)
    requires Inv(s) && Enabled(s, Scan)
    ensures Inv(Step(s, Scan))
  {
    var t := Step(s, Scan);
    assert t.delivered + [] + t.todo == t.todo;
  }

  lemma TakeCatchUpKeepsInv(s: State)
    requires Inv(s) && Enabled(s, TakeCatchUp)
    ensures Inv(Step(s, TakeCatchUp))
  {
    assert s.delivered + [] + s.todo == s.delivered + [s.todo[0]] + s.todo[1..];
  }

  lemma GoLiveKeepsInv(s: State)
    requires Inv(s) && Enabled(s, GoLive)
    ensures Inv(Step(s, GoLive))
  {
    assert s.delivered + [] + s.todo == s.delivered;
    assert CatchUp(s) + Above([], s.end) == CatchUp(s);
  }

  lemma CatchUpKeepsInv(s: State, a: Action)
    requires Inv(s) && Enabled(s, a) && s.phase.Sending? && (a == Write || a == SetOffset)
    ensures Inv(Step(s, a))
  {
    if a == Write {
      EmptyIsUnit(s.delivered + [s.hand.m]);
      FrontOf(s.delivered, s.hand.m);
    }
  }

  lemma LastLate(before: seq<Message>, m: Message, e: nat)
    requires Ascending(before + [m]) && Above(before, e) != []
    ensures e < Above(before, e)[|Above(before, e)| - 1].seqNo < m.seqNo
  {
    var all := before + [m];
    assert forall i :: 0 <= i < |before| ==> all[i] == before[i];
    AboveMembers(before, e);
    AboveAscending(before, e);
    assert all[|before| - 1].seqNo < all[|before|].seqNo;
  }

  lemma TakenAscending(s: State)
    requires ChannelOk(s)
    ensures Ascending(s.taken)
  {
    MessagesFacts(s.log, s.registeredAt, Fanned(s), s.dropped);
    assert forall i :: 0 <= i < |s.taken| ==> (s.taken + s.queue)[i] == s.taken[i];
  }

  /** The offset check lets exactly the messages beyond the catch-up pass. */
  lemma CheckDecides(s: State)
    requires ChannelOk(s) && CoverOk(s) && OffsetOk(s) && LiveOk(s) && s.hand.Got?
    ensures s.hand.m.seqNo <= s.offset <==> s.hand.m.seqNo <= s.end
  {
    var before := s.taken[..|s.taken| - 1];
    var late := Above(before, s.end);
    TakenAscending(s);
    assert s.taken == before + [s.hand.m];
    if late != [] {
      LastLate(before, s.hand.m, s.end);
      assert s.delivered[|s.delivered| - 1] == late[|late| - 1];
    } else {
      assert s.delivered == CatchUp(s);
      CatchUpLast(s);
    }
  }

  /** The catch-up ends at `end`; it is empty only when it starts there. */
  lemma CatchUpLast(s: State)
    requires CoverOk(s)
    ensures CatchUp(s) == [] ==> s.start == s.end
    ensures CatchUp(s) != [] ==> CatchUp(s)[|CatchUp(s)| - 1].seqNo == s.end
  {
  }

  lemma ReceiveKeepsInv(s: State)
    requires Inv(s) && Enabled(s, Receive)
    ensures Inv(Step(s, Receive))
  {
    var t := Step(s, Receive);
    assert t.taken + t.queue == s.taken + s.queue;
    assert t.taken[..|t.taken| - 1] == s.taken;
  }

  lemma CheckOffsetLive(s: State)
    requires LiveOk(s) && s.hand.Got?
    requires s.hand.m.seqNo <= s.offset <==> s.hand.m.seqNo <= s.end
    ensures LiveOk(Step(s, CheckOffset))
  {
    var m, before := s.hand.m, s.taken[..|s.taken| - 1];
    assert before + [m] == s.taken;
    AboveSnoc(before, m, s.end);
    if m.seqNo > s.end {
      Associative(CatchUp(s), Above(before, s.end), [m]);
    }
  }

  lemma CheckOffsetKeepsInv(s: State)
    requires Inv(s) && Enabled(s, CheckOffset)
    ensures Inv(Step(s, CheckOffset))
  {
    CheckDecides(s);
    CheckOffsetLive(s);
    var t := Step(s, CheckOffset);
    assert t == s.(hand := t.hand) && !t.hand.Written?;
  }

  lemma LiveWrite(s: State)
    requires Inv(s) && Enabled(s, Write) && s.phase.Live?
    ensures Inv(Step(s, Write))
  {
    FrontOf(s.delivered, s.hand.m);
    var t := Step(s, Write);
    assert t == s.(hand := Written(s.hand.m), delivered := s.delivered + [s.hand.m]);
    assert LiveOk(t);
    assert OffsetOk(t);
  }

  lemma LiveSetOffset(s: State)
    requires Inv(s) && Enabled(s, SetOffset) && s.phase.Live?
    ensures Inv(Step(s, SetOffset))
  {
    var t := Step(s, SetOffset);
    assert t == s.(hand := Empty, offset := s.hand.m.seqNo);
    assert LiveOk(t);
    assert OffsetOk(t);
  }

  lemma RegisterKeepsInv(s: State)
    requires Inv(s) && Enabled(s, Register)
    ensures Inv(Step(s, Register))
  {
  }

  lemma ReadSeqKeepsInv(s: State)
    requires Inv(s) && Enabled(s, ReadSeq)
    ensures Inv(Step(s, ReadSeq))
  {
    assert [] + [] + s.todo == CatchUp(Step(s, ReadSeq));
  }

  lemma AllocateKeepsInv(s: State, rec: Record)
    requires Inv(s) && Enabled(s, Allocate(rec))
    ensures Inv(Step(s, Allocate(rec)))
  {
    var t := Step(s, Allocate(rec));
    assert t == s.(counter := t.counter, pub := t.pub) && Fanned(t) == Fanned(s);
  }

  lemma SaveSeqKeepsInv(s: State)
    requires Inv(s) && Enabled(s, SaveSeq)
    ensures Inv(Step(s, SaveSeq))
  {
    assert Step(s, SaveSeq) == s.(pub := SeqSaved) && Fanned(Step(s, SaveSeq)) == Fanned(s);
  }

  lemma ReadOffsetKeepsInv(s: State)
    requires Inv(s) && Enabled(s, ReadOffset)
    ensures Inv(Step(s, ReadOffset))
  {
  }

  lemma StepKeepsInv(s: State, a: Action)
    requires Inv(s) && Enabled(s, a)
    ensures Inv(Step(s, a))
  {
    match a
    case Store => StoreKeepsInv(s);
    case FanOut => FanOutKeepsInv(s);
    case Scan => ScanKeepsInv(s);
    case Register => RegisterKeepsInv(s);
    case ReadSeq => ReadSeqKeepsInv(s);
    case TakeCatchUp => TakeCatchUpKeepsInv(s);
    case GoLive => GoLiveKeepsInv(s);
    case Receive => ReceiveKeepsInv(s);
    case CheckOffset => CheckOffsetKeepsInv(s);
    case Write => if s.phase.Live? { LiveWrite(s); } else { CatchUpKeepsInv(s, a); }
    case SetOffset => if s.phase.Live? { LiveSetOffset(s); } else { CatchUpKeepsInv(s, a); }
    case Allocate(rec) => AllocateKeepsInv(s, rec);
    case SaveSeq => SaveSeqKeepsInv(s);
    case ReadOffset => ReadOffsetKeepsInv(s);
  }

  lemma {:induction false} RunKeepsInv(s: State, actions: seq<Action>)
    requires Inv(s) && Possible(s, actions)
    ensures Inv(Run(s, actions))
    decreases |actions|
  {
    if actions != [] {
      StepKeepsInv(s, actions[0]);
      RunKeepsInv(Step(s, actions[0]), actions[1..]);
    }
  }

  // ----- what the subscriber gets -----

  predicate Drained(s: State)
  {
    s.phase.Live? && s.hand.Empty? && s.queue == [] && s.pub.Idle?
  }

  /** Delivered messages at any moment: a prefix of the catch-up, then received messages beyond it. */
  lemma DeliveredParts(s: State)
    requires Inv(s) && (s.phase.Sending? || s.phase.Live?)
    ensures s.delivered <= CatchUp(s) + Above(s.taken, s.end)
  {
    if s.phase.Live? && s.hand.Got? {
      AboveSnoc(s.taken[..|s.taken| - 1], s.hand.m, s.end);
      assert s.taken == s.taken[..|s.taken| - 1] + [s.hand.m];
    }
  }

  lemma LateFromLog(log: seq<Record>, lo: nat, hi: nat, skip: set<nat>, taken: seq<Message>, e: nat)
    requires hi <= |log| && taken <= Messages(log, lo, hi, skip)
    ensures Ascending(Above(taken, e)) && FromLog(log, e, Above(taken, e))
  {
    MessagesFacts(log, lo, hi, skip);
    AboveMembers(taken, e);
    AboveAscending(taken, e);
    forall i | 0 <= i < |Above(taken, e)|
      ensures Above(taken, e)[i].seqNo <= |log| && Above(taken, e)[i].rec == log[Above(taken, e)[i].seqNo - 1]
    {
      var j :| 0 <= j < |taken| && taken[j] == Above(taken, e)[i];
      assert Messages(log, lo, hi, skip)[j] == taken[j];
    }
  }

  lemma Joined(log: seq<Record>, lo: nat, e: nat, a: seq<Message>, b: seq<Message>)
    requires Ascending(a) && Ascending(b) && FromLog(log, lo, a) && FromLog(log, e, b) && lo <= e
    requires UpTo(a, e)
    ensures Ascending(a + b) && FromLog(log, lo, a + b)
  {
  }

  lemma WholeStream(s: State)
    requires ChannelOk(s) && CoverOk(s)
    ensures var all := CatchUp(s) + Above(s.taken, s.end);
            Ascending(all) && FromLog(s.log, s.start, all)
  {
    MessagesFacts(s.log, s.start, Min(s.end, |s.log|), {});
    assert s.taken <= s.taken + s.queue;
    LateFromLog(s.log, s.registeredAt, Fanned(s), s.dropped, s.taken, s.end);
    Joined(s.log, s.start, s.end, CatchUp(s), Above(s.taken, s.end));
  }

  /** In every interleaving, whatever is dropped and however long the backlog: delivered seqs are
      strictly increasing (no duplicate, no reordering) and every delivered message is the log's record
      of that seq, above the offset the subscription started from. */
  lemma DeliveredInOrder(log: seq<Record>, offset: nat, actions: seq<Action>)
    requires Possible(Init(log, offset), actions)
    ensures var s := Run(Init(log, offset), actions);
            Ascending(s.delivered) && FromLog(s.log, s.start, s.delivered) && (s.delivered != [] ==> s.start == offset)
  {
    RunKeepsInv(Init(log, offset), actions);
    RunKeepsStart(Init(log, offset), actions, offset);
    DeliveredIsOrdered(Run(Init(log, offset), actions));
  }

  lemma PrefixIsOrdered(log: seq<Record>, lo: nat, a: seq<Message>, b: seq<Message>)
    requires a <= b && Ascending(b) && FromLog(log, lo, b)
    ensures Ascending(a) && FromLog(log, lo, a)
  {
    assert forall i :: 0 <= i < |a| ==> a[i] == b[i];
  }

  lemma DeliveredIsOrdered(s: State)
    requires Inv(s)
    ensures Ascending(s.delivered) && FromLog(s.log, s.start, s.delivered)
  {
    if s.phase.Sending? || s.phase.Live? {
      DeliveredParts(s);
      WholeStream(s);
      PrefixIsOrdered(s.log, s.start, s.delivered, CatchUp(s) + Above(s.taken, s.end));
    }
  }

  /** The seqs delivered once drained: the catch-up, then what was fanned out after registration,
      beyond the catch-up, and not dropped. */
  lemma DrainedSeqs(s: State)
    requires ChannelOk(s) && CoverOk(s) && LiveOk(s) && Drained(s)
    ensures Seqs(s.delivered) ==
              Range(s.start, Min(s.end, |s.log|), {}) + Beyond(Range(s.registeredAt, |s.log|, s.dropped), s.end)
  {
    assert s.taken + s.queue == s.taken;
    MessagesSeqs(s.log, s.start, Min(s.end, |s.log|), {});
    MessagesSeqs(s.log, s.registeredAt, |s.log|, s.dropped);
    AboveSeqs(s.taken, s.end);
    SeqsConcat(CatchUp(s), Above(s.taken, s.end));
  }

  lemma {:induction false} SeqsConcat(a: seq<Message>, b: seq<Message>)
    ensures Seqs(a + b) == Seqs(a) + Seqs(b)
  {
    if b == [] {
      assert a + b == a;
    } else {
      var n := |b| - 1;
      SeqsConcat(a, b[..n]);
      assert (a + b)[..|a| + n] == a + b[..n];
    }
  }

  /** Two ascending lists of log records with the same seqs are the same list. */
  lemma {:induction false} SameSeqsSameList(log: seq<Record>, a: seq<Message>, b: seq<Message>)
    requires Ascending(a) && Ascending(b) && Seqs(a) == Seqs(b)
    requires FromLog(log, 0, a) && FromLog(log, 0, b)
    ensures a == b
  {
    if a != [] && b != [] {
      var n, m := |a| - 1, |b| - 1;
      LastIsGreatest(a);
      LastIsGreatest(b);
      assert a[n].seqNo in Seqs(a) && b[m].seqNo in Seqs(b);
      assert a[n] == b[m];
      SameSeqsSameList(log, a[..n], b[..m]);
      assert a == a[..n] + [a[n]] && b == b[..m] + [b[m]];
    }
  }

  lemma LastIsGreatest(ms: seq<Message>)
    requires ms != [] && Ascending(ms)
    ensures forall k: nat :: k in Seqs(ms) ==> k <= ms[|ms| - 1].seqNo
    ensures Seqs(ms[..|ms| - 1]) == Seqs(ms) - {ms[|ms| - 1].seqNo}
  {
    var front := ms[..|ms| - 1];
    forall k: nat | k in Seqs(front) ensures k < ms[|ms| - 1].seqNo {
      SeqsHas(front, k);
    }
  }

  /** The starting offset is the client's offset before the run. */
  predicate StartOk(s: State, offset: nat)
  {
    if s.phase.Unregistered? || s.phase.Registered? then s.offset == offset && s.hand.Empty? else s.start == offset
  }

  lemma {:induction false} RunKeepsStart(s: State, actions: seq<Action>, offset: nat)
    requires Possible(s, actions) && StartOk(s, offset)
    ensures StartOk(Run(s, actions), offset)
    decreases |actions|
  {
    if actions != [] {
      RunKeepsStart(Step(s, actions[0]), actions[1..], offset);
    }
  }

  // ----- what a full channel costs -----

  /** The subscriber's channel has no place left. */
  predicate Full(s: State)
  {
    !s.phase.Unregistered? && |s.queue| >= SUB_CHAN_SIZE
  }

  /** The records whose fan-out finds a full channel. */
  function MetFull(s: State, actions: seq<Action>): (r: set<nat>)
    requires Possible(s, actions)
    decreases |actions|
  {
    if actions == [] then {}
    else (if actions[0].FanOut? && Full(s) then {|s.log|} else {}) + MetFull(Step(s, actions[0]), actions[1..])
  }

  /** No fan-out finds a full channel. */
  predicate RoomyRun(s: State, actions: seq<Action>)
    requires Possible(s, actions)
    decreases |actions|
  {
    actions == [] || ((actions[0].FanOut? ==> !Full(s)) && RoomyRun(Step(s, actions[0]), actions[1..]))
  }

  /** A record is dropped exactly when its fan-out finds a full channel, and the channel never holds more than
      its 256 places. */
  lemma {:induction false} DroppedIsMetFull(s: State, actions: seq<Action>)
    requires Possible(s, actions) && |s.queue| <= SUB_CHAN_SIZE
    ensures Run(s, actions).dropped == s.dropped + MetFull(s, actions) && |Run(s, actions).queue| <= SUB_CHAN_SIZE
    ensures MetFull(s, actions) == {} <==> RoomyRun(s, actions)
    decreases |actions|
  {
    if actions != [] {
      var t := Step(s, actions[0]);
      DroppedIsMetFull(t, actions[1..]);
      assert t.dropped == s.dropped + if actions[0].FanOut? && Full(s) then {|s.log|} else {};
    }
  }

  /** Over every run nothing is dropped if and only if no fan-out finds the registered channel full. */
  lemma NothingDroppedIff(log: seq<Record>, offset: nat, actions: seq<Action>)
    requires Possible(Init(log, offset), actions)
    ensures Run(Init(log, offset), actions).dropped == {} <==> RoomyRun(Init(log, offset), actions)
  {
    DroppedIsMetFull(Init(log, offset), actions);
  }

  /** The hand-over theorem. For every interleaving, once the subscriber is live and drained, it has
      been sent exactly the log records above its starting offset, in order, with no gap and no
      duplicate, if and only if the backlog when it registered was at most the catch-up limit and no
      record beyond the catch-up met a full channel. */
  lemma HandOverIsExact(log: seq<Record>, offset: nat, actions: seq<Action>)
    requires Possible(Init(log, offset), actions) && Drained(Run(Init(log, offset), actions))
    ensures var s := Run(Init(log, offset), actions);
            s.delivered == Slice(s.log, offset, |s.log|) <==>
              s.registeredAt <= offset + CATCH_UP_LIMIT && forall k | k in MetFull(Init(log, offset), actions) :: k <= s.end
    ensures var s := Run(Init(log, offset), actions);
            s.registeredAt <= offset + CATCH_UP_LIMIT && RoomyRun(Init(log, offset), actions) ==>
              s.delivered == Slice(s.log, offset, |s.log|)
  {
    DroppedIsMetFull(Init(log, offset), actions);
    RunKeepsInv(Init(log, offset), actions);
    RunKeepsStart(Init(log, offset), actions, offset);
    DeliveredInOrder(log, offset, actions);
    ExactIff(Run(Init(log, offset), actions));
  }

  lemma NothingMissing(s: State)
    requires ChannelOk(s) && CoverOk(s) && LiveOk(s) && Drained(s)
    requires s.registeredAt <= s.end && forall k | k in s.dropped :: k <= s.end
    ensures Seqs(s.delivered) == Seqs(Slice(s.log, s.start, |s.log|))
  {
    DrainedSeqs(s);
    MessagesSeqs(s.log, s.start, |s.log|, {});
  }

  lemma SomethingMissing(s: State, k: nat)
    requires ChannelOk(s) && CoverOk(s) && LiveOk(s) && Drained(s)
    requires s.end < k <= |s.log| && (k <= s.registeredAt || k in s.dropped)
    ensures s.delivered != Slice(s.log, s.start, |s.log|)
  {
    DrainedSeqs(s);
    MessagesSeqs(s.log, s.start, |s.log|, {});
    assert k !in Seqs(s.delivered);
  }

  lemma ExactIff(s: State)
    requires ChannelOk(s) && CoverOk(s) && LiveOk(s) && Drained(s)
    requires Ascending(s.delivered) && FromLog(s.log, s.start, s.delivered)
    ensures s.delivered == Slice(s.log, s.start, |s.log|) <==>
              s.registeredAt <= s.start + CATCH_UP_LIMIT && forall k | k in s.dropped :: k <= s.end
  {
    if s.registeredAt > s.end {
      SomethingMissing(s, s.registeredAt);
    } else if k :| k in s.dropped && k > s.end {
      SomethingMissing(s, k);
    } else {
      NothingMissing(s);
      MessagesFacts(s.log, s.start, |s.log|, {});
      SameSeqsSameList(s.log, s.delivered, Slice(s.log, s.start, |s.log|));
    }
  }

  // ----- the hand-over happens -----

  /** `actions` leads from s to t, and no fan-out in it finds a full channel. */
  predicate Leads(s: State, actions: seq<Action>, t: State)
  {
    Possible(s, actions) && Run(s, actions) == t && RoomyRun(s, actions)
  }

  lemma {:induction false} Then(s: State, actions: seq<Action>, t: State, a: Action, end: State)
    requires Leads(s, actions, t) && Enabled(t, a) && Step(t, a) == end && (a.FanOut? ==> !Full(t))
    ensures Leads(s, actions + [a], end)
    decreases |actions|
  {
    if actions == [] {
      assert [] + [a] == [a] && [a][1..] == [];
    } else {
      Then(Step(s, actions[0]), actions[1..], t, a, end);
      assert (actions + [a])[1..] == actions[1..] + [a];
    }
  }

  /** The seq of the last message, or the offset when there is none. */
  function LastSeq(ms: seq<Message>, offset: nat): (n: nat)
  {
    if ms == [] then offset else ms[|ms| - 1].seqNo
  }

  /** The message in hand is written, and its offset stored. */
  lemma Delivers(s: State, actions: seq<Action>, t: State) returns (run: seq<Action>)
    requires Leads(s, actions, t) && t.hand.Passed?
    ensures Leads(s, run, t.(hand := Empty, delivered := t.delivered + [t.hand.m], offset := t.hand.m.seqNo))
  {
    var t1 := t.(hand := Written(t.hand.m), delivered := t.delivered + [t.hand.m]);
    Then(s, actions, t, Write, t1);
    run := actions + [Write];
    Then(s, run, t1, SetOffset, t1.(hand := Empty, offset := t.hand.m.seqNo));
    run := run + [SetOffset];
  }

  lemma {:induction false} CatchesUp(s: State, actions: seq<Action>, t: State) returns (run: seq<Action>)
    requires Leads(s, actions, t) && t.phase.Sending? && t.hand.Empty?
    ensures Leads(s, run, t.(todo := [], delivered := t.delivered + t.todo, offset := LastSeq(t.todo, t.offset)))
    decreases |t.todo|
  {
    if t.todo == [] {
      run := actions;
      assert t.delivered + [] == t.delivered;
    } else {
      var m, rest := t.todo[0], t.todo[1..];
      Then(s, actions, t, TakeCatchUp, t.(hand := Passed(m), todo := rest));
      run := Delivers(s, actions + [TakeCatchUp], t.(hand := Passed(m), todo := rest));
      run := CatchesUp(s, run, t.(todo := rest, delivered := t.delivered + [m], offset := m.seqNo));
      assert t.delivered + [m] + rest == t.delivered + t.todo;
    }
  }

  /** A subscriber comes to a log, catches up and goes live. */
  lemma GoesLive(log: seq<Record>) returns (run: seq<Action>, t: State)
    requires |log| <= CATCH_UP_LIMIT
    ensures Leads(Init(log, 0), run, t) && Drained(t) && t.todo == [] && t.log == log && t.counter == |log|
    ensures t.offset <= |log| && t.registeredAt == |log| && t.dropped == {}
  {
    var s := Init(log, 0);
    var s1 := s.(phase := Registered, registeredAt := |log|);
    var s2 := s1.(phase := OffsetRead);
    Then(s, [], s, Register, s1);
    run := [] + [Register];
    Then(s, run, s1, ReadOffset, s2);
    run := run + [ReadOffset];
    t := if log == [] then s2.(phase := Sending) else s2.(phase := SeqRead);
    Then(s, run, s2, ReadSeq, t);
    run := run + [ReadSeq];
    MessagesFacts(log, 0, |log|, {});
    if log != [] {
      Then(s, run, t, Scan, t.(phase := Sending, end := |log|, todo := Slice(log, 0, |log|)));
      run := run + [Scan];
      t := t.(phase := Sending, end := |log|, todo := Slice(log, 0, |log|));
    }
    run := CatchesUp(s, run, t);
    t := t.(todo := [], delivered := t.delivered + t.todo, offset := LastSeq(t.todo, t.offset));
    Then(s, run, t, GoLive, t.(phase := Live));
    run := run + [GoLive];
    t := t.(phase := Live);
  }

  /** The next record is published and delivered live. */
  lemma OneLive(s: State, actions: seq<Action>, t: State, rec: Record) returns (run: seq<Action>, u: State)
    requires Leads(s, actions, t) && Drained(t) && t.todo == [] && t.offset <= |t.log|
    ensures Leads(s, run, u) && Drained(u) && u.todo == [] && u.offset == |u.log| && u.log == t.log + [rec]
    ensures u.registeredAt == t.registeredAt
  {
    var m := Message(|t.log| + 1, rec);
    var t1 := t.(counter := t.counter + 1, pub := Allocated(rec));
    var t2 := t1.(log := t.log + [rec], pub := Stored);
    var t3 := t2.(pub := Idle, queue := [m]);
    Then(s, actions, t, Allocate(rec), t1);
    run := actions + [Allocate(rec)];
    Then(s, run, t1, Store, t2);
    run := run + [Store];
    Then(s, run, t2, SaveSeq, t2.(pub := SeqSaved));
    run := run + [SaveSeq];
    assert [] + [m] == [m] && [m][1..] == [];
    Then(s, run, t2.(pub := SeqSaved), FanOut, t3);
    run := run + [FanOut];
    run, u := TakesLive(s, run, t3, m);
  }

  lemma TakesLive(s: State, actions: seq<Action>, t: State, m: Message) returns (run: seq<Action>, u: State)
    requires Leads(s, actions, t) && t.phase.Live? && t.hand.Empty? && t.queue == [m] && t.offset < m.seqNo
    ensures Leads(s, run, u)
    ensures u == t.(queue := [], taken := t.taken + [m], delivered := t.delivered + [m], offset := m.seqNo)
  {
    var t1 := t.(hand := Got(m), queue := [], taken := t.taken + [m]);
    assert [m][1..] == [];
    Then(s, actions, t, Receive, t1);
    run := actions + [Receive];
    Then(s, run, t1, CheckOffset, t1.(hand := Passed(m)));
    run := Delivers(s, run + [CheckOffset], t1.(hand := Passed(m)));
    u := t1.(hand := Empty, delivered := t.delivered + [m], offset := m.seqNo);
  }

  lemma {:induction false} ManyLive(s: State, actions: seq<Action>, t: State, recs: seq<Record>)
    returns (run: seq<Action>, u: State)
    requires Leads(s, actions, t) && Drained(t) && t.todo == [] && t.offset <= |t.log|
    ensures Leads(s, run, u) && Drained(u) && u.log == t.log + recs && u.registeredAt == t.registeredAt
    decreases |recs|
  {
    if recs == [] {
      run, u := actions, t;
      assert t.log + [] == t.log;
    } else {
      run, u := OneLive(s, actions, t, recs[0]);
      run, u := ManyLive(s, run, u, recs[1..]);
      assert t.log + [recs[0]] + recs[1..] == t.log + recs;
    }
  }

  /** It does happen: for every log within the catch-up limit and every list of records published afterwards there
      is a run that drains, and the subscriber has then been sent all of the log and all of the list. */
  lemma HandOverHappens(log: seq<Record>, recs: seq<Record>) returns (run: seq<Action>)
    requires |log| <= CATCH_UP_LIMIT
    ensures Possible(Init(log, 0), run) && RoomyRun(Init(log, 0), run)
    ensures var s := Run(Init(log, 0), run);
            Drained(s) && s.log == log + recs && s.delivered == Slice(log + recs, 0, |log + recs|)
  {
    var t;
    run, t := GoesLive(log);
    run, t := ManyLive(Init(log, 0), run, t, recs);
    HandOverIsExact(log, 0, run);
  }
}
