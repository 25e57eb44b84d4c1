/** QoS 1 delivery composed with the SDK's deduplicating loop: how often the handler runs for a record, over
    any number of connections, disconnects, retransmissions and redeliveries. */
module ExactlyOnce {
  import opened Bytes
  import opened AtLeastOnce
  import P = AtLeastOnceProof
  import T = AtLeastOnceTheorems
  import C = AtLeastOnceStreams
  import S = SeenCache
  import L = AtLeastOnceLimits
  import O = OneCarrier

  /** These records carry server message ids that are not nil and not shared. */
  predicate DistinctOn(id: nat -> Uuid, ks: set<nat>)
  {
    (forall k | k in ks :: id(k) != NIL_UUID) && forall j, k | j in ks && k in ks && id(j) == id(k) :: j == k
  }

  /** What the SDK reads from a connection that carries these seqs. */
  function Stream(ks: seq<nat>, id: nat -> Uuid): (ds: seq<Uuid>)
    ensures |ds| == |ks| && forall i :: 0 <= i < |ks| ==> ds[i] == id(ks[i])
  {
    if ks == [] then [] else Stream(ks[..|ks| - 1], id) + [id(ks[|ks| - 1])]
  }

  function FirstIndex(ks: seq<nat>, k: nat): (f: nat)
    requires k in ks
    ensures f < |ks| && ks[f] == k && k !in ks[..f]
  {
    if ks[0] == k then 0
    else
      assert k in ks[1..];
      var f := 1 + FirstIndex(ks[1..], k);
      assert ks[..f] == [ks[0]] + ks[1..][..f - 1];
      f
  }

  // ----- one connection -----

  function Count(marks: seq<bool>): (c: nat)
  {
    if marks == [] then 0 else Count(marks[..|marks| - 1]) + if marks[|marks| - 1] then 1 else 0
  }

  /** The deliveries of a connection for which the handler runs, as far as they are copies of record k. */
  function Marks(ks: seq<nat>, id: nat -> Uuid, k: nat, cap: nat): (marks: seq<bool>)
  {
    seq(|ks|, i requires 0 <= i < |ks| => ks[i] == k && S.Handled(Stream(ks, id), i, cap))
  }

  /** How often the handler runs for record k on a connection. */
  function Calls(ks: seq<nat>, id: nat -> Uuid, k: nat, cap: nat): (c: nat)
  {
    Count(Marks(ks, id, k, cap))
  }

  lemma {:induction false} CountNone(marks: seq<bool>)
    requires forall i | 0 <= i < |marks| :: !marks[i]
    ensures Count(marks) == 0
  {
    if marks != [] {
      CountNone(marks[..|marks| - 1]);
    }
  }

  lemma {:induction false} CountFrom(marks: seq<bool>, f: nat)
    requires f < |marks| && marks[f] && forall i | 0 <= i < f :: !marks[i]
    ensures Count(marks) >= 1 && (Count(marks) == 1 <==> forall i | f < i < |marks| :: !marks[i])
  {
    var n := |marks| - 1;
    var front := marks[..n];
    if n == f {
      CountNone(front);
    } else {
      CountFrom(front, f);
      assert marks == front + [marks[n]];
    }
  }

  /** Whenever another copy of k comes, the cache has taken in fewer than `cap` ids since the first one. */
  predicate Kept(ks: seq<nat>, id: nat -> Uuid, k: nat, cap: nat)
  {
    k in ks ==>
      var f := FirstIndex(ks, k);
      forall l | f < l < |ks| && ks[l] == k :: S.TakenIn(Stream(ks, id), f + 1, l, cap) < cap
  }

  lemma CopiesShareId(ks: seq<nat>, id: nat -> Uuid, k: nat)
    requires DistinctOn(id, P.Elems(ks)) && k in ks
    ensures id(k) != NIL_UUID
    ensures forall i :: 0 <= i < |ks| ==> (Stream(ks, id)[i] == id(k) <==> ks[i] == k)
  {
    assert k in P.Elems(ks);
    forall i | 0 <= i < |ks| ensures Stream(ks, id)[i] == id(k) <==> ks[i] == k {
      assert ks[i] in P.Elems(ks);
    }
  }

  lemma FirstCopy(ks: seq<nat>, id: nat -> Uuid, k: nat, cap: nat)
    requires DistinctOn(id, P.Elems(ks)) && k in ks && cap > 0
    ensures id(k) !in Stream(ks, id)[..FirstIndex(ks, k)]
    ensures S.Handled(Stream(ks, id), FirstIndex(ks, k), cap)
  {
    var ds, f := Stream(ks, id), FirstIndex(ks, k);
    CopiesShareId(ks, id, k);
    forall i | 0 <= i < f ensures ds[i] != id(k) { assert ks[..f][i] == ks[i]; }
    S.FirstCopyIsHandled(ds, f, cap);
  }

  lemma NoCallsWithoutCopy(ks: seq<nat>, id: nat -> Uuid, k: nat, cap: nat)
    requires k !in ks
    ensures Calls(ks, id, k, cap) == 0
  {
    CountNone(Marks(ks, id, k, cap));
  }

  lemma CallsAfterFirst(ks: seq<nat>, id: nat -> Uuid, k: nat, cap: nat)
    requires DistinctOn(id, P.Elems(ks)) && k in ks && cap > 0
    ensures Calls(ks, id, k, cap) >= 1
    ensures Calls(ks, id, k, cap) == 1 <==> OnlyFirst(ks, id, k, cap)
  {
    var f, marks := FirstIndex(ks, k), Marks(ks, id, k, cap);
    FirstCopy(ks, id, k, cap);
    forall i | 0 <= i < f ensures !marks[i] { assert ks[..f][i] == ks[i]; }
    CountFrom(marks, f);
  }

  /** The handler runs for no copy after the first. */
  predicate OnlyFirst(ks: seq<nat>, id: nat -> Uuid, k: nat, cap: nat)
    requires k in ks
  {
    forall l | FirstIndex(ks, k) < l < |ks| :: !Marks(ks, id, k, cap)[l]
  }

  lemma AgainIff(ks: seq<nat>, id: nat -> Uuid, k: nat, cap: nat, l: nat)
    requires DistinctOn(id, P.Elems(ks)) && k in ks && cap > 0
    requires FirstIndex(ks, k) < l < |ks| && ks[l] == k
    requires forall i | FirstIndex(ks, k) < i < l :: !Marks(ks, id, k, cap)[i]
    ensures Marks(ks, id, k, cap)[l] <==> S.TakenIn(Stream(ks, id), FirstIndex(ks, k) + 1, l, cap) >= cap
  {
    var ds, f := Stream(ks, id), FirstIndex(ks, k);
    CopiesShareId(ks, id, k);
    FirstCopy(ks, id, k, cap);
    forall i: nat | f + 1 <= i < l && ds[i] == ds[f] ensures !S.Handled(ds, i, cap) {
      assert !Marks(ks, id, k, cap)[i];
    }
    S.HandledAgainIff(ds, f, l, cap);
  }

  lemma {:induction false} KeptIsNotMarked(ks: seq<nat>, id: nat -> Uuid, k: nat, cap: nat, l: nat)
    requires DistinctOn(id, P.Elems(ks)) && k in ks && cap > 0 && Kept(ks, id, k, cap)
    requires FirstIndex(ks, k) < l < |ks|
    ensures !Marks(ks, id, k, cap)[l]
    decreases l
  {
    if ks[l] == k {
      forall i: nat | FirstIndex(ks, k) < i < l ensures !Marks(ks, id, k, cap)[i] {
        KeptIsNotMarked(ks, id, k, cap, i);
      }
      AgainIff(ks, id, k, cap, l);
    }
  }

  lemma NoneMeansKept(ks: seq<nat>, id: nat -> Uuid, k: nat, cap: nat)
    requires DistinctOn(id, P.Elems(ks)) && k in ks && cap > 0 && OnlyFirst(ks, id, k, cap)
    ensures Kept(ks, id, k, cap)
  {
    var ds, f := Stream(ks, id), FirstIndex(ks, k);
    forall l | f < l < |ks| && ks[l] == k ensures S.TakenIn(ds, f + 1, l, cap) < cap {
      AgainIff(ks, id, k, cap, l);
    }
  }

  /** On one connection, whatever the redelivery schedule, the handler runs at least once for every record
      carried, and exactly once if and only if the cache keeps its id until the last copy. */
  lemma OneCallIff(ks: seq<nat>, id: nat -> Uuid, k: nat, cap: nat)
    requires DistinctOn(id, P.Elems(ks)) && k in ks && cap > 0
    ensures Calls(ks, id, k, cap) >= 1
    ensures Calls(ks, id, k, cap) == 1 <==> Kept(ks, id, k, cap)
  {
    CallsAfterFirst(ks, id, k, cap);
    if OnlyFirst(ks, id, k, cap) {
      NoneMeansKept(ks, id, k, cap);
    }
    if Kept(ks, id, k, cap) {
      forall l: nat | FirstIndex(ks, k) < l < |ks| ensures !Marks(ks, id, k, cap)[l] {
        KeptIsNotMarked(ks, id, k, cap, l);
      }
    }
  }

  // ----- a bound a client can choose its cache size by -----

  /** The records between two positions, other than the first one's. */
  function Amid(ks: seq<nat>, f: nat, l: nat): (r: set<nat>)
    requires f < l <= |ks|
  {
    P.Elems(ks[f + 1..l]) - {ks[f]}
  }

  /** Fewer than `cap` other records come between the first and the last copy of k. */
  predicate FewBetween(ks: seq<nat>, k: nat, cap: nat)
  {
    k in ks ==>
      var f := FirstIndex(ks, k);
      forall l | f < l < |ks| && ks[l] == k :: |Amid(ks, f, l)| < cap
  }

  lemma {:induction false} ImageSize(ks: set<nat>, ids: set<Uuid>, id: nat -> Uuid)
    requires forall x | x in ids :: exists k :: k in ks && id(k) == x
    ensures |ids| <= |ks|
    decreases |ks|
  {
    if ids != {} {
      var x :| x in ids;
      var k :| k in ks && id(k) == x;
      forall y | y in ids - {x} ensures exists j :: j in ks - {k} && id(j) == y {
        var j :| j in ks && id(j) == y;
        assert j in ks - {k};
      }
      ImageSize(ks - {k}, ids - {x}, id);
    }
  }

  lemma OtherIsRecord(ks: seq<nat>, id: nat -> Uuid, f: nat, l: nat, x: Uuid) returns (j: nat)
    requires f < l <= |ks| && x in S.Others(S.Amid(Stream(ks, id), f, l), id(ks[f]))
    ensures j in Amid(ks, f, l) && id(j) == x
  {
    var amid := S.Amid(Stream(ks, id), f, l);
    var i :| 0 <= i < |amid| && amid[i] == x;
    j := ks[f + 1..l][i];
    assert j == ks[f + 1 + i] && amid[i] == Stream(ks, id)[f + 1 + i];
  }

  lemma OthersAreRecords(ks: seq<nat>, id: nat -> Uuid, f: nat, l: nat)
    requires f < l <= |ks|
    ensures |S.Others(S.Amid(Stream(ks, id), f, l), id(ks[f]))| <= |Amid(ks, f, l)|
  {
    var others, between := S.Others(S.Amid(Stream(ks, id), f, l), id(ks[f])), Amid(ks, f, l);
    forall x | x in others ensures exists j :: j in between && id(j) == x {
      var j := OtherIsRecord(ks, id, f, l, x);
    }
    ImageSize(between, others, id);
  }

  lemma FewBetweenIsKept(ks: seq<nat>, id: nat -> Uuid, k: nat, cap: nat)
    requires DistinctOn(id, P.Elems(ks)) && cap > 0 && FewBetween(ks, k, cap)
    ensures Kept(ks, id, k, cap)
  {
    if k in ks {
      forall l: nat | FirstIndex(ks, k) < l < |ks| ensures !Marks(ks, id, k, cap)[l] {
        FewIsNotMarked(ks, id, k, cap, l);
      }
      NoneMeansKept(ks, id, k, cap);
    }
  }

  lemma FewIsNotMarked(ks: seq<nat>, id: nat -> Uuid, k: nat, cap: nat, l: nat)
    requires DistinctOn(id, P.Elems(ks)) && cap > 0 && k in ks && FewBetween(ks, k, cap)
    requires FirstIndex(ks, k) < l < |ks|
    ensures !Marks(ks, id, k, cap)[l]
  {
    if ks[l] == k {
      var ds, f := Stream(ks, id), FirstIndex(ks, k);
      CopiesShareId(ks, id, k);
      FirstCopy(ks, id, k, cap);
      OthersAreRecords(ks, id, f, l);
      S.HandlerRunsOnce(ds, f, l, cap);
    }
  }

  lemma FewRecords(ks: seq<nat>, k: nat, cap: nat)
    requires |P.Elems(ks)| <= cap
    ensures FewBetween(ks, k, cap)
  {
    if k in ks {
      var f := FirstIndex(ks, k);
      forall l | f < l < |ks| && ks[l] == k ensures |Amid(ks, f, l)| < cap {
        assert ks[f] in P.Elems(ks) && ks[f] == k;
        S.SubsetSize(Amid(ks, f, l), P.Elems(ks) - {k});
      }
    }
  }

  /** Whatever the redelivery schedule of a connection, as long as it carries at most `cap` distinct records,
      the handler runs exactly once for each of them. */
  lemma EachRecordOnce(ks: seq<nat>, id: nat -> Uuid, k: nat, cap: nat)
    requires DistinctOn(id, P.Elems(ks)) && k in ks && cap > 0 && |P.Elems(ks)| <= cap
    ensures Calls(ks, id, k, cap) == 1
  {
    FewRecords(ks, k, cap);
    FewBetweenIsKept(ks, id, k, cap);
    OneCallIff(ks, id, k, cap);
  }

  // ----- all connections -----

  /** How often the handlers of all connections together have run for record k. */
  function TotalCalls(streams: seq<seq<nat>>, id: nat -> Uuid, k: nat, cap: nat): (c: nat)
  {
    if streams == [] then 0
    else Calls(streams[0], id, k, cap) + TotalCalls(streams[1..], id, k, cap)
  }

  /** How many connections carried record k. */
  function Carriers(streams: seq<seq<nat>>, k: nat): (c: nat)
    ensures c <= |streams|
  {
    if streams == [] then 0 else (if k in streams[0] then 1 else 0) + Carriers(streams[1..], k)
  }

  predicate AllKept(streams: seq<seq<nat>>, id: nat -> Uuid, k: nat, cap: nat)
  {
    forall m | 0 <= m < |streams| :: Kept(streams[m], id, k, cap)
  }

  /** Over any connections: the handler runs for a record at least as often as there are connections that
      carried it, and exactly as often if and only if every cache keeps its id long enough. */
  lemma {:induction false} CallsCountCarriers(streams: seq<seq<nat>>, id: nat -> Uuid, k: nat, cap: nat)
    requires cap > 0 && forall m | 0 <= m < |streams| :: DistinctOn(id, P.Elems(streams[m]))
    ensures TotalCalls(streams, id, k, cap) >= Carriers(streams, k)
    ensures TotalCalls(streams, id, k, cap) == Carriers(streams, k) <==> AllKept(streams, id, k, cap)
  {
    if streams != [] {
      var ks, rest := streams[0], streams[1..];
      forall m | 0 <= m < |rest| ensures DistinctOn(id, P.Elems(rest[m])) { assert rest[m] == streams[m + 1]; }
      CallsCountCarriers(rest, id, k, cap);
      if k in ks {
        OneCallIff(ks, id, k, cap);
      } else {
        NoCallsWithoutCopy(ks, id, k, cap);
      }
      assert AllKept(streams, id, k, cap) <==> Kept(ks, id, k, cap) && AllKept(rest, id, k, cap) by {
        assert forall m | 0 <= m < |rest| :: rest[m] == streams[m + 1];
      }
    }
  }

  lemma {:induction false} CarriedSomewhere(streams: seq<seq<nat>>, k: nat)
    ensures Carriers(streams, k) > 0 <==> C.InSome(streams, k)
  {
    if streams != [] {
      var rest := streams[1..];
      CarriedSomewhere(rest, k);
      if C.InSome(rest, k) {
        var m :| 0 <= m < |rest| && k in rest[m];
        assert k in streams[m + 1];
      }
      if C.InSome(streams, k) && k !in streams[0] {
        var m :| 0 <= m < |streams| && k in streams[m];
        assert k in rest[m - 1];
      }
    }
  }

  lemma DistinctStreams(s: State, id: nat -> Uuid)
    requires C.StreamsOk(s) && DistinctOn(id, s.handled)
    ensures forall m | 0 <= m < |s.streams| :: DistinctOn(id, P.Elems(s.streams[m]))
  {
    forall m | 0 <= m < |s.streams| ensures DistinctOn(id, P.Elems(s.streams[m])) {
      forall k | k in P.Elems(s.streams[m]) ensures k in s.handled {
        assert k in s.streams[m];
        assert C.InSome(s.streams, k);
      }
    }
  }

  /** Exactly once, exactly when. In every run, through any number of connections and whatever the broker
      redelivers: the handler runs for a processed record at least once, as often as there are connections
      that carried it if and only if their caches keep its id, and then exactly once if and only if a single
      connection carried it. */
  lemma HandlerCalls(n: nat, first: nat, actions: seq<Action>, id: nat -> Uuid, k: nat, cap: nat)
    requires Possible(Init(n, first), actions) && cap > 0
    requires DistinctOn(id, Run(Init(n, first), actions).handled)
    ensures var s := Run(Init(n, first), actions);
            var calls := TotalCalls(s.streams, id, k, cap);
            && calls >= Carriers(s.streams, k)
            && (Carriers(s.streams, k) > 0 <==> k in s.handled)
            && (calls == Carriers(s.streams, k) <==> AllKept(s.streams, id, k, cap))
            && (calls == 1 <==> Carriers(s.streams, k) == 1 && AllKept(s.streams, id, k, cap))
  {
    var s := Run(Init(n, first), actions);
    C.RunSourced(Init(n, first), actions);
    DistinctStreams(s, id);
    CallsCountCarriers(s.streams, id, k, cap);
    CarriedSomewhere(s.streams, k);
    if Carriers(s.streams, k) == 0 {
      NobodyCalls(s.streams, id, k, cap);
    }
  }

  lemma {:induction false} NobodyCalls(streams: seq<seq<nat>>, id: nat -> Uuid, k: nat, cap: nat)
    requires Carriers(streams, k) == 0
    ensures TotalCalls(streams, id, k, cap) == 0
  {
    if streams != [] {
      NoCallsWithoutCopy(streams[0], id, k, cap);
      NobodyCalls(streams[1..], id, k, cap);
    }
  }

  lemma FewIsAllKept(streams: seq<seq<nat>>, id: nat -> Uuid, k: nat, cap: nat)
    requires cap > 0 && forall m | 0 <= m < |streams| :: DistinctOn(id, P.Elems(streams[m]))
    ensures (forall m | 0 <= m < |streams| :: FewBetween(streams[m], k, cap)) ==> AllKept(streams, id, k, cap)
  {
    if forall m | 0 <= m < |streams| :: FewBetween(streams[m], k, cap) {
      forall m | 0 <= m < |streams| ensures Kept(streams[m], id, k, cap) {
        FewBetweenIsKept(streams[m], id, k, cap);
      }
    }
  }

  lemma HandledRecord(n: nat, first: nat, actions: seq<Action>, id: nat -> Uuid, cap: nat, k: nat)
    requires Possible(Init(n, first), actions) && cap > 0 && DistinctOn(id, Run(Init(n, first), actions).handled)
    requires k in Run(Init(n, first), actions).handled
    ensures var s := Run(Init(n, first), actions);
            && TotalCalls(s.streams, id, k, cap) >= 1
            && ((forall m | 0 <= m < |s.streams| :: FewBetween(s.streams[m], k, cap)) ==>
                  (TotalCalls(s.streams, id, k, cap) == 1 <==> Carriers(s.streams, k) == 1))
  {
    var s := Run(Init(n, first), actions);
    C.RunSourced(Init(n, first), actions);
    DistinctStreams(s, id);
    HandlerCalls(n, first, actions, id, k, cap);
    FewIsAllKept(s.streams, id, k, cap);
  }

  /** End to end: on every disciplined, roomy run, with any disconnects and re-subscribes, once a subscription
      has settled the handler has run for every record of the topic above the client's first offset; it has
      run exactly once for a record that one connection carried with fewer than `cap` other records between
      its copies. */
  lemma EveryRecordHandled(n: nat, first: nat, actions: seq<Action>, i: nat, j: nat, id: nat -> Uuid, cap: nat)
    requires DisciplinedRun(Init(n, first), actions) && Possible(Init(n, first), actions)
    requires T.RoomyRun(Init(n, first), actions) && T.Settles(Run(Init(n, first), actions), i, j)
    requires DistinctOn(id, Run(Init(n, first), actions).handled) && cap > 0
    ensures var s := Run(Init(n, first), actions);
            forall k: nat | first < k <= s.counter ::
              && k in s.handled && TotalCalls(s.streams, id, k, cap) >= 1
              && ((forall m | 0 <= m < |s.streams| :: FewBetween(s.streams[m], k, cap)) ==>
                    (TotalCalls(s.streams, id, k, cap) == 1 <==> Carriers(s.streams, k) == 1))
  {
    var s := Run(Init(n, first), actions);
    T.RoomyRunsLoseNothing(n, first, actions);
    forall k: nat | first < k <= s.counter
      ensures k in s.handled && TotalCalls(s.streams, id, k, cap) >= 1
      ensures (forall m | 0 <= m < |s.streams| :: FewBetween(s.streams[m], k, cap)) ==>
                (TotalCalls(s.streams, id, k, cap) == 1 <==> Carriers(s.streams, k) == 1)
    {
      HandledRecord(n, first, actions, id, cap, k);
    }
  }

  /** In particular, over a single connection that carries fewer than `cap` other records between the copies of
      a record: exactly once for every record above the first offset. */
  lemma EveryRecordHandledOnce(n: nat, first: nat, actions: seq<Action>, i: nat, j: nat, id: nat -> Uuid, cap: nat)
    requires DisciplinedRun(Init(n, first), actions) && Possible(Init(n, first), actions)
    requires T.RoomyRun(Init(n, first), actions) && T.Settles(Run(Init(n, first), actions), i, j)
    requires DistinctOn(id, Run(Init(n, first), actions).handled) && cap > 0
    requires var s := Run(Init(n, first), actions);
             |s.streams| == 1 && forall k: nat | first < k <= s.counter :: FewBetween(s.streams[0], k, cap)
    ensures var s := Run(Init(n, first), actions);
            forall k: nat | first < k <= s.counter :: TotalCalls(s.streams, id, k, cap) == 1
  {
    var s := Run(Init(n, first), actions);
    EveryRecordHandled(n, first, actions, i, j, id, cap);
    forall k: nat | first < k <= s.counter ensures TotalCalls(s.streams, id, k, cap) == 1 {
      HandlerCalls(n, first, actions, id, k, cap);
      assert Carriers(s.streams, k) == 1;
    }
  }

  lemma {:induction false} DisjointMeansOne(streams: seq<seq<nat>>, k: nat)
    requires O.Disjoint(streams)
    ensures Carriers(streams, k) <= 1
  {
    if streams != [] {
      var rest := streams[1..];
      forall m, n, q | 0 <= m < n < |rest| && q in rest[m] ensures q !in rest[n] {
        assert q in streams[m + 1] && rest[n] == streams[n + 1];
      }
      DisjointMeansOne(rest, k);
      CarriedSomewhere(rest, k);
      assert forall m | 0 <= m < |rest| :: rest[m] == streams[m + 1];
    }
  }

  /** What a client can arrange: one connection at a time, ended only while the stored offset has reached
      everything processed. On every disciplined and roomy run of such a client, through any number of
      connections, once a subscription has settled the handler has run exactly once for every record above the
      first offset, given fewer than `cap` other records between the copies of one. */
  lemma TidyClientsHandleOnce(n: nat, first: nat, actions: seq<Action>, i: nat, j: nat, id: nat -> Uuid, cap: nat)
    requires DisciplinedRun(Init(n, first), actions) && Possible(Init(n, first), actions)
    requires T.RoomyRun(Init(n, first), actions) && O.TidyRun(Init(n, first), actions)
    requires T.Settles(Run(Init(n, first), actions), i, j)
    requires DistinctOn(id, Run(Init(n, first), actions).handled) && cap > 0
    requires var s := Run(Init(n, first), actions);
             forall m, k: nat | 0 <= m < |s.streams| && first < k <= s.counter :: FewBetween(s.streams[m], k, cap)
    ensures var s := Run(Init(n, first), actions);
            forall k: nat | first < k <= s.counter :: TotalCalls(s.streams, id, k, cap) == 1
  {
    var s := Run(Init(n, first), actions);
    EveryRecordHandled(n, first, actions, i, j, id, cap);
    O.TidyStreamsAreDisjoint(n, first, actions);
    forall k: nat | first < k <= s.counter ensures TotalCalls(s.streams, id, k, cap) == 1 {
      HandlerCalls(n, first, actions, id, k, cap);
      DisjointMeansOne(s.streams, k);
      assert Carriers(s.streams, k) == 1;
    }
  }

  /** The reconnect: on a run that meets every condition, a client that processes a record and loses its
      connection before the PUBACK gets the record again on the next one, where a new cache lets it through. */
  lemma ReconnectRunsHandlerAgain(id: nat -> Uuid, cap: nat) returns (run: seq<Action>)
    requires id(1) != NIL_UUID && cap > 0
    ensures DisciplinedRun(Init(1, 0), run) && Possible(Init(1, 0), run) && T.RoomyRun(Init(1, 0), run)
    ensures var s := Run(Init(1, 0), run);
            Carriers(s.streams, 1) == 2 && TotalCalls(s.streams, id, 1, cap) == 2
  {
    run := L.RedeliveredAfterReconnect();
    var s := Run(Init(1, 0), run);
    assert s.streams[1..] == [[1]] && s.streams[1..][1..] == [];
    assert Carriers([[1]], 1) == 1;
    assert FirstIndex([1], 1) == 0;
    HandlerCalls(1, 0, run, id, 1, cap);
  }
}
