/** The publish path and the delivery of one topic as one system: the steps that allocate a seq, write a record and
    write the seq key are steps of both. */
module JointRun {
  import opened Bytes
  import opened Common
  import D = Dedup
  import B = PublishPath
  import A = AtLeastOnce
  import T = AtLeastOnceTheorems
  import X = ExactlyOnce
  import N = EndToEnd

  datatype Joint = Joint(b: B.Broker, s: A.State)

  datatype Event = Publish(pub: B.Action) | Deliver(step: A.Action)

  function Start(first: nat): (j: Joint)
  {
    Joint(B.EMPTY, A.Init(0, first))
  }

  /** What a step of a publishing session is to the delivery of topic t. */
  function Echo(b: B.Broker, a: B.Action, t: B.Topic): (r: Option<A.Action>)
    requires B.Enabled(b, a)
  {
    match a
    case Allocate(h, _) => if b.handlers[h].req.topic == t then Some(A.Allocate) else None
    case Write(h) => if b.handlers[h].req.topic == t then Some(A.Store(b.handlers[h].seqNo)) else None
    case SaveSeq(h) => if b.handlers[h].req.topic == t then Some(A.SaveSeq(b.handlers[h].seqNo)) else None
    case _ => None
  }

  predicate IsPublishing(a: A.Action)
  {
    a.Allocate? || a.Store? || a.SaveSeq?
  }

  /** Remember comes after the fan-out. The broker stays up. */
  predicate Can(j: Joint, e: Event, t: B.Topic)
  {
    match e
    case Deliver(a) => A.Enabled(j.s, a) && !IsPublishing(a)
    case Publish(a) =>
      && B.Enabled(j.b, a) && !a.Crash?
      && (a.Note? && j.b.handlers[a.h].req.topic == t ==> j.b.handlers[a.h].seqNo !in j.s.pubs)
      && (Echo(j.b, a, t).Some? ==> A.Enabled(j.s, Echo(j.b, a, t).value))
  }

  function Next(j: Joint, e: Event, t: B.Topic, c: D.Config): (k: Joint)
    requires Can(j, e, t)
  {
    match e
    case Deliver(a) => j.(s := A.Step(j.s, a))
    case Publish(a) =>
      Joint(B.Step(j.b, a, c), if Echo(j.b, a, t).Some? then A.Step(j.s, Echo(j.b, a, t).value) else j.s)
  }

  predicate Possible(j: Joint, es: seq<Event>, t: B.Topic, c: D.Config)
    decreases |es|
  {
    es == [] || (Can(j, es[0], t) && Possible(Next(j, es[0], t, c), es[1..], t, c))
  }

  function Run(j: Joint, es: seq<Event>, t: B.Topic, c: D.Config): (k: Joint)
    requires Possible(j, es, t, c)
    decreases |es|
  {
    if es == [] then j else Run(Next(j, es[0], t, c), es[1..], t, c)
  }

  // ----- the two halves stay in step -----

  predicate StageLinked(s: A.State, p: B.Stage, t: B.Topic)
  {
    && (p.Allocated? && p.req.topic == t ==> p.seqNo in s.pubs && s.pubs[p.seqNo] == A.Allocated)
    && (p.Written? && p.req.topic == t ==> p.seqNo in s.pubs && s.pubs[p.seqNo] == A.Stored)
  }

  predicate InPublish(p: B.Stage, t: B.Topic)
  {
    (p.Allocated? || p.Written?) && p.req.topic == t
  }

  ghost predicate Linked(j: Joint, t: B.Topic)
  {
    && j.s.counter == B.CounterOf(j.b, t) && j.s.stored == B.LogOf(j.b, t).Keys
    && (forall n | n in j.s.pubs :: n <= j.s.counter)
    && (forall h | h in j.b.handlers :: StageLinked(j.s, j.b.handlers[h], t))
    && (forall g, h | g in j.b.handlers && h in j.b.handlers && g != h
                      && InPublish(j.b.handlers[g], t) && InPublish(j.b.handlers[h], t) ::
          j.b.handlers[g].seqNo != j.b.handlers[h].seqNo)
  }

  /** The delivery side never holds a publish up: whatever the publish path can do, its echo can. */
  lemma EchoIsEnabled(j: Joint, a: B.Action, t: B.Topic)
    requires Linked(j, t) && B.Enabled(j.b, a)
    ensures Echo(j.b, a, t).Some? ==> A.Enabled(j.s, Echo(j.b, a, t).value)
  {
    if a.Write? || a.SaveSeq? {
      assert StageLinked(j.s, j.b.handlers[a.h], t);
    }
  }

  lemma DeliverShape(s: A.State, a: A.Action)
    requires A.Enabled(s, a) && !IsPublishing(a)
    ensures A.Step(s, a).counter == s.counter && A.Step(s, a).stored == s.stored
    ensures A.Step(s, a).pubs == if a.FanOut? then s.pubs - {a.n} else s.pubs
  {
  }

  lemma DeliverKeepsLinked(j: Joint, a: A.Action, t: B.Topic)
    requires Linked(j, t) && A.Enabled(j.s, a) && !IsPublishing(a)
    ensures Linked(j.(s := A.Step(j.s, a)), t)
  {
    DeliverShape(j.s, a);
    var s := A.Step(j.s, a);
    forall h | h in j.b.handlers ensures StageLinked(s, j.b.handlers[h], t) {
      assert StageLinked(j.s, j.b.handlers[h], t);
    }
  }

  lemma EchoKeepsLinked(j: Joint, a: B.Action, t: B.Topic, c: D.Config)
    requires Linked(j, t) && Can(j, Publish(a), t) && Echo(j.b, a, t).Some?
    ensures Linked(Next(j, Publish(a), t, c), t)
  {
    var k := Next(j, Publish(a), t, c);
    assert StageLinked(j.s, j.b.handlers[a.h], t);
    forall h | h in k.b.handlers ensures StageLinked(k.s, k.b.handlers[h], t) {
      if h in j.b.handlers { assert StageLinked(j.s, j.b.handlers[h], t); }
    }
    assert k.s.stored == B.LogOf(k.b, t).Keys;
  }

  lemma OtherPublishKeepsLinked(j: Joint, a: B.Action, t: B.Topic, c: D.Config)
    requires Linked(j, t) && Can(j, Publish(a), t) && Echo(j.b, a, t).None?
    ensures Linked(Next(j, Publish(a), t, c), t)
  {
    var k := Next(j, Publish(a), t, c);
    forall h | h in k.b.handlers ensures StageLinked(k.s, k.b.handlers[h], t) {
      if h in j.b.handlers { assert StageLinked(j.s, j.b.handlers[h], t); }
    }
    assert B.LogOf(k.b, t) == B.LogOf(j.b, t);
  }

  lemma NextKeepsLinked(j: Joint, e: Event, t: B.Topic, c: D.Config)
    requires Linked(j, t) && Can(j, e, t)
    ensures Linked(Next(j, e, t, c), t)
  {
    match e
    case Deliver(a) => DeliverKeepsLinked(j, a, t);
    case Publish(a) =>
      if Echo(j.b, a, t).Some? {
        EchoKeepsLinked(j, a, t, c);
      } else {
        OtherPublishKeepsLinked(j, a, t, c);
      }
  }

  lemma {:induction false} RunKeepsLinked(j: Joint, es: seq<Event>, t: B.Topic, c: D.Config)
    requires Linked(j, t) && Possible(j, es, t, c)
    ensures Linked(Run(j, es, t, c), t)
    decreases |es|
  {
    if es != [] {
      NextKeepsLinked(j, es[0], t, c);
      RunKeepsLinked(Next(j, es[0], t, c), es[1..], t, c);
    }
  }

  // ----- each half is a run of its own -----

  function Published(es: seq<Event>): (actions: seq<B.Action>)
  {
    if es == [] then [] else (if es[0].Publish? then [es[0].pub] else []) + Published(es[1..])
  }

  /** The delivery steps of an event. */
  function Part(j: Joint, e: Event, t: B.Topic): (actions: seq<A.Action>)
    requires Can(j, e, t)
  {
    match e
    case Deliver(a) => [a]
    case Publish(a) => if Echo(j.b, a, t).Some? then [Echo(j.b, a, t).value] else []
  }

  function Delivered(j: Joint, es: seq<Event>, t: B.Topic, c: D.Config): (actions: seq<A.Action>)
    requires Possible(j, es, t, c)
    decreases |es|
  {
    if es == [] then [] else Part(j, es[0], t) + Delivered(Next(j, es[0], t, c), es[1..], t, c)
  }

  /** The conditions on the joint run: server ids are left to the broker, publishes of the topic are serialised,
      PUBACKs come in order, no packet id is lapped, and there is room. */
  predicate Careful(j: Joint, e: Event, t: B.Topic)
    requires Can(j, e, t)
  {
    match e
    case Deliver(a) => A.Disciplined(j.s, a) && T.Roomy(j.s, a)
    case Publish(a) =>
      N.FreshIds(j.b, a) && (Echo(j.b, a, t).Some? ==> A.Disciplined(j.s, Echo(j.b, a, t).value))
  }

  predicate CarefulRun(j: Joint, es: seq<Event>, t: B.Topic, c: D.Config)
    requires Possible(j, es, t, c)
    decreases |es|
  {
    es == [] || (Careful(j, es[0], t) && CarefulRun(Next(j, es[0], t, c), es[1..], t, c))
  }

  lemma {:induction false} PublishedRuns(j: Joint, es: seq<Event>, t: B.Topic, c: D.Config)
    requires Possible(j, es, t, c) && CarefulRun(j, es, t, c)
    ensures B.Possible(j.b, Published(es), c) && B.Run(j.b, Published(es), c) == Run(j, es, t, c).b
    ensures N.FreshRun(j.b, Published(es), c)
    decreases |es|
  {
    if es != [] {
      var k := Next(j, es[0], t, c);
      PublishedRuns(k, es[1..], t, c);
      if es[0].Publish? {
        assert Published(es)[1..] == Published(es[1..]) && Published(es)[0] == es[0].pub;
      } else {
        assert Published(es) == Published(es[1..]);
      }
    }
  }

  /** One delivery step in front of a run. */
  lemma StepInFront(s: A.State, a: A.Action, rest: seq<A.Action>)
    requires A.Enabled(s, a) && A.Disciplined(s, a) && T.Roomy(s, a)
    requires A.Possible(A.Step(s, a), rest) && A.DisciplinedRun(A.Step(s, a), rest) && T.RoomyRun(A.Step(s, a), rest)
    ensures A.Possible(s, [a] + rest) && A.Run(s, [a] + rest) == A.Run(A.Step(s, a), rest)
    ensures A.DisciplinedRun(s, [a] + rest) && T.RoomyRun(s, [a] + rest)
  {
    assert ([a] + rest)[1..] == rest;
  }

  lemma {:induction false} DeliveredRuns(j: Joint, es: seq<Event>, t: B.Topic, c: D.Config)
    requires Possible(j, es, t, c) && CarefulRun(j, es, t, c)
    ensures var actions := Delivered(j, es, t, c);
            && A.Possible(j.s, actions) && A.Run(j.s, actions) == Run(j, es, t, c).s
            && A.DisciplinedRun(j.s, actions) && T.RoomyRun(j.s, actions)
    decreases |es|
  {
    if es != [] {
      var k := Next(j, es[0], t, c);
      var rest := Delivered(k, es[1..], t, c);
      DeliveredRuns(k, es[1..], t, c);
      if Part(j, es[0], t) == [] {
        assert [] + rest == rest;
      } else {
        StepInFront(j.s, Part(j, es[0], t)[0], rest);
      }
    }
  }

  /** Publisher to handler, in one run: sessions publish to a topic and a client receives it, through any
      interleaving and any connections. Once a subscription has settled, every record above the client's
      first offset is a message some session received for the topic and has reached the handler, and exactly once
      if and only if one connection carried it, given fewer than `cap` other records between its copies. */
  lemma EveryPublishedRecordIsHandled(es: seq<Event>, t: B.Topic, c: D.Config, first: nat, i: nat, j: nat, cap: nat)
    requires Possible(Start(first), es, t, c) && CarefulRun(Start(first), es, t, c)
    requires T.Settles(Run(Start(first), es, t, c).s, i, j) && cap > 0
    ensures var e := Run(Start(first), es, t, c);
            var log := B.LogOf(e.b, t);
            forall k: nat | first < k <= B.CounterOf(e.b, t) ::
              && k in log && B.Published(B.Requests(Published(es)), t, log[k])
              && X.TotalCalls(e.s.streams, N.IdIn(log), k, cap) >= 1
              && ((forall m | 0 <= m < |e.s.streams| :: X.FewBetween(e.s.streams[m], k, cap)) ==>
                    (X.TotalCalls(e.s.streams, N.IdIn(log), k, cap) == 1 <==> X.Carriers(e.s.streams, k) == 1))
  {
    var s0 := Start(first);
    var e := Run(s0, es, t, c);
    RunKeepsLinked(s0, es, t, c);
    PublishedRuns(s0, es, t, c);
    DeliveredRuns(s0, es, t, c);
    B.RecordsAreMessages(Published(es), c);
    T.SettledMeansAllAcked(0, first, Delivered(s0, es, t, c), i, j);
    if t in e.b.logs {
      N.DeliveredLogIsHandled(Published(es), c, t, 0, first, Delivered(s0, es, t, c), i, j, cap);
    } else {
      assert e.s.stored == {};
    }
  }
}
