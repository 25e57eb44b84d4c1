/** The publish path through crashes: with the publishes of each topic handled one at a time, what a PUBACK or
    a dedup entry stands for is a record that no restart puts in danger. */
module PublishCrash {
  import opened Bytes
  import opened Dedup
  import W = DedupWindow
  import opened PublishPath

  /** Between the seq allocation and the seq key write. */
  predicate InPublish(stage: Stage)
  {
    stage.Allocated? || stage.Written?
  }

  /** Publishes of one topic are serialised; anything else may interleave, and crash at any point. */
  predicate Disciplined(b: Broker, a: Action)
    requires Enabled(b, a)
  {
    a.Allocate? ==>
      forall h | h in b.handlers && InPublish(b.handlers[h]) :: b.handlers[h].req.topic != b.handlers[a.h].req.topic
  }

  predicate DisciplinedRun(b: Broker, actions: seq<Action>, c: Config)
    requires Possible(b, actions, c)
    decreases |actions|
  {
    actions == [] || (Disciplined(b, actions[0]) && DisciplinedRun(Step(b, actions[0], c), actions[1..], c))
  }

  /** The records that a restart leaves alone: those the seq key of their topic has reached. */
  function Durable(b: Broker): (logs: map<Topic, Log>)
  {
    map t | t in b.logs :: map n | n in b.logs[t] && n <= SeqKeyOf(b, t) :: b.logs[t][n]
  }

  predicate Serialised(b: Broker)
  {
    && (forall t | t in b.seqKeys :: b.seqKeys[t] <= CounterOf(b, t))
    && (forall h | h in b.handlers && InPublish(b.handlers[h]) ::
          var p := b.handlers[h];
          p.seqNo == CounterOf(b, p.req.topic) && SeqKeyOf(b, p.req.topic) < p.seqNo)
    && (forall g, h | g in b.handlers && h in b.handlers && g != h && InPublish(b.handlers[g]) && InPublish(b.handlers[h]) ::
          b.handlers[g].req.topic != b.handlers[h].req.topic)
  }

  lemma StepKeepsSerialised(b: Broker, a: Action, c: Config)
    requires Serialised(b) && Enabled(b, a) && Disciplined(b, a)
    ensures Serialised(Step(b, a, c))
  {
  }

  /** No step touches a durable record. */
  lemma DurableGrows(b: Broker, a: Action, c: Config)
    requires Serialised(b) && Enabled(b, a)
    ensures Grows(Durable(b), Durable(Step(b, a, c)))
  {
    var r := Step(b, a, c);
    forall t, n | t in Durable(b) && n in Durable(b)[t]
      ensures t in Durable(r) && n in Durable(r)[t] && Durable(r)[t][n] == Durable(b)[t][n]
    {
      assert t in b.logs && n in b.logs[t] && n <= SeqKeyOf(b, t);
      assert SeqKeyOf(b, t) <= SeqKeyOf(r, t);
    }
  }

  lemma WrittenStays(b: Broker, a: Action, c: Config)
    requires Serialised(b) && WrittenHeld(b) && Enabled(b, a)
    ensures WrittenHeld(Step(b, a, c))
  {
    var t := Step(b, a, c);
    forall h | h in t.handlers ensures HoldsWritten(t.logs, t.handlers[h]) {
      if h in b.handlers {
        assert HoldsWritten(b.logs, b.handlers[h]);
      }
    }
  }

  /** A saved seq key makes the record it was saved for durable. */
  lemma SavedIsDurable(b: Broker, h: nat, c: Config)
    requires WrittenHeld(b) && Enabled(b, SaveSeq(h))
    ensures HoldsWritten(Durable(Step(b, SaveSeq(h), c)), b.handlers[h])
  {
    assert HoldsWritten(b.logs, b.handlers[h]);
  }

  ghost predicate Safe(b: Broker)
  {
    Serialised(b) && WrittenHeld(b) && BackedBy(Durable(b), b)
  }

  lemma StepKeepsSafe(b: Broker, a: Action, c: Config)
    requires Safe(b) && Enabled(b, a) && Disciplined(b, a)
    ensures Safe(Step(b, a, c)) && Grows(Durable(b), Durable(Step(b, a, c)))
  {
    var t := Step(b, a, c);
    StepKeepsSerialised(b, a, c);
    WrittenStays(b, a, c);
    DurableGrows(b, a, c);
    BackedByGrows(b, Durable(b), Durable(t));
    if a.SaveSeq? {
      SavedIsDurable(b, a.h, c);
    }
    StepKeepsBacked(Durable(t), b, a, c);
  }

  lemma {:induction false} RunKeepsSafe(b: Broker, actions: seq<Action>, c: Config)
    requires Safe(b) && Possible(b, actions, c) && DisciplinedRun(b, actions, c)
    ensures Safe(Run(b, actions, c)) && Grows(Durable(b), Durable(Run(b, actions, c)))
    decreases |actions|
  {
    if actions != [] {
      StepKeepsSafe(b, actions[0], c);
      RunKeepsSafe(Step(b, actions[0], c), actions[1..], c);
    }
  }

  /** Through any crashes, with publishes serialised per topic: every PUBACK ever sent, including one for a
      repeat answered out of the reloaded dedup store, and every dedup entry in memory and on disk stands for
      a record with that idempotency id, server id and seq, and that record keeps its contents in every
      continuation, crashes included. */
  lemma AcksOutliveCrashes(before: seq<Action>, after: seq<Action>, c: Config)
    requires Possible(EMPTY, before, c) && DisciplinedRun(EMPTY, before, c)
    requires var b := Run(EMPTY, before, c); Possible(b, after, c) && DisciplinedRun(b, after, c)
    ensures var b := Run(EMPTY, before, c);
            && BackedBy(Durable(b), b)
            && Grows(Durable(b), Run(b, after, c).logs)
  {
    var b := Run(EMPTY, before, c);
    RunKeepsSafe(EMPTY, before, c);
    RunKeepsSafe(b, after, c);
    assert forall t, n | t in Durable(b) && n in Durable(b)[t] :: n in Durable(Run(b, after, c))[t];
  }

  /** A restart, and the same id once more. */
  function Repeat(h: nat, req: Request, now: int, loadNow: int): (actions: seq<Action>)
  {
    [Crash, Receive(h, req), Look(h, now, loadNow), Reply(h)]
  }

  lemma RepeatLooks(b: Broker, h: nat, req: Request, now: int, loadNow: int, c: Config)
    requires b.handlers == map[h := Received(req)] && Sweep(b.dedup, now) == b.dedup && b.dedup.lru == map[]
    requires Load(b.dedup.disk, req.env.idempotencyId, loadNow).0.Hit?
    ensures var b1 := Step(b, Look(h, now, loadNow), c);
            && Enabled(b1, Reply(h))
            && Step(b1, Reply(h), c).logs == b.logs && Step(b1, Reply(h), c).seqKeys == b.seqKeys
            && Step(b1, Reply(h), c).acks == b.acks + (if req.qos == 1 then [req.env.idempotencyId] else [])
  {
  }

  lemma RepeatRuns(b: Broker, h: nat, req: Request, now: int, loadNow: int, c: Config)
    requires Load(b.dedup.disk, req.env.idempotencyId, loadNow).0.Hit?
    ensures Possible(b, Repeat(h, req, now, loadNow), c)
    ensures var t := Run(b, Repeat(h, req, now, loadNow), c);
            && t.logs == b.logs && t.seqKeys == b.seqKeys
            && t.acks == b.acks + (if req.qos == 1 then [req.env.idempotencyId] else [])
  {
    var b1 := Step(b, Crash, c);
    var b2 := Step(b1, Receive(h, req), c);
    NothingToSweep(b.dedup, now);
    assert b2.handlers == map[h := Received(req)];
    RepeatLooks(b2, h, req, now, loadNow, c);
    var b3 := Step(b2, Look(h, now, loadNow), c);
    RunCons(b3, Reply(h), [], c);
    RunCons(b2, Look(h, now, loadNow), [Reply(h)], c);
    RunCons(b1, Receive(h, req), [Look(h, now, loadNow), Reply(h)], c);
    RunCons(b, Crash, [Receive(h, req), Look(h, now, loadNow), Reply(h)], c);
    assert Repeat(h, req, now, loadNow) == [Crash] + [Receive(h, req), Look(h, now, loadNow), Reply(h)];
  }

  lemma SameDurable(b: Broker, t: Broker)
    requires t.logs == b.logs && t.seqKeys == b.seqKeys
    ensures Durable(t) == Durable(b)
  {
  }

  lemma EntryIsBacked(b: Broker, id: Uuid)
    requires BackedBy(Durable(b), b) && DiskKey(id) in b.dedup.disk && |b.dedup.disk[DiskKey(id)]| >= 32
    ensures var e := DecodeEntry(b.dedup.disk[DiskKey(id)]); Backed(Durable(b), id, e.serverMsgId, e.seqNo)
  {
  }

  /** A repeat after a restart: the first lookup of an id that is on disk and alive finds it, so the publish is
      acked without storing anything, and the record the entry names is there and durable. */
  lemma RepeatAfterCrashIsBacked(actions: seq<Action>, h: nat, req: Request, now: int, loadNow: int, c: Config)
    requires Possible(EMPTY, actions, c) && DisciplinedRun(EMPTY, actions, c)
    requires Load(Run(EMPTY, actions, c).dedup.disk, req.env.idempotencyId, loadNow).0.Hit?
    ensures var b := Run(EMPTY, actions, c);
            && Possible(b, Repeat(h, req, now, loadNow), c)
            && var t := Run(b, Repeat(h, req, now, loadNow), c);
               && t.logs == b.logs
               && t.acks == b.acks + (if req.qos == 1 then [req.env.idempotencyId] else [])
               && var e := DecodeEntry(b.dedup.disk[DiskKey(req.env.idempotencyId)]);
                  Backed(Durable(t), req.env.idempotencyId, e.serverMsgId, e.seqNo)
  {
    var b := Run(EMPTY, actions, c);
    RunKeepsSafe(EMPTY, actions, c);
    RepeatRuns(b, h, req, now, loadNow, c);
    SameDurable(b, Run(b, Repeat(h, req, now, loadNow), c));
    EntryIsBacked(b, req.env.idempotencyId);
  }

  lemma NothingToSweep(s: State, now: int)
    ensures Sweep(W.Restarted(s), now) == W.Restarted(s)
  {
    assert Gone([], map[], now) == {};
    assert s.disk - (set x: Uuid | x in {} :: DiskKey(x)) == s.disk;
  }
}
