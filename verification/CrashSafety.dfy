/** Durability of acknowledged publishes on one topic: the atomic seq counter, the record write,
    the `meta:seq` write and the PUBACK are separate steps, and the process may crash between any
    two of them. A restart restores the counter from `meta:seq`. */
module CrashSafety {

  type Record = seq<int>

  /** How far a publish has got: counter taken, record on disk, seq key written. */
  datatype Progress = Allocated | Stored | SeqSaved

  datatype Publish = Publish(n: nat, rec: Record, progress: Progress)

  /** `records` and `seqKey` are on disk; `counter` and `pubs` are lost in a crash; `acked` is what
      publishers have been told. */
  datatype Topic = Topic(
    records: map<nat, Record>, seqKey: nat, counter: nat, pubs: map<nat, Publish>, acked: map<nat, Record>)

  datatype Action =
    | Allocate(p: nat, rec: Record)
    | Store(p: nat)
    | SaveSeq(p: nat)
    | SaveSeqFails(p: nat)
    | Ack(p: nat)
    | Crash

  predicate At(t: Topic, p: nat, progress: Progress)
  {
    p in t.pubs && t.pubs[p].progress == progress
  }

  predicate Enabled(t: Topic, a: Action)
  {
    match a
    case Allocate(p, _) => p !in t.pubs
    case Store(p) => At(t, p, Allocated)
    case SaveSeq(p) => At(t, p, Stored)
    case SaveSeqFails(p) => At(t, p, Stored)
    case Ack(p) => At(t, p, SeqSaved)
    case Crash => true
  }

  function Advance(t: Topic, p: nat, progress: Progress): (r: Topic)
    requires p in t.pubs
  {
    t.(pubs := t.pubs[p := t.pubs[p].(progress := progress)])
  }

  /** A failed write of the seq key is only logged: the publish goes on to its PUBACK. */
  function Step(t: Topic, a: Action): (r: Topic)
    requires Enabled(t, a)
  {
    match a
    case Allocate(p, rec) =>
      t.(counter := t.counter + 1, pubs := t.pubs[p := Publish(t.counter + 1, rec, Allocated)])
    case Store(p) => Advance(t, p, Stored).(records := t.records[t.pubs[p].n := t.pubs[p].rec])
    case SaveSeq(p) => Advance(t, p, SeqSaved).(seqKey := t.pubs[p].n)
    case SaveSeqFails(p) => Advance(t, p, SeqSaved)
    case Ack(p) => t.(pubs := t.pubs - {p}, acked := t.acked[t.pubs[p].n := t.pubs[p].rec])
    case Crash => t.(counter := t.seqKey, pubs := map[])
  }

  /** The conditions under which the broker keeps its promise: publishes of the topic are handled
      one at a time, and a write either succeeds or takes the process down. */
  predicate Disciplined(t: Topic, a: Action)
  {
    match a
    case Allocate(_, _) => t.pubs == map[]
    case SaveSeqFails(_) => false
    case _ => true
  }

  predicate Possible(t: Topic, actions: seq<Action>)
    decreases |actions|
  {
    actions == [] || (Enabled(t, actions[0]) && Possible(Step(t, actions[0]), actions[1..]))
  }

  predicate DisciplinedRun(t: Topic, actions: seq<Action>)
    decreases |actions|
  {
    actions == [] ||
    (Enabled(t, actions[0]) && Disciplined(t, actions[0]) && DisciplinedRun(Step(t, actions[0]), actions[1..]))
  }

  function Run(t: Topic, actions: seq<Action>): (r: Topic)
    requires Possible(t, actions)
    decreases |actions|
  {
    if actions == [] then t else Run(Step(t, actions[0]), actions[1..])
  }

  lemma {:induction false} DisciplinedIsPossible(t: Topic, actions: seq<Action>)
    requires DisciplinedRun(t, actions)
    ensures Possible(t, actions)
    decreases |actions|
  {
    if actions != [] {
      DisciplinedIsPossible(Step(t, actions[0]), actions[1..]);
    }
  }

  // ----- safety of every disciplined run -----

  predicate AckedOnDisk(t: Topic)
  {
    forall n | n in t.acked :: n in t.records && t.records[n] == t.acked[n]
  }

  predicate AckedCovered(t: Topic)
  {
    forall n | n in t.acked :: n <= t.seqKey
  }

  predicate OneAtATime(t: Topic)
  {
    forall p, q | p in t.pubs && q in t.pubs :: p == q
  }

  predicate PublishOk(t: Topic, u: Publish)
  {
    && u.n == t.counter && u.n !in t.acked && t.seqKey <= u.n
    && (u.progress == SeqSaved ==> t.seqKey == u.n)
    && (u.progress != SeqSaved ==> t.seqKey < u.n)
    && (u.progress != Allocated ==> u.n in t.records && t.records[u.n] == u.rec)
  }

  predicate Safe(t: Topic)
  {
    && AckedOnDisk(t) && AckedCovered(t) && OneAtATime(t)
    && t.seqKey <= t.counter
    && (forall p | p in t.pubs :: PublishOk(t, t.pubs[p]))
  }

  lemma StepKeepsSafe(t: Topic, a: Action)
    requires Safe(t) && Enabled(t, a) && Disciplined(t, a)
    ensures Safe(Step(t, a))
    ensures forall n | n in t.acked :: n in Step(t, a).acked && Step(t, a).acked[n] == t.acked[n]
  {
  }

  lemma {:induction false} RunKeepsSafe(t: Topic, actions: seq<Action>)
    requires Safe(t) && DisciplinedRun(t, actions)
    ensures Possible(t, actions) && Safe(Run(t, actions))
    ensures forall n | n in t.acked :: n in Run(t, actions).acked && Run(t, actions).acked[n] == t.acked[n]
    decreases |actions|
  {
    DisciplinedIsPossible(t, actions);
    if actions != [] {
      StepKeepsSafe(t, actions[0]);
      RunKeepsSafe(Step(t, actions[0]), actions[1..]);
    }
  }

  const NEW: Topic := Topic(map[], 0, 0, map[], map[])

  /** Crash safety: whatever crashes happen, every record acknowledged in some prefix of a disciplined
      run is on disk with the same contents after every continuation of it, because the restored
      counter is never below an acknowledged seq. */
  lemma AckedStayForever(before: seq<Action>, after: seq<Action>)
    requires DisciplinedRun(NEW, before)
    requires Possible(NEW, before) && DisciplinedRun(Run(NEW, before), after)
    ensures var t := Run(NEW, before);
            && Possible(t, after)
            && (forall n | n in t.acked :: n <= t.seqKey <= t.counter)
            && (forall n | n in t.acked :: n in Run(t, after).records && Run(t, after).records[n] == t.acked[n])
  {
    RunKeepsSafe(NEW, before);
    RunKeepsSafe(Run(NEW, before), after);
  }

  // ----- exactly when a restart is safe -----

  /** A broker that has just come up on what is on disk. */
  predicate JustRestarted(t: Topic)
  {
    t.pubs == map[] && t.counter == t.seqKey && AckedOnDisk(t)
  }

  ghost predicate KeepsAcked(t: Topic, actions: seq<Action>)
    requires Possible(t, actions)
  {
    forall n | n in t.acked :: n in Run(t, actions).records && Run(t, actions).records[n] == t.acked[n]
  }

  ghost predicate AlwaysKeepsAcked(t: Topic)
  {
    forall actions :: DisciplinedRun(t, actions) ==> Possible(t, actions) && KeepsAcked(t, actions)
  }

  /** One whole publish. */
  function PublishOnce(rec: Record): (actions: seq<Action>)
  {
    [Allocate(0, rec), Store(0), SaveSeq(0), Ack(0)]
  }

  function AfterPublish(t: Topic, rec: Record): (r: Topic)
  {
    var n := t.counter + 1;
    Topic(t.records[n := rec], n, n, map[], t.acked[n := rec])
  }

  lemma RunCons(t: Topic, a: Action, rest: seq<Action>)
    requires Enabled(t, a) && Disciplined(t, a) && DisciplinedRun(Step(t, a), rest)
    ensures Possible(Step(t, a), rest) && DisciplinedRun(t, [a] + rest)
    ensures Possible(t, [a] + rest) && Run(t, [a] + rest) == Run(Step(t, a), rest)
  {
    assert ([a] + rest)[1..] == rest;
    DisciplinedIsPossible(Step(t, a), rest);
  }

  lemma PublishOnceRuns(t: Topic, rec: Record, rest: seq<Action>)
    requires t.pubs == map[] && DisciplinedRun(AfterPublish(t, rec), rest)
    ensures Possible(AfterPublish(t, rec), rest) && DisciplinedRun(t, PublishOnce(rec) + rest)
    ensures Possible(t, PublishOnce(rec) + rest) && Run(t, PublishOnce(rec) + rest) == Run(AfterPublish(t, rec), rest)
  {
    var t1 := Step(t, Allocate(0, rec));
    var t2 := Step(t1, Store(0));
    var t3 := Step(t2, SaveSeq(0));
    assert Step(t3, Ack(0)) == AfterPublish(t, rec);
    RunCons(t3, Ack(0), rest);
    RunCons(t2, SaveSeq(0), [Ack(0)] + rest);
    RunCons(t1, Store(0), [SaveSeq(0)] + ([Ack(0)] + rest));
    RunCons(t, Allocate(0, rec), [Store(0)] + ([SaveSeq(0)] + ([Ack(0)] + rest)));
    assert PublishOnce(rec) + rest == [Allocate(0, rec)] + ([Store(0)] + ([SaveSeq(0)] + ([Ack(0)] + rest)));
  }

  /** From a quiet broker, publishing `rec` until the counter reaches n overwrites key n. */
  lemma {:induction false} OverwriteRun(t: Topic, n: nat, rec: Record) returns (actions: seq<Action>)
    requires t.pubs == map[] && t.counter < n
    ensures DisciplinedRun(t, actions) && Possible(t, actions)
    ensures n in Run(t, actions).records && Run(t, actions).records[n] == rec
    decreases n - t.counter
  {
    var u := AfterPublish(t, rec);
    var rest := [];
    if u.counter < n {
      rest := OverwriteRun(u, n, rec);
    }
    actions := PublishOnce(rec) + rest;
    PublishOnceRuns(t, rec, rest);
  }

  /** After a restart, every disciplined continuation keeps every acknowledged record if and only if
      the restored seq key has reached every acknowledged seq. Below that, reuse of a key is certain
      to be reachable. */
  lemma RestartSafeIff(t: Topic)
    requires JustRestarted(t)
    ensures AlwaysKeepsAcked(t) <==> AckedCovered(t)
  {
    if AckedCovered(t) {
      forall actions | DisciplinedRun(t, actions)
        ensures Possible(t, actions) && KeepsAcked(t, actions)
      {
        RunKeepsSafe(t, actions);
      }
    } else {
      var n :| n in t.acked && n > t.seqKey;
      var actions := OverwriteRun(t, n, t.acked[n] + [0]);
      assert !KeepsAcked(t, actions);
    }
  }

  // ----- why the conditions are there -----

  /** Two publishers at once: the slower one moves `meta:seq` back below an acknowledged seq, and
      the first publish after a crash overwrites that record. */
  lemma ConcurrentPublishersLoseAcked(a: Record, b: Record)
    ensures var run := [Allocate(1, a), Allocate(2, b), Store(2), SaveSeq(2), Ack(2), Store(1), SaveSeq(1), Crash];
            && Possible(NEW, run)
            && Run(NEW, run).acked == map[2 := b] && Run(NEW, run).seqKey == 1
            && JustRestarted(Run(NEW, run)) && !AlwaysKeepsAcked(Run(NEW, run))
  {
    var end := [Store(1), SaveSeq(1), Crash];
    SlowPublisherCatchesUp(a, b);
    var t1 := Step(NEW, Allocate(1, a));
    var t2 := Step(t1, Allocate(2, b));
    var t3 := Step(t2, Store(2));
    var t4 := Step(t3, SaveSeq(2));
    assert Step(t4, Ack(2)) == Raced(a, b);
    PossibleCons(t4, Ack(2), end);
    PossibleCons(t3, SaveSeq(2), [Ack(2)] + end);
    PossibleCons(t2, Store(2), [SaveSeq(2)] + ([Ack(2)] + end));
    PossibleCons(t1, Allocate(2, b), [Store(2)] + ([SaveSeq(2)] + ([Ack(2)] + end)));
    PossibleCons(NEW, Allocate(1, a), [Allocate(2, b)] + ([Store(2)] + ([SaveSeq(2)] + ([Ack(2)] + end))));
    assert [Allocate(1, a), Allocate(2, b), Store(2), SaveSeq(2), Ack(2), Store(1), SaveSeq(1), Crash]
        == [Allocate(1, a)] + ([Allocate(2, b)] + ([Store(2)] + ([SaveSeq(2)] + ([Ack(2)] + end))));
  }

  /** Publisher 2 has been acknowledged while publisher 1 has only taken its seq. */
  function Raced(a: Record, b: Record): (t: Topic)
  {
    Topic(map[2 := b], 2, 2, map[1 := Publish(1, a, Allocated)], map[2 := b])
  }

  lemma SlowPublisherCatchesUp(a: Record, b: Record)
    ensures var end := [Store(1), SaveSeq(1), Crash];
            && Possible(Raced(a, b), end)
            && Run(Raced(a, b), end).acked == map[2 := b] && Run(Raced(a, b), end).seqKey == 1
            && JustRestarted(Run(Raced(a, b), end)) && !AlwaysKeepsAcked(Run(Raced(a, b), end))
  {
    var t6 := Step(Raced(a, b), Store(1));
    var t7 := Step(t6, SaveSeq(1));
    var t8 := Step(t7, Crash);
    PossibleCons(t7, Crash, []);
    PossibleCons(t6, SaveSeq(1), [Crash]);
    PossibleCons(Raced(a, b), Store(1), [SaveSeq(1), Crash]);
    assert 2 in t8.acked && t8.seqKey == 1;
    RestartSafeIff(t8);
  }

  lemma PossibleCons(t: Topic, a: Action, rest: seq<Action>)
    requires Enabled(t, a) && Possible(Step(t, a), rest)
    ensures Possible(t, [a] + rest) && Run(t, [a] + rest) == Run(Step(t, a), rest)
  {
    assert ([a] + rest)[1..] == rest;
  }

  /** A seq key write that fails without taking the process down does the same with one publisher. */
  lemma FailedSeqWriteLosesAcked(a: Record)
    ensures var run := [Allocate(1, a), Store(1), SaveSeqFails(1), Ack(1), Crash];
            && Possible(NEW, run) && Run(NEW, run).acked == map[1 := a]
            && JustRestarted(Run(NEW, run)) && !AlwaysKeepsAcked(Run(NEW, run))
  {
    var t1 := Step(NEW, Allocate(1, a));
    var t2 := Step(t1, Store(1));
    var t3 := Step(t2, SaveSeqFails(1));
    var t4 := Step(t3, Ack(1));
    var t5 := Step(t4, Crash);
    PossibleCons(t4, Crash, []);
    PossibleCons(t3, Ack(1), [Crash]);
    PossibleCons(t2, SaveSeqFails(1), [Ack(1), Crash]);
    PossibleCons(t1, Store(1), [SaveSeqFails(1), Ack(1), Crash]);
    PossibleCons(NEW, Allocate(1, a), [Store(1), SaveSeqFails(1), Ack(1), Crash]);
    assert t5.acked == map[1 := a];
    assert 1 in t5.acked;
    RestartSafeIff(t5);
  }
}
